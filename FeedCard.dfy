/**
 * One card of the feed: the `FeedProject` record and the facts a card
 * displays about it (liked heart and count, truncated description, tag strip,
 * team avatars, thumbnail, action buttons), plus the card's two UI flags.
 */
module FeedCard {
  import opened Wrappers

  // ---------------------------------------------------------------------------
  // The project record as the feed receives it
  // ---------------------------------------------------------------------------

  datatype Status = Draft | Pending | Approved

  datatype Tag = Tag(id: string, name: string, description: Option<string>)

  datatype Picture = Picture(url: string)

  datatype LaunchLead = LaunchLead(
    id: string,
    name: string,
    twitterUrl: Option<string>,
    linkedinUrl: Option<string>,
    avatar: Option<Picture>)

  datatype Hacker = Hacker(
    id: string,
    name: string,
    bio: Option<string>,
    twitterUrl: Option<string>,
    linkedinUrl: Option<string>,
    avatar: Option<Picture>)

  datatype Participant = Participant(role: string, hacker: Hacker)

  /** A like entry; `createdAt` is an ISO timestamp the model treats as opaque. */
  datatype Like = Like(hackerId: string, createdAt: string)

  /**
   * `startDate` is the parsed time in milliseconds, or None when the date does
   * not parse (JavaScript's `getTime()` yields NaN); `endDate` likewise.
   */
  datatype FeedProject = FeedProject(
    id: string,
    title: string,
    status: Status,
    preview: string,
    description: string,
    githubUrl: Option<string>,
    demoUrl: Option<string>,
    blogUrl: Option<string>,
    techTags: seq<Tag>,
    domainTags: seq<Tag>,
    isStarred: bool,
    isBroken: bool,
    thumbnail: Option<Picture>,
    launchLead: LaunchLead,
    participants: seq<Participant>,
    startDate: Option<int>,
    endDate: Option<int>,
    likes: seq<Like>,
    createdAt: string,
    updatedAt: string)

  // ---------------------------------------------------------------------------
  // Constants of the card
  // ---------------------------------------------------------------------------

  const DescriptionLimit: nat := 220
  const TagLimit: nat := 3
  const ParticipantLimit: nat := 2
  const DarkThumbnail := "/images/default_project_thumbnail_dark.svg"
  const LightThumbnail := "/images/default_project_thumbnail_light.svg"
  const ProjectsPath := "/projects/"

  function Min(a: nat, b: nat): nat { if a <= b then a else b }

  /** JavaScript truthiness of an optional string: present and non-empty. */
  predicate Truthy(s: Option<string>) {
    s.Some? && s.value != ""
  }

  // ---------------------------------------------------------------------------
  // Liked state and count
  // ---------------------------------------------------------------------------

  /** Some like entry was made by hacker `id`. */
  ghost predicate LikedBy(likes: seq<Like>, id: string) {
    exists i :: 0 <= i < |likes| && likes[i].hackerId == id
  }

  /**
   * `likes.some(like => like.hackerId === userInfo?.id)`: with no viewer the
   * comparison is against `undefined`, which no string equals.
   */
  function IsLiked(likes: seq<Like>, viewerId: Option<string>): (r: bool)
    ensures r <==> viewerId.Some? && LikedBy(likes, viewerId.value)
  {
    if likes == [] then false
    else if Some(likes[0].hackerId) == viewerId then true
    else
      var rest := IsLiked(likes[1..], viewerId);
      assert forall i :: 1 <= i < |likes| ==> likes[i] == likes[1..][i - 1];
      rest
  }

  // ---------------------------------------------------------------------------
  // Displayed facts
  // ---------------------------------------------------------------------------

  /** An avatar: a picture, or a one-letter monogram when there is none. */
  datatype Avatar =
    | Photo(url: string)
    | Initial(letter: Option<char>)
      /** a participant's monogram, taken from `swapFirstLetters(name)`, which is not modelled */
    | SwappedInitial(name: string)

  /** The description block: the text shown, whether "..." and "more" follow, whether "show less" follows. */
  datatype DescriptionView = DescriptionView(text: string, truncated: bool, showLess: bool)

  /** The tag strip: the tags shown and the "+N" badge, if any. */
  datatype TagStrip = TagStrip(shown: seq<Tag>, overflow: Option<nat>)

  /** The action buttons at the bottom of a card, in display order. */
  datatype Action = GitHub(href: string) | Demo(href: string) | Details(href: string) | Share

  datatype CardView = CardView(
    projectId: string,
    titleHref: string,
    liked: bool,
    likeCount: nat,
    team: seq<Avatar>,
    tags: TagStrip,
    description: DescriptionView,
    thumbnail: string,
    actions: seq<Action>)

  function ProjectHref(id: string): string { ProjectsPath + id }

  /** Collapsed: the first 220 characters, with "..." and "more" when cut; expanded: all of it and "show less". */
  function DescriptionOf(description: string, expanded: bool): (r: DescriptionView)
    ensures r.text <= description
    ensures |r.text| == if expanded then |description| else Min(DescriptionLimit, |description|)
    ensures r.truncated <==> !expanded && |description| > DescriptionLimit
    ensures r.showLess <==> expanded
  {
    if expanded then DescriptionView(description, false, true)
    else
      var shown := description[..Min(DescriptionLimit, |description|)];
      DescriptionView(shown, |description| > DescriptionLimit, false)
  }

  /** At most the first three technology tags, and a "+N" badge for the rest. */
  function TagStripOf(tags: seq<Tag>): (r: TagStrip)
    ensures r.shown <= tags
    ensures |r.shown| == Min(TagLimit, |tags|)
    ensures r.overflow.Some? <==> |tags| > TagLimit
    ensures r.overflow.Some? ==> |r.shown| + r.overflow.value == |tags|
  {
    var shown := tags[..Min(TagLimit, |tags|)];
    TagStrip(shown, if |tags| > TagLimit then Some(|tags| - TagLimit) else None)
  }

  function LeadAvatar(lead: LaunchLead): Avatar {
    if lead.avatar.Some? then Photo(lead.avatar.value.url)
    else Initial(if lead.name == "" then None else Some(lead.name[0]))
  }

  function ParticipantAvatar(hacker: Hacker): Avatar {
    if hacker.avatar.Some? then Photo(hacker.avatar.value.url) else SwappedInitial(hacker.name)
  }

  /** The launch lead in front, then at most the first two participants in their order. */
  function TeamAvatars(lead: LaunchLead, participants: seq<Participant>): (r: seq<Avatar>)
    ensures |r| == 1 + Min(ParticipantLimit, |participants|)
    ensures r[0] == LeadAvatar(lead)
    ensures forall i :: 1 <= i < |r| ==> r[i] == ParticipantAvatar(participants[i - 1].hacker)
  {
    var front := participants[..Min(ParticipantLimit, |participants|)];
    [LeadAvatar(lead)] + seq(|front|, i requires 0 <= i < |front| => ParticipantAvatar(front[i].hacker))
  }

  /** `thumbnail?.url || default`, the default chosen by the theme. */
  function ThumbnailSource(thumbnail: Option<Picture>, isDarkMode: bool): (r: string)
    ensures r != ""
    ensures thumbnail.Some? && thumbnail.value.url != "" ==> r == thumbnail.value.url
    ensures thumbnail.None? || thumbnail.value.url == "" ==>
              r == if isDarkMode then DarkThumbnail else LightThumbnail
  {
    if thumbnail.Some? && thumbnail.value.url != "" then thumbnail.value.url
    else if isDarkMode then DarkThumbnail
    else LightThumbnail
  }

  /** GitHub and Demo only for truthy URLs; Details and Share always, last. */
  function ActionsOf(p: FeedProject): (r: seq<Action>)
    ensures Truthy(p.githubUrl) <==> exists i :: 0 <= i < |r| && r[i].GitHub?
    ensures Truthy(p.demoUrl) <==> exists i :: 0 <= i < |r| && r[i].Demo?
    ensures forall i :: 0 <= i < |r| && r[i].GitHub? ==> r[i].href == p.githubUrl.value
    ensures forall i :: 0 <= i < |r| && r[i].Demo? ==> r[i].href == p.demoUrl.value
    ensures forall i, j :: 0 <= i < |r| && 0 <= j < |r| && r[i].GitHub? && r[j].Demo? ==> i < j
    ensures |r| == (if Truthy(p.githubUrl) then 1 else 0) + (if Truthy(p.demoUrl) then 1 else 0) + 2
    ensures r[|r| - 2] == Details(ProjectHref(p.id)) && r[|r| - 1] == Share
  {
    var github := if Truthy(p.githubUrl) then [GitHub(p.githubUrl.value)] else [];
    var demo := if Truthy(p.demoUrl) then [Demo(p.demoUrl.value)] else [];
    var r := github + demo + [Details(ProjectHref(p.id)), Share];
    assert Truthy(p.githubUrl) ==> r[0].GitHub?;
    assert Truthy(p.demoUrl) ==> r[|github|].Demo?;
    r
  }

  /** Everything a card shows for `p`, seen by `viewerId`, with the card's expanded flag and the theme. */
  function View(p: FeedProject, viewerId: Option<string>, expanded: bool, isDarkMode: bool): (r: CardView)
    ensures r.projectId == p.id
    ensures r.liked <==> viewerId.Some? && LikedBy(p.likes, viewerId.value)
    ensures r.likeCount == |p.likes|
  {
    CardView(
      p.id,
      ProjectHref(p.id),
      IsLiked(p.likes, viewerId),
      |p.likes|,
      TeamAvatars(p.launchLead, p.participants),
      TagStripOf(p.techTags),
      DescriptionOf(p.description, expanded),
      ThumbnailSource(p.thumbnail, isDarkMode),
      ActionsOf(p))
  }

  /** A description no longer than the limit is shown whole, collapsed or not. */
  lemma ShortDescriptionShownWhole(description: string, expanded: bool)
    requires expanded || |description| <= DescriptionLimit
    ensures DescriptionOf(description, expanded).text == description
    ensures !DescriptionOf(description, expanded).truncated
  {
  }

  // ---------------------------------------------------------------------------
  // The card's own state
  // ---------------------------------------------------------------------------

  /** The two flags a card flips: `isExpanded` and `showShareModal`. */
  class CardState {
    var isExpanded: bool
    var showShareModal: bool

    constructor ()
      ensures !isExpanded && !showShareModal
    {
      isExpanded := false;
      showShareModal := false;
    }

    /** The "more" button. */
    method ShowMore()
      modifies this`isExpanded
      ensures isExpanded
    {
      isExpanded := true;
    }

    /** The "show less" button. */
    method ShowLess()
      modifies this`isExpanded
      ensures !isExpanded
    {
      isExpanded := false;
    }

    /** The Share button; the modal closes itself through the same setter. */
    method SetShowShareModal(show: bool)
      modifies this`showShareModal
      ensures showShareModal == show
    {
      showShareModal := show;
    }

    /** The card as rendered in the current state. */
    function Render(p: FeedProject, viewerId: Option<string>, isDarkMode: bool): (r: CardView)
      reads this
      ensures r.description.showLess <==> isExpanded
      ensures isExpanded ==> r.description.text == p.description
    {
      View(p, viewerId, isExpanded, isDarkMode)
    }
  }
}
