/**
 * The feed list: loading and ordering the projects newest-first, the like
 * toggle applied to the list, and the grid component's state (`projects`,
 * `filteredProjects`, `loading`) with the notifications and like requests it
 * issues.
 */
module FeedGrid {
  import opened Wrappers
  import opened FeedCard

  // ---------------------------------------------------------------------------
  // Newest-first ordering
  // ---------------------------------------------------------------------------

  /**
   * The sort comparator: negative when `a` goes first. An unparsable date on
   * either side makes the two compare as equal.
   */
  function Compare(a: FeedProject, b: FeedProject): (r: int)
    ensures r < 0 <==> a.startDate.Some? && b.startDate.Some? && a.startDate.value > b.startDate.value
    ensures r == 0 <==> a.startDate.None? || b.startDate.None? || a.startDate == b.startDate
  {
    if a.startDate.None? || b.startDate.None? then 0
    else b.startDate.value - a.startDate.value
  }

  /** Every start date parses. */
  predicate Dated(s: seq<FeedProject>) {
    forall i :: 0 <= i < |s| ==> s[i].startDate.Some?
  }

  /** Dated, and start dates never increase along the list. */
  predicate NewestFirst(s: seq<FeedProject>) {
    && Dated(s)
    && forall i, j :: 0 <= i < j < |s| ==> s[i].startDate.value >= s[j].startDate.value
  }

  /** The projects of `s` that start at time `d`, in their order in `s`. */
  function StartingAt(s: seq<FeedProject>, d: int): seq<FeedProject> {
    if s == [] then []
    else (if s[0].startDate == Some(d) then [s[0]] else []) + StartingAt(s[1..], d)
  }

  /**
   * Inserts `x` into `sorted` before the first element it does not compare
   * after, so `x` stays ahead of everything that compares equal to it.
   */
  function Insert(x: FeedProject, sorted: seq<FeedProject>): (r: seq<FeedProject>)
    ensures multiset(r) == multiset(sorted) + multiset{x}
  {
    if sorted == [] || Compare(x, sorted[0]) <= 0 then [x] + sorted
    else
      assert sorted == [sorted[0]] + sorted[1..];
      [sorted[0]] + Insert(x, sorted[1..])
  }

  /**
   * `[...data].sort(Compare)`: a stable sort of a copy of the fetched list
   * (here an insertion sort; the input is a value and stays as it was).
   */
  function SortNewestFirst(data: seq<FeedProject>): (r: seq<FeedProject>)
    ensures multiset(r) == multiset(data)
    ensures |r| == |data|
  {
    if data == [] then []
    else
      assert data == [data[0]] + data[1..];
      Insert(data[0], SortNewestFirst(data[1..]))
  }

  /** A dated project no older than anything in a newest-first list can go in front of it. */
  lemma ConsKeepsNewestFirst(h: FeedProject, t: seq<FeedProject>)
    requires h.startDate.Some? && NewestFirst(t)
    requires forall y :: y in t ==> h.startDate.value >= y.startDate.value
    ensures NewestFirst([h] + t)
  {
  }

  lemma {:induction false} InsertKeepsNewestFirst(x: FeedProject, sorted: seq<FeedProject>)
    requires x.startDate.Some?
    requires NewestFirst(sorted)
    ensures NewestFirst(Insert(x, sorted))
  {
    if sorted == [] || Compare(x, sorted[0]) <= 0 {
      forall y | y in sorted ensures x.startDate.value >= y.startDate.value {
        var j :| 0 <= j < |sorted| && sorted[j] == y;
      }
      ConsKeepsNewestFirst(x, sorted);
    } else {
      var head, tail := sorted[0], sorted[1..];
      var r := Insert(x, tail);
      InsertKeepsNewestFirst(x, tail);
      forall y | y in r ensures head.startDate.value >= y.startDate.value {
        assert y in multiset(r);
        if y != x {
          assert y in multiset(tail);
          var j :| 0 <= j < |tail| && tail[j] == y;
          assert sorted[j + 1] == y;
        }
      }
      ConsKeepsNewestFirst(head, r);
    }
  }

  /** When every start date parses, the loaded list is newest-first. */
  lemma {:induction false} SortIsNewestFirst(data: seq<FeedProject>)
    requires Dated(data)
    ensures NewestFirst(SortNewestFirst(data))
  {
    if data != [] {
      SortIsNewestFirst(data[1..]);
      InsertKeepsNewestFirst(data[0], SortNewestFirst(data[1..]));
    }
  }

  lemma {:induction false} InsertIsStable(x: FeedProject, sorted: seq<FeedProject>, d: int)
    requires x.startDate.Some?
    requires NewestFirst(sorted)
    ensures StartingAt(Insert(x, sorted), d) == StartingAt([x] + sorted, d)
  {
    assert ([x] + sorted)[1..] == sorted;
    if sorted != [] && Compare(x, sorted[0]) > 0 {
      var tail := sorted[1..];
      assert ([sorted[0]] + Insert(x, tail))[1..] == Insert(x, tail);
      assert ([x] + tail)[1..] == tail;
      assert sorted == [sorted[0]] + tail;
      InsertIsStable(x, tail, d);
    }
  }

  /**
   * Stability: when every start date parses, the projects sharing any one
   * start date appear in the loaded list in the order they were fetched.
   */
  lemma {:induction false} SortIsStable(data: seq<FeedProject>, d: int)
    requires Dated(data)
    ensures StartingAt(SortNewestFirst(data), d) == StartingAt(data, d)
  {
    if data != [] {
      var rest := SortNewestFirst(data[1..]);
      SortIsStable(data[1..], d);
      SortIsNewestFirst(data[1..]);
      InsertIsStable(data[0], rest, d);
      assert ([data[0]] + rest)[1..] == rest;
    }
  }

  // ---------------------------------------------------------------------------
  // The like toggle on one project and on the list
  // ---------------------------------------------------------------------------

  /** `likes.filter(like => like.hackerId !== userInfo?.id)`. */
  function WithoutLikesOf(likes: seq<Like>, viewerId: Option<string>): (r: seq<Like>)
    ensures forall l :: l in r <==> l in likes && Some(l.hackerId) != viewerId
    ensures |r| <= |likes|
  {
    if likes == [] then []
    else (if Some(likes[0].hackerId) != viewerId then [likes[0]] else []) + WithoutLikesOf(likes[1..], viewerId)
  }

  /** The new likes of the target project: drop the viewer's entries, or append one entry for them. */
  function ToggledLikes(likes: seq<Like>, viewerId: Option<string>, isLiked: bool, now: string): (r: seq<Like>)
    ensures isLiked ==> !IsLiked(r, viewerId)
    ensures isLiked ==> forall l :: l in r <==> l in likes && Some(l.hackerId) != viewerId
    ensures !isLiked ==> |r| == |likes| + 1 && r[..|likes|] == likes
    ensures !isLiked ==> r[|likes|] == Like(if viewerId.Some? then viewerId.value else "", now)
  {
    if isLiked then WithoutLikesOf(likes, viewerId)
    else likes + [Like(viewerId.GetOr(""), now)]
  }

  /** The unlike filter keeps the remaining entries in their order: it distributes over concatenation. */
  lemma {:induction false} WithoutLikesOfAppend(a: seq<Like>, b: seq<Like>, viewerId: Option<string>)
    ensures WithoutLikesOf(a + b, viewerId) == WithoutLikesOf(a, viewerId) + WithoutLikesOf(b, viewerId)
  {
    if a != [] {
      var head := if Some(a[0].hackerId) != viewerId then [a[0]] else [];
      assert (a + b)[0] == a[0];
      assert (a + b)[1..] == a[1..] + b;
      WithoutLikesOfAppend(a[1..], b, viewerId);
      assert WithoutLikesOf(a + b, viewerId) == head + (WithoutLikesOf(a[1..], viewerId) + WithoutLikesOf(b, viewerId));
    } else {
      assert a + b == b;
    }
  }

  /** The unlike filter keeps every other entry as often as it occurs, and no entry of the viewer. */
  lemma {:induction false} WithoutLikesOfCounts(likes: seq<Like>, viewerId: Option<string>, l: Like)
    ensures multiset(WithoutLikesOf(likes, viewerId))[l]
            == if Some(l.hackerId) != viewerId then multiset(likes)[l] else 0
  {
    if likes != [] {
      WithoutLikesOfCounts(likes[1..], viewerId, l);
      assert likes == [likes[0]] + likes[1..];
    }
  }

  /** Unliking where the viewer has no entry changes nothing. */
  lemma {:induction false} WithoutLikesOfNotLiked(likes: seq<Like>, viewerId: Option<string>)
    requires !IsLiked(likes, viewerId)
    ensures WithoutLikesOf(likes, viewerId) == likes
  {
    if likes != [] {
      assert !IsLiked(likes[1..], viewerId);
      WithoutLikesOfNotLiked(likes[1..], viewerId);
      assert likes == [likes[0]] + likes[1..];
    }
  }

  /** Round trip: on a project the viewer has not liked, like then unlike restores the likes exactly. */
  lemma LikeThenUnlikeRestores(likes: seq<Like>, viewerId: string, now: string, later: string)
    requires !LikedBy(likes, viewerId)
    ensures ToggledLikes(ToggledLikes(likes, Some(viewerId), false, now), Some(viewerId), true, later) == likes
  {
    var added := Like(viewerId, now);
    WithoutLikesOfAppend(likes, [added], Some(viewerId));
    WithoutLikesOfNotLiked(likes, Some(viewerId));
    assert WithoutLikesOf([added], Some(viewerId)) == [];
  }

  /** No hacker has two entries. */
  predicate DistinctLikers(likes: seq<Like>) {
    forall i, j :: 0 <= i < j < |likes| ==> likes[i].hackerId != likes[j].hackerId
  }

  lemma {:induction false} WithoutLikesOfKeepsDistinct(likes: seq<Like>, viewerId: Option<string>)
    requires DistinctLikers(likes)
    ensures DistinctLikers(WithoutLikesOf(likes, viewerId))
  {
    if likes != [] {
      var rest := WithoutLikesOf(likes[1..], viewerId);
      WithoutLikesOfKeepsDistinct(likes[1..], viewerId);
      forall l | l in rest ensures l.hackerId != likes[0].hackerId {
        assert l in likes[1..];
      }
    }
  }

  /**
   * When `isLiked` is computed as the card computes it, a signed-in viewer's
   * click flips the liked state and never creates a second entry for anyone.
   */
  lemma ToggleFromCardKeepsOneLikePerHacker(likes: seq<Like>, viewerId: string, now: string)
    requires DistinctLikers(likes)
    ensures var r := ToggledLikes(likes, Some(viewerId), IsLiked(likes, Some(viewerId)), now);
      && DistinctLikers(r)
      && IsLiked(r, Some(viewerId)) == !IsLiked(likes, Some(viewerId))
  {
    var r := ToggledLikes(likes, Some(viewerId), IsLiked(likes, Some(viewerId)), now);
    if IsLiked(likes, Some(viewerId)) {
      WithoutLikesOfKeepsDistinct(likes, Some(viewerId));
    } else {
      assert r[|likes|].hackerId == viewerId;
    }
  }

  /**
   * As written, a click while signed in but with no viewer id always appends
   * an entry with hacker id "": the card's `isLiked` is then always false, so
   * two such clicks leave two entries for "".
   */
  lemma AnonymousClicksDuplicate(likes: seq<Like>, now: string, later: string)
    ensures var once := ToggledLikes(likes, None, IsLiked(likes, None), now);
      var twice := ToggledLikes(once, None, IsLiked(once, None), later);
      && twice == likes + [Like("", now), Like("", later)]
      && !DistinctLikers(twice)
  {
    var twice := likes + [Like("", now), Like("", later)];
    assert twice[|likes|].hackerId == twice[|likes| + 1].hackerId;
  }

  /** `projects.map(...)`: the projects whose id matches get toggled likes; every other one is returned as is. */
  function ApplyLike(projects: seq<FeedProject>, projectId: string, viewerId: Option<string>, isLiked: bool, now: string)
    : (r: seq<FeedProject>)
    ensures |r| == |projects|
    ensures forall i :: 0 <= i < |r| ==>
              r[i] == if projects[i].id == projectId
                      then projects[i].(likes := ToggledLikes(projects[i].likes, viewerId, isLiked, now))
                      else projects[i]
  {
    if projects == [] then []
    else
      var p := projects[0];
      var rest := ApplyLike(projects[1..], projectId, viewerId, isLiked, now);
      [if p.id == projectId then p.(likes := ToggledLikes(p.likes, viewerId, isLiked, now)) else p] + rest
  }

  /** Only the target changes: order, ids and every field but `likes` are kept; an unknown id changes nothing. */
  lemma ApplyLikeOnlyTouchesTarget(projects: seq<FeedProject>, projectId: string, viewerId: Option<string>, isLiked: bool, now: string)
    ensures var r := ApplyLike(projects, projectId, viewerId, isLiked, now);
      && (forall i :: 0 <= i < |r| ==> r[i].id == projects[i].id && r[i] == projects[i].(likes := r[i].likes))
      && ((forall i :: 0 <= i < |projects| ==> projects[i].id != projectId) ==> r == projects)
  {
  }

  /** Every project has at most one like entry per hacker. */
  predicate OneLikePerHacker(projects: seq<FeedProject>) {
    forall i :: 0 <= i < |projects| ==> DistinctLikers(projects[i].likes)
  }

  /** The card's `isLiked` for a viewer, agreed on by every project carrying `projectId`. */
  predicate LikedAsCardShows(projects: seq<FeedProject>, projectId: string, viewerId: Option<string>, isLiked: bool) {
    forall i :: 0 <= i < |projects| && projects[i].id == projectId ==> isLiked == IsLiked(projects[i].likes, viewerId)
  }

  /** The list-level invariant: a signed-in viewer's like toggle, fed by the card, keeps one entry per hacker. */
  lemma ApplyLikeKeepsOneLikePerHacker(projects: seq<FeedProject>, projectId: string, viewerId: string, isLiked: bool, now: string)
    requires OneLikePerHacker(projects)
    requires LikedAsCardShows(projects, projectId, Some(viewerId), isLiked)
    ensures OneLikePerHacker(ApplyLike(projects, projectId, Some(viewerId), isLiked, now))
  {
    var r := ApplyLike(projects, projectId, Some(viewerId), isLiked, now);
    forall i | 0 <= i < |r| ensures DistinctLikers(r[i].likes) {
      if projects[i].id == projectId {
        ToggleFromCardKeepsOneLikePerHacker(projects[i].likes, viewerId, now);
      }
    }
  }

  // ---------------------------------------------------------------------------
  // The grid component
  // ---------------------------------------------------------------------------

  const SignInMessage := "Please sign in to like projects"
  const LikeFailedMessage := "Failed to like project"

  /** How the fetch of the approved projects ended. */
  datatype FetchOutcome =
    | Fetched(data: seq<FeedProject>)
    | HttpError
    | Failed

  /** How the like request ended: a response (ok or not), or a thrown error. */
  datatype LikeOutcome = Responded(ok: bool) | Threw

  datatype HttpMethod = Post | Delete

  datatype LikeRequest = LikeRequest(projectId: string, verb: HttpMethod)

  /** What the grid renders: the spinner, or the cards and whether "No projects found" shows. */
  datatype Screen = Spinner | Feed(cards: seq<FeedProject>, noProjectsMessage: bool)

  /** The list a fetch leaves in `projects`. */
  function Loaded(outcome: FetchOutcome): (r: seq<FeedProject>)
    ensures outcome.Fetched? ==> multiset(r) == multiset(outcome.data)
    ensures !outcome.Fetched? ==> r == []
  {
    if outcome.Fetched? then SortNewestFirst(outcome.data) else []
  }

  class FeedGridState {
    var projects: seq<FeedProject>
    var filteredProjects: seq<FeedProject>
    var loading: bool
    /** the error toasts raised, oldest first */
    var toasts: seq<string>
    /** the like requests sent, oldest first */
    var requests: seq<LikeRequest>

    constructor ()
      ensures projects == [] && filteredProjects == [] && loading
      ensures toasts == [] && requests == []
    {
      projects := [];
      filteredProjects := [];
      loading := true;
      toasts := [];
      requests := [];
    }

    /** `fetchProjects`: sort a copy on success, empty list on any failure, then stop loading. */
    method FetchProjects(outcome: FetchOutcome)
      modifies this`projects, this`loading
      ensures projects == Loaded(outcome)
      ensures !loading
    {
      match outcome {
        case Fetched(data) =>
          projects := SortNewestFirst(data);
        case _ =>
          projects := [];
      }
      loading := false;
    }

    /** The effect that runs when `projects` changes: copy it over unless it is empty. */
    method SyncFilteredProjects()
      modifies this`filteredProjects
      ensures filteredProjects == if |projects| > 0 then projects else old(filteredProjects)
    {
      if |projects| > 0 {
        filteredProjects := projects;
      }
    }

    /** The callback the search box calls with its own result; the search itself is not modelled. */
    method SetFilteredProjects(result: seq<FeedProject>)
      modifies this`filteredProjects
      ensures filteredProjects == result
    {
      filteredProjects := result;
    }

    /**
     * `handleLike`: with no signed-in user, one sign-in toast and nothing
     * else; otherwise one POST (like) or DELETE (unlike) request, after which
     * only an ok response updates the list and only a thrown error raises a
     * toast.
     */
    method HandleLike(signedIn: bool, viewerId: Option<string>, projectId: string, isLiked: bool,
                      outcome: LikeOutcome, now: string)
      modifies this`projects, this`toasts, this`requests
      ensures !signedIn ==>
                && projects == old(projects)
                && toasts == old(toasts) + [SignInMessage]
                && requests == old(requests)
      ensures signedIn ==>
                requests == old(requests) + [LikeRequest(projectId, if isLiked then Delete else Post)]
      ensures signedIn && outcome == Responded(true) ==>
                projects == ApplyLike(old(projects), projectId, viewerId, isLiked, now) && toasts == old(toasts)
      ensures signedIn && outcome == Responded(false) ==>
                projects == old(projects) && toasts == old(toasts)
      ensures signedIn && outcome == Threw ==>
                projects == old(projects) && toasts == old(toasts) + [LikeFailedMessage]
      ensures viewerId.Some? && OneLikePerHacker(old(projects))
              && LikedAsCardShows(old(projects), projectId, viewerId, isLiked) ==>
                OneLikePerHacker(projects)
    {
      if !signedIn {
        toasts := toasts + [SignInMessage];
        return;
      }
      requests := requests + [LikeRequest(projectId, if isLiked then Delete else Post)];
      match outcome
      case Responded(ok) =>
        if ok {
          if viewerId.Some? && OneLikePerHacker(projects) && LikedAsCardShows(projects, projectId, viewerId, isLiked) {
            ApplyLikeKeepsOneLikePerHacker(projects, projectId, viewerId.value, isLiked, now);
          }
          projects := ApplyLike(projects, projectId, viewerId, isLiked, now);
        }
      case Threw =>
        toasts := toasts + [LikeFailedMessage];
    }

    /** The spinner while loading; afterwards the filtered cards, with "No projects found" iff there are none. */
    function CurrentScreen(): (r: Screen)
      reads this
      ensures r.Spinner? <==> loading
      ensures r.Feed? ==> r.cards == filteredProjects && (r.noProjectsMessage <==> |filteredProjects| == 0)
    {
      if loading then Spinner else Feed(filteredProjects, |filteredProjects| == 0)
    }
  }

  /**
   * Mounting the grid: the fetch settles, then the sync effect runs. The
   * feed shows the loaded list (a permutation of the fetched data, empty on
   * failure), "No projects found" iff that list is empty, and no toast.
   */
  method MountAndLoad(outcome: FetchOutcome) returns (screen: Screen, toastCount: nat)
    ensures screen.Feed?
    ensures screen.cards == Loaded(outcome)
    ensures screen.noProjectsMessage <==> Loaded(outcome) == []
    ensures !outcome.Fetched? ==> screen == Feed([], true)
    ensures toastCount == 0
  {
    var grid := new FeedGridState();
    grid.FetchProjects(outcome);
    grid.SyncFilteredProjects();
    screen := grid.CurrentScreen();
    toastCount := |grid.toasts|;
  }
}
