# Project feed: list logic, like toggle, card view-model and URL filters

A Dafny model of the feed of approved projects in the site's `/feeds` page. It covers three source files:

- **FeedGrid** (`src/app/components/FeedGrid.tsx`). The grid component holds three pieces of state:
  - `projects`, the loaded list;
  - `filteredProjects`, the list shown;
  - `loading`, set until the first fetch settles.

  It fetches the approved projects and sorts a copy of them newest-first by start date. An unparsable date compares as equal to any other. Any failure leaves `projects` empty. The grid also toggles likes: a signed-in viewer's click sends a POST (like) or DELETE (unlike) request. Only an ok response updates the list. The target project's likes either lose every entry of the viewer or gain one entry at the end. The model has a class, `FeedGridState`, with these fields. It adds two logs: the error toasts raised and the like requests sent. The comparator, the sort and the list update are pure functions.
- **FeedCard** (`src/app/components/FeedCard.tsx`). This file holds the `FeedProject` record and a pure function `View` that lists the facts a card displays:
  - whether the heart is filled (`isLiked`) and the like count;
  - the description, cut at 220 characters unless the card is expanded;
  - at most three technology tags and a "+N" badge;
  - the launch lead and at most two participants;
  - the thumbnail, or a default chosen by the theme;
  - the GitHub and Demo links, shown only for non-empty URLs, then Details and Share.

  The card's own flags (`isExpanded`, `showShareModal`) are a small class, `CardState`.
- **FeedsPage** (`src/app/feeds/page.tsx`). The page builds the filter record from the query string. It uses the `get` and `getAll` operations of URLSearchParams (section 6.2 of the WHATWG URL Standard) over a list of name/value pairs. Missing values default to `""`. The sort mode defaults to `"trending"`.

Files: `Wrappers.dfy` (Option), `FeedCard.dfy`, `FeedGrid.dfy`, `FeedsPage.dfy`.

### Behaviour of the code worth knowing

- The list changes only after the like request gets an ok response. A response that is not ok changes nothing and raises no toast. Only a thrown error raises "Failed to like project", and the list then stays as it was.
- A failed load raises no toast. The code only logs the error and leaves the list empty.
- Equal start dates keep their fetched order, because `Array.prototype.sort` is stable (ECMAScript requires it since the 2019 edition). No other field breaks ties.
- The grid does no filtering of its own. A search component, which is not part of this model, hands back the list to show.
- The page's default sort mode is `"trending"`.
- The toggle does not check for an existing entry itself. It relies on the `isLiked` flag the card computes. With that flag, a viewer who has an id never gets two entries (`ApplyLikeKeepsOneLikePerHacker`). The sign-in check tests the session user, while the entry uses the separate profile id. So a viewer who is signed in but has no profile id yet sees an empty heart on every click. Each click whose request succeeds then appends another entry for `""` (`AnonymousClicksDuplicate`).

## Model

| member | source | states |
|---|---|---|
| `FeedCard.IsLiked` | src/app/components/FeedCard.tsx:215-221 | the heart is filled iff some like's hacker id equals the viewer id; false when there is no viewer |
| `FeedCard.View` | src/app/components/FeedCard.tsx:210-227 | the card's liked flag is true iff the viewer has a like entry, never with no viewer; the count shown is the number of likes; the card carries the project id for the like click |
| `FeedCard.DescriptionOf` | src/app/components/FeedCard.tsx:237-276 | the text shown is a prefix of the description, of length min(220, n) when collapsed and n when expanded; "..." and "more" iff collapsed and n > 220; "show less" iff expanded |
| `FeedCard.ShortDescriptionShownWhole` | src/app/components/FeedCard.tsx:254-257 | a description of at most 220 characters, or any expanded one, is shown whole with no "more" |
| `FeedCard.TagStripOf` | src/app/components/FeedCard.tsx:184-204 | the tags shown are the first min(3, n) in order; a "+k" badge iff n > 3, with shown + k = n |
| `FeedCard.TeamAvatars` | src/app/components/FeedCard.tsx:103-160 | the launch lead always comes first, then the first min(2, n) participants in order |
| `FeedCard.ThumbnailSource` | src/app/components/FeedCard.tsx:283-288 | the thumbnail URL when present and non-empty, otherwise the dark or light default by theme; never empty |
| `FeedCard.ActionsOf` | src/app/components/FeedCard.tsx:297-351 | a GitHub or Demo link iff its URL is present and non-empty, pointing at that URL; GitHub before Demo, nothing else besides; Details (to the project page) and Share always present, last |
| `FeedCard.CardState.constructor` | src/app/components/FeedCard.tsx:88-89 | a card starts collapsed with the share modal closed |
| `FeedCard.CardState.ShowMore` | src/app/components/FeedCard.tsx:260-264 | "more" sets the expanded flag |
| `FeedCard.CardState.ShowLess` | src/app/components/FeedCard.tsx:240-244 | "show less" clears the expanded flag |
| `FeedCard.CardState.SetShowShareModal` | src/app/components/FeedCard.tsx:340-356 | the Share button opens the modal; the modal closes it through the same setter |
| `FeedCard.CardState.Render` | src/app/components/FeedCard.tsx:237-239 | an expanded card shows the whole description and "show less"; a collapsed one does not |
| `FeedGrid.Compare` | src/app/components/FeedGrid.tsx:51-55 | a project goes first (negative) iff both dates parse and it is newer; an unparsable date on either side compares equal |
| `FeedGrid.Insert` | src/app/components/FeedGrid.tsx:51-55 | one insertion step of the sort adds exactly the inserted project to the list's multiset |
| `FeedGrid.SortNewestFirst` | src/app/components/FeedGrid.tsx:51-55 | the sorted copy is a permutation of the fetched list (same multiset, same length) |
| `FeedGrid.SortIsNewestFirst` | src/app/components/FeedGrid.tsx:50-55 | when every start date parses, the loaded list is in non-increasing start-date order |
| `FeedGrid.SortIsStable` | src/app/components/FeedGrid.tsx:51-55 | when every start date parses, projects with equal start dates keep their fetched order |
| `FeedGrid.Loaded` | src/app/components/FeedGrid.tsx:48-60 | a successful fetch leaves a permutation of the data; a non-ok response or a thrown error leaves the empty list |
| `FeedGrid.WithoutLikesOf` | src/app/components/FeedGrid.tsx:92-94 | the unlike filter keeps exactly the entries whose hacker id differs from the viewer id |
| `FeedGrid.WithoutLikesOfCounts` | src/app/components/FeedGrid.tsx:92-94 | every entry of another hacker is kept as often as it occurs; no entry of the viewer is kept |
| `FeedGrid.WithoutLikesOfAppend` | src/app/components/FeedGrid.tsx:92-94 | the filter distributes over concatenation, so the remaining entries keep their order |
| `FeedGrid.ToggledLikes` | src/app/components/FeedGrid.tsx:91-101 | unlike: the viewer has no entry left and exactly the other entries remain; like: the old likes stay as a prefix and exactly one entry is appended, with the viewer id or "" when there is none |
| `FeedGrid.WithoutLikesOfNotLiked` | src/app/components/FeedGrid.tsx:92-94 | unliking where the viewer has no entry leaves the likes unchanged |
| `FeedGrid.LikeThenUnlikeRestores` | src/app/components/FeedGrid.tsx:91-101 | on likes with no entry for the viewer, a like followed by an unlike restores the likes exactly |
| `FeedGrid.ToggleFromCardKeepsOneLikePerHacker` | src/app/components/FeedGrid.tsx:91-101 | with `isLiked` computed as the card computes it, a viewer's click flips the liked state and keeps at most one entry per hacker |
| `FeedGrid.AnonymousClicksDuplicate` | src/app/components/FeedGrid.tsx:95-101 | with no viewer id, two clicks append two "" entries, breaking one-entry-per-hacker |
| `FeedGrid.ApplyLike` | src/app/components/FeedGrid.tsx:86-106 | the list keeps its length and order; projects with the target id get the toggled likes and every other project is unchanged |
| `FeedGrid.ApplyLikeOnlyTouchesTarget` | src/app/components/FeedGrid.tsx:87-105 | only `likes` of a project can change, ids keep their positions, and an unknown id leaves the list unchanged |
| `FeedGrid.ApplyLikeKeepsOneLikePerHacker` | src/app/components/FeedGrid.tsx:86-106 | fed by the card's `isLiked`, the list update keeps every project at one entry per hacker |
| `FeedGrid.FeedGridState.constructor` | src/app/components/FeedGrid.tsx:27-29 | the grid starts loading, with empty project lists, no toasts and no requests |
| `FeedGrid.FeedGridState.FetchProjects` | src/app/components/FeedGrid.tsx:40-64 | `projects` becomes the sorted copy on success and [] on any failure; `loading` is cleared in every case |
| `FeedGrid.FeedGridState.SyncFilteredProjects` | src/app/components/FeedGrid.tsx:33-37 | `filteredProjects` takes `projects` only when it is non-empty |
| `FeedGrid.FeedGridState.SetFilteredProjects` | src/app/components/FeedGrid.tsx:130-135 | the search component's result replaces the shown list |
| `FeedGrid.FeedGridState.HandleLike` | src/app/components/FeedGrid.tsx:69-112 | no user: one sign-in toast, no request, list unchanged; otherwise one POST/DELETE request, then ok updates the list, not-ok changes nothing, a thrown error leaves the list unchanged and raises one failure toast; one-entry-per-hacker is kept |
| `FeedGrid.FeedGridState.CurrentScreen` | src/app/components/FeedGrid.tsx:114-163 | the spinner iff loading; otherwise the shown list, with "No projects found" iff it is empty |
| `FeedGrid.MountAndLoad` | src/app/components/FeedGrid.tsx:33-67 | after mount, fetch and sync: the feed shows the loaded list, "No projects found" iff it is empty (always on failure), and no toast is raised |
| `FeedsPage.GetAll` | src/app/feeds/page.tsx:13-18 | `getAll` returns exactly the values paired with the name |
| `FeedsPage.Get` | src/app/feeds/page.tsx:15-19 | `get` is null iff no pair has the name; otherwise it is the value of the first such pair |
| `FeedsPage.GetAllCounts` | src/app/feeds/page.tsx:13-18 | `getAll` lists each value as many times as it is paired with the name |
| `FeedsPage.GetIsFirstOfGetAll` | src/app/feeds/page.tsx:13-19 | `get` is the head of `getAll`, or null when `getAll` is empty |
| `FeedsPage.GetAllAppend` | src/app/feeds/page.tsx:13-18 | `getAll` over concatenated queries concatenates the value lists, so order of appearance is kept |
| `FeedsPage.OrElse` | src/app/feeds/page.tsx:15-19 | JavaScript's `or` on a string-or-null yields the value when it is non-empty, the fallback for null or "" |
| `FeedsPage.ExtractUrlFilters` | src/app/feeds/page.tsx:12-20 | the tag and status lists hold exactly the values of their keys; search, from_date and to_date are the first value of their key, or "" when it is absent or empty; sort is the first `sort` value, or "trending" when it is absent or empty, so never empty |
| `FeedsPage.FirstValueWins` | src/app/feeds/page.tsx:15-19 | a later pair for a key already present does not change `get` |
| `FeedsPage.AbsentKeyDefaults` | src/app/feeds/page.tsx:15-19 | with no pair for `search`, `from_date` or `to_date` the field is ""; with none for `sort` it is "trending" |
| `FeedsPage.AppendedValueIsListedLast` | src/app/feeds/page.tsx:13-18 | one more `tech_tag`, `domain_tag` or `status` pair appends its value at the end of that list |
| `FeedsPage.OtherKeysIgnored` | src/app/feeds/page.tsx:12-20 | a pair under any name other than the seven read ones, inserted anywhere, leaves the filters unchanged |

## Left out

- Filtering. The search component that filters the list is not part of this model. `SetFilteredProjects` accepts whatever list that component hands back.
- I/O and foreign calls:
  - the two `fetch` calls become parameters that give their outcome: a fetched list, a non-ok status, or a thrown error;
  - `response.json()` failing is folded into the thrown-error case;
  - toasts and the sent requests become logs on the grid;
  - `console.error` is dropped;
  - the session user and the profile id become parameters (`signedIn`, `viewerId`);
  - the theme becomes a boolean.
- Date parsing. `startDate` is the parsed time in milliseconds, or None when JavaScript's `getTime()` gives NaN. The like timestamp is an opaque string parameter. `toLocaleDateString` is not modelled.
- SortNewestFirst: when some start date does not parse, the comparator is not a consistent order. ECMA-262 then leaves the sort order to the implementation. The model fixes one stable insertion order and claims only that the result is a permutation.
- Async interleaving. The model has no React effect scheduling. The sync effect is a separate step (`SyncFilteredProjects`) that the caller runs after `projects` changes. `handleLike` captures `projects` when the card renders; the model applies the update to the current list.
- String lengths. The 220-character cut counts Dafny characters, not JavaScript's UTF-16 code units.
- `swapFirstLetters` is not part of this model. A participant without an avatar shows a monogram that keeps the participant's name.
- Presentation: markup, class names, colours, `Image`/`Link`, the spinner, list keys and the `ShareModal` contents. Only the facts listed in the model table are kept.
