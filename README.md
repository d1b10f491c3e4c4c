# ReactFlux content-list state, modelled in Dafny

ReactFlux is a web client for a feed-aggregation server. This project models
the part of it that keeps the article lists in the client-side stores
consistent with the server, together with the handlers that write those stores:

- **Content panel** (`content.dfy`, module `Content`). It refreshes the
  "all" and "unread" lists from a pair of server pages. In the `history`
  context one response serves both lists. It opens an entry by showing a
  read copy, marking the entry read, and rolling the status back when the
  update request fails. It also dispatches keys while the article view is
  focused.
- **Footer panel** (`footer_panel.dfy`, module `FooterPanel`). It marks every
  loaded entry read and zeroes the unread count, and only does so after
  both remote steps succeed. It changes the status filter, which resets the
  text filter. It also decides when the mark-all button is shown and when
  the status radio is disabled.
- **Search-and-sort bar** (`search_and_sort_bar.dfy`, module
  `SearchAndSortBar`). It holds the search text and its debounced copy in
  the store, the filter-type selector, and the sort-direction toggle.
- **Feed list** (`feed_list.dfy`, module `FeedList`). It covers the table
  rows, unfollowing a feed, editing one, the title search, and the edit
  modal.
- **Stores** (`stores.dfy`, module `Stores`). The content store
  (`contentState`) and the settings store are classes whose setters are
  field assignments. `ContentStore.Value()` returns the whole store as a
  `ContentValue`.

Each handler is a method on a class that stands for its component. The
remote calls are parameters. A request's outcome is a `Reply` (rejected, or
resolved with a body that may be undefined), a success flag, or an
`EditOutcome`. The requests a handler makes, in order, are appended to that
component's `calls` log: `getEntries` with its arguments, `fetchData`,
`updateEntriesStatus`, `markAllAsRead`, `deleteFeed`, `editFeed`, key-hook
invocations, and "scroll the list to the top".

Timers become explicit steps. The 200 ms delay of `handleEntryClick` splits
it into `BeginEntryClick` and `FinishEntryClick`. The 500 ms debounce is
`FlushDebounce`. An effect becomes a method named after what triggers it.

The non-trivial transitions are pure functions on `ContentValue`:
`AfterResponses`, `AfterFetch`, `AfterRefresh` and `AfterMarkAll`. Each
method's contract equates the new store with one of them, and the
properties are proved about the functions. The invariants
`AllPagingConsistent` and `UnreadPagingConsistent` say that a "load more"
flag agrees with its list length and server total. A successful merge
establishes both. Refresh and entry opening preserve both. Mark-all
preserves only the first: it sets `unreadCount` to 0 but leaves
`loadMoreUnreadVisible` as it was.

Behaviour of the code worth noting:

- Mark-all is not optimistic. Its store writes run only after
  `markAllAsRead` and `fetchData` have both succeeded, so a failure changes
  nothing and there is nothing to roll back.
- `String.includes` makes the feed search case-sensitive.
- `handleEditFeed` clears its spinner and resets the form only when
  `editFeed` resolves. When the request rejects, the handler stops at the
  await: the spinner stays on, the modal stays open and the form keeps its
  values.
- `handleResponses` also changes nothing when the unread body passes the
  guard but has no `entries`. Projecting that page throws, and
  `getArticleList` catches the error.

## Model

| member | source | states |
|---|---|---|
| `Content.AfterResponses` | src/components/Content/Content.jsx:144-159 | the lists are updated exactly when the "all" body has entries and the unread total is present and ≥ 0 (and the unread page has entries); then `entries`/`unreadEntries` are the server pages as received, `total`/`unreadCount` the two server totals, both load-more flags agree with `<` against the totals, and no other store field changes; otherwise the store is unchanged |
| `Content.AfterFetch` | src/components/Content/Content.jsx:161-180 | `loading` ends false whatever happens; a rejected request leaves the lists untouched; in `history` the one response feeds both lists, so `unreadEntries == entries`, `total == unreadCount` and both flags agree; both paging invariants are preserved |
| `Content.AfterRefresh` | src/components/Content/Content.jsx:182-193 | both offsets end 0; when the app data is not ready nothing else changes; when it is ready the store is exactly `AfterFetch` of the reset store, so the server pages are merged as `getArticleList` does and `loading` ends false; paging invariants preserved |
| `Content.RefreshCalls` | src/components/Content/Content.jsx:182-193 | scroll-to-top is requested iff the list is mounted, and then once and first; exactly one or two further requests follow; `fetchData` is called iff the app data is not ready, and then no article page is requested; the unread page at offset 0 with status "unread" is requested iff ready and not in `history` |
| `Content.WithStatus` | src/components/Content/Content.jsx:82-89 | status update of an entry: same length, every copy with that id takes the new status, every other entry unchanged |
| `Content.StatusRollback` | src/components/Content/Content.jsx:80-91 | marking an unread entry read and then back unread restores the list exactly |
| `Content.WithStatusSets` | src/components/Content/Content.jsx:82 | after the update every copy of the id has the new status and ids keep their positions |
| `Content.Dispatch` | src/components/Content/Content.jsx:109-131 | a handler runs iff the key is one of ArrowLeft, ArrowRight, Escape, b, d, m, s, v; each key is pinned to its handler: the arrows to previous/next navigation with the Ctrl flag, Escape to exit the detail view, b/d/v to open the link, fetch the original and open the photo slider, m/s to toggle read/star status of the active entry |
| `Content.CtrlOnlyForArrows` | src/components/Content/Content.jsx:122-129 | only the arrow keys depend on the Ctrl key |
| `Content.ContentView.constructor` | src/components/Content/Content.jsx:33-46 | the component starts with the first render not completed and no requests made |
| `Content.ContentView.UpdateUI` | src/components/Content/Content.jsx:144-151 | the six store writes of `updateUI`; afterwards both paging invariants hold |
| `Content.ContentView.HandleResponses` | src/components/Content/Content.jsx:153-159 | the store becomes `AfterResponses` of the two bodies; reports the TypeError raised by an unread body without entries |
| `Content.ContentView.GetArticleList` | src/components/Content/Content.jsx:161-180 | issues `getEntries()` (and `getEntries(0, "unread")` outside `history`) and leaves the store as `AfterFetch` says |
| `Content.ContentView.RefreshArticleList` | src/components/Content/Content.jsx:182-193 | makes the requests `RefreshCalls` lists and leaves the store as `AfterRefresh` says |
| `Content.ContentView.OnOrderByChange` | src/components/Content/Content.jsx:55-60 | an `orderBy` change before the first render completes or in `history` changes nothing and requests nothing; otherwise it refreshes |
| `Content.ContentView.OnInfoOrDirectionChange` | src/components/Content/Content.jsx:63-66 | a new context or sort direction records the context in the store and refreshes |
| `Content.ContentView.OnMount` | src/components/Content/Content.jsx:196-200 | a leftover active entry is cleared on mount |
| `Content.ContentView.OnAppDataReadyChange` | src/components/Content/Content.jsx:203-213 | while the app data is not ready: fetch the article list, mark the first render completed and focus the article view; otherwise nothing changes |
| `Content.ContentView.HandleEntryStatusUpdate` | src/components/Content/Content.jsx:82-89 | every loaded copy of the entry, in both lists, takes the given status |
| `Content.ContentView.BeginEntryClick` | src/components/Content/Content.jsx:68-70 | opening an entry first clears the active entry |
| `Content.ContentView.FinishEntryClick` | src/components/Content/Content.jsx:72-92 | the active entry becomes a copy with status "read"; only an unread entry is marked read and triggers `updateEntriesStatus([id], "read")`; a failed update rolls the status back to "unread", which restores both lists when every copy was unread, and rejects; paging invariants preserved |
| `Content.ContentView.HandleKeyDown` | src/components/Content/Content.jsx:120-141 | a key runs its handler only while the article view is focused and only when `Dispatch` finds one |
| `FooterPanel.MarkedRead` | src/components/Content/FooterPanel.jsx:26-31 | same length and order, every entry has status "read", every other field unchanged |
| `FooterPanel.MarkedReadFixesAllRead` | src/components/Content/FooterPanel.jsx:26-31 | rewriting a list that is already all read changes nothing |
| `FooterPanel.MarkedReadIdempotent` | src/components/Content/FooterPanel.jsx:26-31 | the rewrite leaves every entry read, and applying it twice equals applying it once |
| `FooterPanel.AfterMarkAll` | src/components/Content/FooterPanel.jsx:26-32 | both lists all read with lengths and other fields kept, `unreadCount` 0, nothing else in the store changes, the "all" paging invariant is preserved |
| `FooterPanel.AfterMarkAllIdempotent` | src/components/Content/FooterPanel.jsx:26-32 | a second successful mark-all leaves the store as the first did |
| `FooterPanel.FooterPanel.constructor` | src/components/Content/FooterPanel.jsx:18-19 | the panel starts with no requests made |
| `FooterPanel.FooterPanel.HandleMarkAllAsRead` | src/components/Content/FooterPanel.jsx:22-58 | runs only where the mark-all button is rendered, outside "starred" and "history" (`MarkAllShown`); `markAllAsRead` is always called and `fetchData` only after it succeeds; the store becomes `AfterMarkAll` iff both succeed and is untouched otherwise |
| `FooterPanel.FooterPanel.ResetFilter` | src/components/Content/FooterPanel.jsx:46-50 | the filter type becomes "title" and the filter string "" |
| `FooterPanel.FooterPanel.HandleRadioChange` | src/components/Content/FooterPanel.jsx:39-69 | runs only from the enabled radio, outside "history" (`StatusRadioDisabled`); scroll to top when mounted, `filterStatus` becomes the chosen "all"/"unread", and the text filter is reset exactly when the status changed |
| `SearchAndSortBar.Toggled` | src/components/Article/SearchAndSortBar.jsx:41-44 | "desc" maps to "asc" and every other value to "desc"; the result is always a valid direction different from the input |
| `SearchAndSortBar.ToggleInvolution` | src/components/Article/SearchAndSortBar.jsx:42 | toggling twice from "asc" or "desc" restores it |
| `SearchAndSortBar.SearchAndSortBar.constructor` | src/components/Article/SearchAndSortBar.jsx:27-32 | the search box starts empty with no debounced call pending |
| `SearchAndSortBar.SearchAndSortBar.Mount` | src/components/Article/SearchAndSortBar.jsx:46-49 | on mount the filter type becomes "title" and the filter string "" |
| `SearchAndSortBar.SearchAndSortBar.HandleInputChange` | src/components/Article/SearchAndSortBar.jsx:34-37 | the typed text is shown at once and replaces any pending debounced value |
| `SearchAndSortBar.SearchAndSortBar.FlushDebounce` | src/components/Article/SearchAndSortBar.jsx:29-32 | when the debounce fires, the store receives the last typed text |
| `SearchAndSortBar.SearchAndSortBar.SyncFilterString` | src/components/Article/SearchAndSortBar.jsx:51-56 | the search box shows the stored filter string afterwards |
| `SearchAndSortBar.SearchAndSortBar.SelectFilterType` | src/components/Article/SearchAndSortBar.jsx:67-85 | the stored filter type is the one chosen, one of title, content, author |
| `SearchAndSortBar.SearchAndSortBar.ToggleOrderDirection` | src/components/Article/SearchAndSortBar.jsx:41-44 | the settings store receives the toggled direction |
| `FeedList.TableData` | src/components/Settings/FeedList.js:32-38 | one row per shown feed, in order, keyed by the feed id, with title, url and category copied from the feed |
| `FeedList.WithoutFeed` | src/components/Settings/FeedList.js:102-104 | exactly the feeds with the deleted id are removed: the length drops by their number and a feed stays iff its id differs |
| `FeedList.WithoutFeedAppend` | src/components/Settings/FeedList.js:102-104 | the unfollow filter keeps the relative order of the remaining feeds |
| `FeedList.WithoutFeedRemovesOne` | src/components/Settings/FeedList.js:100-104 | with unique ids, unfollowing a listed feed removes exactly one |
| `FeedList.ReplaceFeed` | src/components/Settings/FeedList.js:123-128 | same length; the feed with the edited id is replaced by the response, every other feed unchanged |
| `FeedList.ReplaceKeepsIds` | src/components/Settings/FeedList.js:123-128 | an update that keeps the id keeps the sequence of ids (the table keys) |
| `FeedList.IncludesFrom` | src/components/Settings/FeedList.js:143 | the recursive substring test agrees with "the text occurs at some position of the title" |
| `FeedList.SearchFeeds` | src/components/Settings/FeedList.js:142-143 | a feed is shown iff it is in the list and its title contains the text (case-sensitive) |
| `FeedList.EmptySearchShowsAll` | src/components/Settings/FeedList.js:142-143 | an empty search shows every feed, in order |
| `FeedList.SearchAppend` | src/components/Settings/FeedList.js:142-143 | the search keeps the relative order of the feeds |
| `FeedList.UnfollowKeepsSearchView` | src/components/Settings/FeedList.js:100-105 | unfollowing commutes with the search, so a list that showed a search still shows that search of the new feeds |
| `FeedList.FeedList.constructor` | src/components/Settings/FeedList.js:19-30 | the modal starts closed and idle, with no feed selected and an empty form |
| `FeedList.FeedList.HandleSelectFeed` | src/components/Settings/FeedList.js:40-48 | the feed is stored, the modal opens, and the form is prefilled with its title, category id and crawler flag |
| `FeedList.FeedList.Unfollow` | src/components/Settings/FeedList.js:99-108 | `deleteFeed(id)` is requested; a truthy response removes the feed from both lists, a falsy one changes nothing; a shown search stays the search of the feeds |
| `FeedList.FeedList.HandleEditFeed` | src/components/Settings/FeedList.js:119-134 | `editFeed` is requested with the spinner on; a truthy response replaces the feed in both lists and closes the modal; a falsy one leaves the lists and the modal; once the request resolves the spinner is off and the form reset |
| `FeedList.FeedList.CancelEdit` | src/components/Settings/FeedList.js:167-170 | cancelling closes the modal and resets the form |
| `FeedList.FeedList.Search` | src/components/Settings/FeedList.js:142-144 | the shown feeds become the search of all feeds; an empty text shows them all |

## Left out

- The HTTP transport in `src/apis/axios.js` is not modelled: headers, authentication, the 401 redirect and the removal of stored credentials. A request is modelled only by how it settled.
- Rendering, `CSSTransition`, `Message` toasts and console logging are not modelled. Scrolling is recorded only as a "scroll to top" request.
- The 200 ms delay, the 500 ms debounce and `Promise.all` are sequential steps. Interleavings of overlapping handlers are not modelled, for example a stale response arriving after a newer refresh.
- `parseFirstImage` is not part of this model. Its projection is taken to be the identity, so pages are stored as received.
- Content.ContentView.HandleEntryStatusUpdate: models only the status rewrite of the loaded lists. Anything else `useEntryActions` does (unread count, starred lists) is not part of this model, because `useEntryActions` lies outside the modelled components.
- Content.ContentView.HandleKeyDown: records which `useKeyHandlers` handler runs and with what arguments. What the handler then does (navigation, toggles, opening links) is not part of this model.
- Keys that a plain JavaScript object inherits, such as "toString", are truthy lookups in `keyMap`: the inherited method is called and changes no store state (some, such as "valueOf", throw); no `useKeyHandlers` handler runs. The model treats them as unhandled keys.
- The internals of `fetchData` and `dataState` are not modelled. `isAppDataReady` is the component's last reading of that store.
- The `filteredEntries` filtering and sorting is not modelled; it lives in store code that is not part of this model. Loading further pages ("load more") lies outside the modelled components as well.
- Response values the model cannot express are left out. A `null` total (JavaScript's `null >= 0` is true) is not modelled, and neither is an `entries` field that is present but not an array.
- The edit form's field validation and its `onSubmit` wiring are not modelled. `HandleEditFeed` takes the submitted id, title, group and crawler flag as parameters.
