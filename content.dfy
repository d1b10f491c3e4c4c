/**
 * The article-list panel (`Content`): refreshing the two entry lists from the
 * server, opening an entry with an optimistic "read" mark and rollback, and
 * the keyboard dispatch of the detail view.
 *
 * The remote calls are inputs: each handler takes the outcome of the request
 * it makes, and the requests it makes are appended to `calls` in order.
 */
module Content {
  import opened Wrappers
  import opened Stores

  /** How one request settled: rejected, or resolved with a body that may be undefined. */
  datatype Reply = Rejected | Resolved(body: Option<Page>)

  /** The arguments of a `getEntries` call: `getEntries()` or `getEntries(0, "unread")`. */
  datatype EntriesQuery = EntriesQuery(offset: Option<int>, status: Option<string>)

  /** The hook handler a key press invokes, with the arguments it is given. */
  datatype KeyAction =
    | PreviousArticle(ctrl: bool)
    | NextArticle(ctrl: bool)
    | ExitDetailView
    | OpenLinkExternally
    | FetchOriginalArticle
    | ToggleReadStatus(target: Option<Entry>)
    | ToggleStarStatus(target: Option<Entry>)
    | OpenPhotoSlider

  /** Everything the panel asks of collaborators outside the content store. */
  datatype Call =
    | ScrollListToTop
    | FetchData
    | GetEntries(query: EntriesQuery)
    | UpdateEntriesStatus(ids: seq<int>, status: string)
    | KeyHandler(action: KeyAction)

  // ---------------------------------------------------------------------
  // List refresh and response merge

  /**
   * Whether `handleResponses` reaches `updateUI`: the guard on the "all"
   * entries and the unread total, and then the unread entries being present
   * (without them the projection of the unread page throws).
   */
  predicate Accepted(all: Option<Page>, unread: Option<Page>)
  {
    && all.Some? && all.value.entries.Some?
    && unread.Some? && unread.value.total.Some? && unread.value.total.value >= 0
    && unread.value.entries.Some?
  }

  /** The store after `handleResponses` on the two response bodies. */
  function AfterResponses(v: ContentValue, all: Option<Page>, unread: Option<Page>): (w: ContentValue)
    ensures Accepted(all, unread) ==>
      && w.entries == all.value.entries.value
      && w.unreadEntries == unread.value.entries.value
      && w.total == all.value.total
      && w.unreadCount == unread.value.total.value
      && AllPagingConsistent(w)
      && UnreadPagingConsistent(w)
    ensures !Accepted(all, unread) ==> w == v
    ensures w.(entries := v.entries, unreadEntries := v.unreadEntries, total := v.total,
               unreadCount := v.unreadCount, loadMoreVisible := v.loadMoreVisible,
               loadMoreUnreadVisible := v.loadMoreUnreadVisible) == v
  {
    if Accepted(all, unread) then
      var articles := all.value.entries.value;
      var articlesUnread := unread.value.entries.value;
      v.(entries := articles, unreadEntries := articlesUnread, total := all.value.total,
         loadMoreVisible := Below(|articles|, all.value.total),
         unreadCount := unread.value.total.value,
         loadMoreUnreadVisible := |articlesUnread| < unread.value.total.value)
    else
      v
  }

  /** The pair of bodies `getArticleList` hands on, or None when a request was rejected. */
  function Responses(history: bool, all: Reply, unread: Reply): (r: Option<(Option<Page>, Option<Page>)>)
  {
    if history then
      if all.Resolved? then Some((all.body, all.body)) else None
    else if all.Resolved? && unread.Resolved? then Some((all.body, unread.body))
    else None
  }

  /** The requests `getArticleList` issues: one in the history context, two otherwise. */
  function ArticleListQueries(history: bool): (cs: seq<Call>)
  {
    if history then [GetEntries(EntriesQuery(None, None))]
    else [GetEntries(EntriesQuery(None, None)), GetEntries(EntriesQuery(Some(0), Some(UnreadStatus)))]
  }

  /** The store after `getArticleList`, given how its requests settled. */
  function AfterFetch(v: ContentValue, history: bool, all: Reply, unread: Reply): (w: ContentValue)
    ensures !w.loading
    ensures all.Rejected? || (!history && unread.Rejected?) ==> w == v.(loading := false)
    ensures history && all.Resolved? ==> w == AfterResponses(v, all.body, all.body).(loading := false)
    ensures !history && all.Resolved? && unread.Resolved? ==>
      w == AfterResponses(v, all.body, unread.body).(loading := false)
    ensures history && all.Resolved? && Accepted(all.body, all.body) ==>
      && w.unreadEntries == w.entries
      && w.total == Some(w.unreadCount)
      && w.loadMoreUnreadVisible == w.loadMoreVisible
    ensures AllPagingConsistent(v) ==> AllPagingConsistent(w)
    ensures UnreadPagingConsistent(v) ==> UnreadPagingConsistent(w)
  {
    match Responses(history, all, unread)
    case None => v.(loading := false)
    case Some(pair) => AfterResponses(v.(loading := true), pair.0, pair.1).(loading := false)
  }

  /** The store after `refreshArticleList`: offsets reset, then the article list if the app data is ready. */
  function AfterRefresh(v: ContentValue, ready: bool, history: bool, all: Reply, unread: Reply): (w: ContentValue)
    ensures w.offset == 0 && w.unreadOffset == 0
    ensures !ready ==> w == v.(offset := 0, unreadOffset := 0)
    ensures ready ==> w == AfterFetch(v.(offset := 0, unreadOffset := 0), history, all, unread)
    ensures ready ==> !w.loading
    ensures ready && (all.Rejected? || (!history && unread.Rejected?)) ==>
      w == v.(offset := 0, unreadOffset := 0, loading := false)
    ensures AllPagingConsistent(v) ==> AllPagingConsistent(w)
    ensures UnreadPagingConsistent(v) ==> UnreadPagingConsistent(w)
  {
    var reset := v.(offset := 0, unreadOffset := 0);
    if ready then AfterFetch(reset, history, all, unread) else reset
  }

  /** The requests `refreshArticleList` makes, in order. */
  function RefreshCalls(listMounted: bool, ready: bool, history: bool): (cs: seq<Call>)
    ensures listMounted <==> |cs| > 0 && cs[0] == ScrollListToTop
    ensures ScrollListToTop in cs <==> listMounted
    ensures |cs| == (if listMounted then 1 else 0) + (if !ready || history then 1 else 2)
    ensures FetchData in cs <==> !ready
    ensures GetEntries(EntriesQuery(None, None)) in cs <==> ready
    ensures GetEntries(EntriesQuery(Some(0), Some(UnreadStatus))) in cs <==> ready && !history
  {
    (if listMounted then [ScrollListToTop] else [])
    + (if ready then ArticleListQueries(history) else [FetchData])
  }

  // ---------------------------------------------------------------------
  // Entry status updates

  /** `handleEntryStatusUpdate`: every loaded copy of the entry takes the new status. */
  function WithStatus(es: seq<Entry>, id: int, status: string): (r: seq<Entry>)
    ensures |r| == |es|
    ensures forall i :: 0 <= i < |es| ==>
      r[i] == if es[i].id == id then es[i].(status := status) else es[i]
  {
    if es == [] then []
    else [if es[0].id == id then es[0].(status := status) else es[0]] + WithStatus(es[1..], id, status)
  }

  /** Every loaded copy of entry `id` has the given status. */
  predicate StatusOfIdIs(es: seq<Entry>, id: int, status: string)
  {
    forall i :: 0 <= i < |es| && es[i].id == id ==> es[i].status == status
  }

  /** Marking an unread entry read and then rolling back restores the list. */
  lemma StatusRollback(es: seq<Entry>, id: int)
    requires StatusOfIdIs(es, id, UnreadStatus)
    ensures WithStatus(WithStatus(es, id, ReadStatus), id, UnreadStatus) == es
  {
  }

  /** After the update, the entry's status is the new one everywhere and the ids keep their places. */
  lemma WithStatusSets(es: seq<Entry>, id: int, status: string)
    ensures StatusOfIdIs(WithStatus(es, id, status), id, status)
    ensures forall i :: 0 <= i < |es| ==> WithStatus(es, id, status)[i].id == es[i].id
  {
  }

  // ---------------------------------------------------------------------
  // Keyboard dispatch

  /**
   * The handler `handleKeyDown` runs for a key: the `keyMap` entry, with the
   * arrow keys given the state of the Ctrl key.
   */
  function Dispatch(key: string, ctrl: bool, active: Option<Entry>): (r: Option<KeyAction>)
    ensures r.Some? <==> key in {"ArrowLeft", "ArrowRight", "Escape", "b", "d", "m", "s", "v"}
    ensures key == "ArrowLeft" ==> r == Some(PreviousArticle(ctrl))
    ensures key == "ArrowRight" ==> r == Some(NextArticle(ctrl))
    ensures key == "Escape" ==> r == Some(ExitDetailView)
    ensures key == "b" ==> r == Some(OpenLinkExternally)
    ensures key == "d" ==> r == Some(FetchOriginalArticle)
    ensures key == "m" ==> r == Some(ToggleReadStatus(active))
    ensures key == "s" ==> r == Some(ToggleStarStatus(active))
    ensures key == "v" ==> r == Some(OpenPhotoSlider)
    ensures r.Some? && (r.value.ToggleReadStatus? || r.value.ToggleStarStatus?) ==> r.value.target == active
  {
    match key
    case "ArrowLeft" => Some(PreviousArticle(ctrl))
    case "ArrowRight" => Some(NextArticle(ctrl))
    case "Escape" => Some(ExitDetailView)
    case "b" => Some(OpenLinkExternally)
    case "d" => Some(FetchOriginalArticle)
    case "m" => Some(ToggleReadStatus(active))
    case "s" => Some(ToggleStarStatus(active))
    case "v" => Some(OpenPhotoSlider)
    case _ => None
  }

  /** Only the arrow keys look at the Ctrl key. */
  lemma CtrlOnlyForArrows(key: string, active: Option<Entry>)
    requires key != "ArrowLeft" && key != "ArrowRight"
    ensures Dispatch(key, true, active) == Dispatch(key, false, active)
  {
  }

  /** The `Content` component: the props and local state its handlers use. */
  class ContentView {
    const store: ContentStore
    /** `info.from`: the list context ("history", "starred", a feed, ...). */
    var from: string
    /** `dataState.isAppDataReady` as the component last read it. */
    var isAppDataReady: bool
    var isFirstRenderCompleted: bool
    var calls: seq<Call>

    constructor (store: ContentStore, from: string, isAppDataReady: bool)
      ensures this.store == store && this.from == from && this.isAppDataReady == isAppDataReady
      ensures !isFirstRenderCompleted && calls == []
    {
      this.store := store;
      this.from := from;
      this.isAppDataReady := isAppDataReady;
      isFirstRenderCompleted := false;
      calls := [];
    }

    /** `updateUI`: six store writes from the projected pages and the two totals. */
    method UpdateUI(articles: seq<Entry>, articlesUnread: seq<Entry>, allTotal: Option<int>, unreadTotal: int)
      modifies store
      ensures store.Value() == old(store.Value()).(
        entries := articles, unreadEntries := articlesUnread, total := allTotal,
        loadMoreVisible := Below(|articles|, allTotal), unreadCount := unreadTotal,
        loadMoreUnreadVisible := |articlesUnread| < unreadTotal)
      ensures AllPagingConsistent(store.Value()) && UnreadPagingConsistent(store.Value())
    {
      store.entries := articles;
      store.unreadEntries := articlesUnread;
      store.total := allTotal;
      store.loadMoreVisible := Below(|articles|, allTotal);
      store.unreadCount := unreadTotal;
      store.loadMoreUnreadVisible := |articlesUnread| < unreadTotal;
    }

    /**
     * `handleResponses`; `threw` reports the TypeError raised when the unread
     * body passes the guard but carries no entries.
     */
    method HandleResponses(all: Option<Page>, unread: Option<Page>) returns (threw: bool)
      modifies store
      ensures store.Value() == AfterResponses(old(store.Value()), all, unread)
      ensures threw <==> all.Some? && all.value.entries.Some? && unread.Some?
                         && unread.value.total.Some? && unread.value.total.value >= 0
                         && unread.value.entries.None?
    {
      threw := false;
      if all.Some? && all.value.entries.Some? && unread.Some? && unread.value.total.Some?
         && unread.value.total.value >= 0
      {
        if unread.value.entries.None? {
          threw := true;
          return;
        }
        UpdateUI(all.value.entries.value, unread.value.entries.value, all.value.total, unread.value.total.value);
      }
    }

    /** `getArticleList`: fetch one page pair and merge it; `loading` ends false whatever happens. */
    method GetArticleList(all: Reply, unread: Reply)
      modifies this`calls, store
      ensures calls == old(calls) + ArticleListQueries(from == HistoryContext)
      ensures store.Value() == AfterFetch(old(store.Value()), from == HistoryContext, all, unread)
    {
      store.loading := true;
      var history := from == HistoryContext;
      calls := calls + ArticleListQueries(history);
      var responses := Responses(history, all, unread);
      if responses.Some? {
        var _ := HandleResponses(responses.value.0, responses.value.1);
      }
      store.loading := false;
    }

    /**
     * `refreshArticleList`: scroll the list to the top when it is mounted,
     * reset both offsets, then either load the app data or the article list.
     */
    method RefreshArticleList(listMounted: bool, all: Reply, unread: Reply)
      modifies this`calls, store
      ensures calls == old(calls) + RefreshCalls(listMounted, isAppDataReady, from == HistoryContext)
      ensures store.Value() == AfterRefresh(old(store.Value()), isAppDataReady, from == HistoryContext, all, unread)
    {
      if listMounted {
        calls := calls + [ScrollListToTop];
      }
      store.offset := 0;
      store.unreadOffset := 0;
      if !isAppDataReady {
        calls := calls + [FetchData];
        return;
      }
      GetArticleList(all, unread);
    }

    /** The effect on `orderBy`: no refresh before the first render completes or in history. */
    method OnOrderByChange(listMounted: bool, all: Reply, unread: Reply)
      modifies this`calls, store
      ensures !old(isFirstRenderCompleted) || from == HistoryContext ==>
        calls == old(calls) && store.Value() == old(store.Value())
      ensures old(isFirstRenderCompleted) && from != HistoryContext ==>
        && calls == old(calls) + RefreshCalls(listMounted, isAppDataReady, false)
        && store.Value() == AfterRefresh(old(store.Value()), isAppDataReady, false, all, unread)
    {
      if !isFirstRenderCompleted || from == HistoryContext {
        return;
      }
      RefreshArticleList(listMounted, all, unread);
    }

    /** The effect on `info` and `orderDirection`: record the context and refresh. */
    method OnInfoOrDirectionChange(newFrom: string, listMounted: bool, all: Reply, unread: Reply)
      modifies this`from, this`calls, store
      ensures from == newFrom
      ensures calls == old(calls) + RefreshCalls(listMounted, isAppDataReady, newFrom == HistoryContext)
      ensures store.Value() == AfterRefresh(old(store.Value()).(infoFrom := newFrom), isAppDataReady,
                                            newFrom == HistoryContext, all, unread)
    {
      from := newFrom;
      store.infoFrom := newFrom;
      RefreshArticleList(listMounted, all, unread);
    }

    /** The effect on mount: a leftover active entry is cleared. */
    method OnMount()
      modifies store`activeContent
      ensures store.activeContent == None
    {
      if store.activeContent.Some? {
        store.activeContent := None;
      }
    }

    /**
     * The effect on `isAppDataReady`: while the app data is not ready, load
     * the article list, mark the first render done and focus the article view.
     */
    method OnAppDataReadyChange(all: Reply, unread: Reply)
      modifies this`calls, this`isFirstRenderCompleted, store
      ensures isAppDataReady ==>
        calls == old(calls) && isFirstRenderCompleted == old(isFirstRenderCompleted)
        && store.Value() == old(store.Value())
      ensures !isAppDataReady ==>
        && calls == old(calls) + ArticleListQueries(from == HistoryContext)
        && isFirstRenderCompleted
        && store.Value() == AfterFetch(old(store.Value()), from == HistoryContext, all, unread).(isArticleFocused := true)
    {
      if !isAppDataReady {
        GetArticleList(all, unread);
        isFirstRenderCompleted := true;
        store.isArticleFocused := true;
      }
    }

    // -------------------------------------------------------------------
    // Opening an entry

    /** `handleEntryStatusUpdate`, as far as the lists go: set the entry's status in both. */
    method HandleEntryStatusUpdate(entry: Entry, status: string)
      modifies store`entries, store`unreadEntries
      ensures store.entries == WithStatus(old(store.entries), entry.id, status)
      ensures store.unreadEntries == WithStatus(old(store.unreadEntries), entry.id, status)
    {
      store.entries := WithStatus(store.entries, entry.id, status);
      store.unreadEntries := WithStatus(store.unreadEntries, entry.id, status);
    }

    /** The synchronous part of `handleEntryClick`: the detail view is emptied. */
    method BeginEntryClick()
      modifies store`activeContent
      ensures store.activeContent == None
    {
      store.activeContent := None;
    }

    /**
     * The part of `handleEntryClick` that runs when the delay elapses: show a
     * read copy, and for an unread entry mark it read, send the update and
     * roll the status back if the update fails. `resolved` is false exactly
     * when the returned promise rejects.
     */
    method FinishEntryClick(entry: Entry, updateSucceeded: bool) returns (resolved: bool)
      modifies this`calls, store`activeContent, store`entries, store`unreadEntries
      ensures store.activeContent == Some(entry.(status := ReadStatus))
      ensures entry.status != UnreadStatus ==>
        && resolved
        && calls == old(calls)
        && store.entries == old(store.entries)
        && store.unreadEntries == old(store.unreadEntries)
      ensures entry.status == UnreadStatus ==>
        && resolved == updateSucceeded
        && calls == old(calls) + [UpdateEntriesStatus([entry.id], ReadStatus)]
        && var marked := WithStatus(old(store.entries), entry.id, ReadStatus);
           var markedUnread := WithStatus(old(store.unreadEntries), entry.id, ReadStatus);
           if updateSucceeded then
             store.entries == marked && store.unreadEntries == markedUnread
           else
             && store.entries == WithStatus(marked, entry.id, UnreadStatus)
             && store.unreadEntries == WithStatus(markedUnread, entry.id, UnreadStatus)
      ensures entry.status == UnreadStatus && !updateSucceeded
              && StatusOfIdIs(old(store.entries), entry.id, UnreadStatus)
              && StatusOfIdIs(old(store.unreadEntries), entry.id, UnreadStatus) ==>
        store.entries == old(store.entries) && store.unreadEntries == old(store.unreadEntries)
      ensures AllPagingConsistent(old(store.Value())) ==> AllPagingConsistent(store.Value())
      ensures UnreadPagingConsistent(old(store.Value())) ==> UnreadPagingConsistent(store.Value())
    {
      store.activeContent := Some(entry.(status := ReadStatus));
      if entry.status != UnreadStatus {
        return true;
      }
      HandleEntryStatusUpdate(entry, ReadStatus);
      calls := calls + [UpdateEntriesStatus([entry.id], ReadStatus)];
      if updateSucceeded {
        return true;
      }
      HandleEntryStatusUpdate(entry, UnreadStatus);
      if StatusOfIdIs(old(store.entries), entry.id, UnreadStatus) {
        StatusRollback(old(store.entries), entry.id);
      }
      if StatusOfIdIs(old(store.unreadEntries), entry.id, UnreadStatus) {
        StatusRollback(old(store.unreadEntries), entry.id);
      }
      return false;
    }

    // -------------------------------------------------------------------
    // Keyboard

    /**
     * `handleKeyDown`: the listener is attached only while the article view
     * is focused; a key found in the table runs its handler.
     */
    method HandleKeyDown(key: string, ctrl: bool)
      modifies this`calls
      ensures var action := Dispatch(key, ctrl, store.activeContent);
              calls == if store.isArticleFocused && action.Some? then old(calls) + [KeyHandler(action.value)]
                       else old(calls)
    {
      if store.isArticleFocused {
        var action := Dispatch(key, ctrl, store.activeContent);
        if action.Some? {
          calls := calls + [KeyHandler(action.value)];
        }
      }
    }
  }
}
