/**
 * The footer of the article list (`FooterPanel`): "mark all as read", the
 * all/unread status radio, and the visibility rules of both controls.
 */
module FooterPanel {
  import opened Wrappers
  import opened Stores

  /** Everything the footer asks of collaborators outside the content store. */
  datatype Call = MarkAllAsRead | FetchData | ScrollListToTop

  /** The per-entry rewrite `{...entry, status: "read"}` applied to a whole list. */
  function MarkedRead(es: seq<Entry>): (r: seq<Entry>)
    ensures |r| == |es|
    ensures forall i :: 0 <= i < |es| ==> r[i] == es[i].(status := ReadStatus)
  {
    if es == [] then [] else [es[0].(status := ReadStatus)] + MarkedRead(es[1..])
  }

  /** No loaded entry is unread. */
  predicate AllRead(es: seq<Entry>)
  {
    forall i :: 0 <= i < |es| ==> es[i].status == ReadStatus
  }

  /** Rewriting a list that is already all read changes nothing. */
  lemma MarkedReadFixesAllRead(es: seq<Entry>)
    requires AllRead(es)
    ensures MarkedRead(es) == es
  {
  }

  /** The rewrite leaves every entry read, and doing it twice is doing it once. */
  lemma MarkedReadIdempotent(es: seq<Entry>)
    ensures AllRead(MarkedRead(es))
    ensures MarkedRead(MarkedRead(es)) == MarkedRead(es)
  {
  }

  /** The store after a successful mark-all: both lists read, unread count zero. */
  function AfterMarkAll(v: ContentValue): (w: ContentValue)
    ensures AllRead(w.entries) && AllRead(w.unreadEntries) && w.unreadCount == 0
    ensures |w.entries| == |v.entries| && |w.unreadEntries| == |v.unreadEntries|
    ensures forall i :: 0 <= i < |v.entries| ==> w.entries[i] == v.entries[i].(status := ReadStatus)
    ensures forall i :: 0 <= i < |v.unreadEntries| ==>
      w.unreadEntries[i] == v.unreadEntries[i].(status := ReadStatus)
    ensures w.(entries := v.entries, unreadEntries := v.unreadEntries, unreadCount := v.unreadCount) == v
    ensures AllPagingConsistent(v) ==> AllPagingConsistent(w)
  {
    MarkedReadIdempotent(v.entries);
    MarkedReadIdempotent(v.unreadEntries);
    v.(entries := MarkedRead(v.entries), unreadEntries := MarkedRead(v.unreadEntries), unreadCount := 0)
  }

  /** A second successful mark-all leaves the store as the first one did. */
  lemma AfterMarkAllIdempotent(v: ContentValue)
    ensures AfterMarkAll(AfterMarkAll(v)) == AfterMarkAll(v)
  {
  }

  /** The mark-all button is rendered outside the starred and history contexts. */
  predicate MarkAllShown(from: string)
  {
    from != StarredContext && from != HistoryContext
  }

  /** The status radio is disabled in the history context only. */
  predicate StatusRadioDisabled(from: string)
  {
    from == HistoryContext
  }

  class FooterPanel {
    const store: ContentStore
    /** `info.from`: the list context. */
    var from: string
    var calls: seq<Call>

    constructor (store: ContentStore, from: string)
      ensures this.store == store && this.from == from && calls == []
    {
      this.store := store;
      this.from := from;
      calls := [];
    }

    /**
     * `handleMarkAllAsRead`: both remote steps first, then the three store
     * writes; a failure of either step skips all of them. Only the button's
     * confirmation runs it, and the button exists only where `MarkAllShown`.
     */
    method HandleMarkAllAsRead(markSucceeded: bool, fetchSucceeded: bool) returns (ok: bool)
      requires MarkAllShown(from)
      modifies this`calls, store
      ensures ok <==> markSucceeded && fetchSucceeded
      ensures calls == old(calls) + if markSucceeded then [MarkAllAsRead, FetchData] else [MarkAllAsRead]
      ensures store.Value() == if ok then AfterMarkAll(old(store.Value())) else old(store.Value())
    {
      calls := calls + [MarkAllAsRead];
      if !markSucceeded {
        return false;
      }
      calls := calls + [FetchData];
      if !fetchSucceeded {
        return false;
      }
      store.entries := MarkedRead(store.entries);
      store.unreadEntries := MarkedRead(store.unreadEntries);
      store.unreadCount := 0;
      return true;
    }

    /** The effect on `filterStatus` (and on mount): the text filter goes back to its default. */
    method ResetFilter()
      modifies store`filterType, store`filterString
      ensures store.filterType == "title" && store.filterString == ""
    {
      store.filterType := "title";
      store.filterString := "";
    }

    /**
     * `handleRadioChange` followed by the effect it triggers: scroll the list
     * to the top when mounted, store the chosen status, and reset the text
     * filter when the status actually changed. Only an enabled radio fires
     * it, with one of its two option values.
     */
    method HandleRadioChange(value: string, listMounted: bool)
      requires !StatusRadioDisabled(from)
      requires value == "all" || value == "unread"
      modifies this`calls, store`filterStatus, store`filterType, store`filterString
      ensures store.filterStatus == value
      ensures calls == old(calls) + if listMounted then [ScrollListToTop] else []
      ensures value != old(store.filterStatus) ==> store.filterType == "title" && store.filterString == ""
      ensures value == old(store.filterStatus) ==>
        store.filterType == old(store.filterType) && store.filterString == old(store.filterString)
    {
      if listMounted {
        calls := calls + [ScrollListToTop];
      }
      var previous := store.filterStatus;
      store.filterStatus := value;
      if value != previous {
        ResetFilter();
      }
    }
  }
}
