/**
 * The shared client-side stores that the list components read and write:
 * `contentState` (the loaded entry lists, paging flags, active entry and
 * filter fields) and `settingsState`/`configState` (sort order).
 */
module Stores {
  import opened Wrappers

  const ReadStatus: string := "read"
  const UnreadStatus: string := "unread"

  /** The list contexts (`info.from`) with rules of their own. */
  const HistoryContext: string := "history"
  const StarredContext: string := "starred"

  /** An article as the server sends it; only `status` and `starred` change locally. */
  datatype Entry = Entry(
    id: int,
    title: string,
    author: string,
    content: string,
    status: string,
    starred: bool)

  /** The body of a resolved entries request; either field may be missing. */
  datatype Page = Page(entries: Option<seq<Entry>>, total: Option<int>)

  /** JavaScript's `n < total`, where a missing total makes the comparison false. */
  predicate Below(n: int, total: Option<int>)
  {
    total.Some? && n < total.value
  }

  /** Every field of the content store at one moment. */
  datatype ContentValue = ContentValue(
    entries: seq<Entry>,
    unreadEntries: seq<Entry>,
    total: Option<int>,
    unreadCount: int,
    loadMoreVisible: bool,
    loadMoreUnreadVisible: bool,
    offset: int,
    unreadOffset: int,
    loading: bool,
    activeContent: Option<Entry>,
    isArticleFocused: bool,
    infoFrom: string,
    filterType: string,
    filterString: string,
    filterStatus: string)

  /** The "load more" flag of the "all" list agrees with the server total. */
  predicate AllPagingConsistent(v: ContentValue)
  {
    v.loadMoreVisible <==> Below(|v.entries|, v.total)
  }

  /** The "load more" flag of the unread list agrees with the unread count. */
  predicate UnreadPagingConsistent(v: ContentValue)
  {
    v.loadMoreUnreadVisible <==> |v.unreadEntries| < v.unreadCount
  }

  /** The `contentState` store; its setters are plain field assignments. */
  class ContentStore {
    var entries: seq<Entry>
    var unreadEntries: seq<Entry>
    var total: Option<int>
    var unreadCount: int
    var loadMoreVisible: bool
    var loadMoreUnreadVisible: bool
    var offset: int
    var unreadOffset: int
    var loading: bool
    var activeContent: Option<Entry>
    var isArticleFocused: bool
    var infoFrom: string
    var filterType: string
    var filterString: string
    var filterStatus: string

    function Value(): ContentValue
      reads this
    {
      ContentValue(entries, unreadEntries, total, unreadCount, loadMoreVisible,
                   loadMoreUnreadVisible, offset, unreadOffset, loading, activeContent,
                   isArticleFocused, infoFrom, filterType, filterString, filterStatus)
    }
  }

  /**
   * The settings store, as far as these components write it: the sort
   * direction of the lists. A change of the sort key (`orderBy`) enters the
   * model only as the event `Content.ContentView.OnOrderByChange`.
   */
  class SettingsStore {
    var orderDirection: string
  }
}
