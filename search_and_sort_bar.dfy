/**
 * The search-and-sort bar above the article list (`SearchAndSortBar`): the
 * debounced search text, the filter-type selector and the sort-direction
 * toggle. The 500 ms debounce is an explicit step, `FlushDebounce`.
 */
module SearchAndSortBar {
  import opened Wrappers
  import opened Stores

  /** The filter types the selector offers. */
  const FilterTypes: set<string> := {"title", "content", "author"}

  /** `toggleOrderDirection`: "desc" becomes "asc", anything else becomes "desc". */
  function Toggled(direction: string): (r: string)
    ensures r == "asc" || r == "desc"
    ensures r != direction
    ensures direction != "desc" ==> r == "desc"
  {
    if direction == "desc" then "asc" else "desc"
  }

  /** Toggling twice from a valid direction restores it. */
  lemma ToggleInvolution(direction: string)
    requires direction == "asc" || direction == "desc"
    ensures Toggled(Toggled(direction)) == direction
  {
  }

  class SearchAndSortBar {
    const store: ContentStore
    const settings: SettingsStore
    /** The text shown in the search box. */
    var currentFilterString: string
    /** The value the debounced setter will store, if a call is pending. */
    var pendingFilterString: Option<string>

    constructor (store: ContentStore, settings: SettingsStore)
      ensures this.store == store && this.settings == settings
      ensures currentFilterString == "" && pendingFilterString == None
    {
      this.store := store;
      this.settings := settings;
      currentFilterString := "";
      pendingFilterString := None;
    }

    /** The effect on mount: search by title with an empty text. */
    method Mount()
      modifies store`filterType, store`filterString
      ensures store.filterType == "title" && store.filterString == ""
    {
      store.filterType := "title";
      store.filterString := "";
    }

    /** `handleInputChange`: show the text at once and (re)start the debounce with it. */
    method HandleInputChange(value: string)
      modifies this`currentFilterString, this`pendingFilterString
      ensures currentFilterString == value && pendingFilterString == Some(value)
    {
      currentFilterString := value;
      pendingFilterString := Some(value);
    }

    /** The debounce delay elapses: the last typed text reaches the store. */
    method FlushDebounce()
      modifies this`pendingFilterString, store`filterString
      ensures pendingFilterString == None
      ensures store.filterString == if old(pendingFilterString).Some? then old(pendingFilterString).value
                                    else old(store.filterString)
    {
      if pendingFilterString.Some? {
        store.filterString := pendingFilterString.value;
        pendingFilterString := None;
      }
    }

    /** The effect on the stored `filterString`: the search box shows it. */
    method SyncFilterString()
      modifies this`currentFilterString
      ensures currentFilterString == store.filterString
    {
      if store.filterString != currentFilterString {
        currentFilterString := store.filterString;
      }
    }

    /** The selector's `onChange`: store the chosen filter type. */
    method SelectFilterType(filterType: string)
      requires filterType in FilterTypes
      modifies store`filterType
      ensures store.filterType == filterType && store.filterType in FilterTypes
    {
      store.filterType := filterType;
    }

    /** `toggleOrderDirection`: write the flipped direction to the settings store. */
    method ToggleOrderDirection()
      modifies settings`orderDirection
      ensures settings.orderDirection == Toggled(old(settings.orderDirection))
    {
      settings.orderDirection := Toggled(settings.orderDirection);
    }
  }
}
