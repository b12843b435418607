/** The search panel of `src/components/tournaments/TournamentSearch.tsx`:
    the five-field filter record it keeps, single-field edits, clearing, and
    the choices its status selector offers. */
module TournamentSearch {
  import opened Types

  /** Each field is either the empty string ("no filter") or a criterion. */
  datatype SearchFilters = SearchFilters(
    query: string,
    game: string,
    format: string,
    status: string,
    location: string)

  /** `keyof SearchFilters`. */
  datatype FilterKey = QueryKey | GameKey | FormatKey | StatusKey | LocationKey

  function Get(f: SearchFilters, k: FilterKey): string {
    match k
    case QueryKey => f.query
    case GameKey => f.game
    case FormatKey => f.format
    case StatusKey => f.status
    case LocationKey => f.location
  }

  /** No field holds a criterion. */
  predicate IsCleared(f: SearchFilters) {
    forall k :: Get(f, k) == ""
  }

  /** The state the panel starts in. */
  const InitialFilters: SearchFilters := SearchFilters("", "", "", "", "")

  lemma InitialFiltersAreCleared()
    ensures IsCleared(InitialFilters)
  {
  }

  /** `{ ...filters, [key]: value }`: the record both stored by
      `handleFilterChange` and handed to `onSearch`. */
  function FilterChange(f: SearchFilters, k: FilterKey, value: string): (r: SearchFilters)
    ensures Get(r, k) == value
    ensures forall k' :: k' != k ==> Get(r, k') == Get(f, k')
  {
    match k
    case QueryKey => f.(query := value)
    case GameKey => f.(game := value)
    case FormatKey => f.(format := value)
    case StatusKey => f.(status := value)
    case LocationKey => f.(location := value)
  }

  /** Writing the value a field already holds changes nothing. */
  lemma FilterChangeSameValue(f: SearchFilters, k: FilterKey)
    ensures FilterChange(f, k, Get(f, k)) == f
  {
  }

  /** `clearFilters`: the record stored and handed to `onSearch`, whatever
      the panel held before. */
  function ClearFilters(): (r: SearchFilters)
    ensures IsCleared(r)
  {
    SearchFilters("", "", "", "", "")
  }

  /** Clearing lands on the initial state, and a cleared record is the only
      one it can land on. */
  lemma ClearFiltersIsInitial(f: SearchFilters)
    ensures ClearFilters() == InitialFilters
    ensures IsCleared(f) <==> f == ClearFilters()
  {
    if IsCleared(f) {
      assert Get(f, QueryKey) == "" && Get(f, GameKey) == "" && Get(f, FormatKey) == "";
      assert Get(f, StatusKey) == "" && Get(f, LocationKey) == "";
    }
  }

  /** The values of the status selector, "All Status" first. */
  const StatusOptions: seq<string> := ["", StatusRegistration, StatusUpcoming, StatusOngoing, StatusCompleted]

  /** The selector offers exactly "no filter" and the four declared statuses. */
  lemma StatusOptionsAreStatuses()
    ensures forall o :: o in StatusOptions <==> o == "" || IsKnownStatus(o)
  {
  }
}
