# TCG tournament manager — client logic in Dafny

The tournament manager is a browser front-end over a hosted data and auth
service. Users list, search, create and join trading-card-game tournaments.
This project models the front-end's own logic as pure functions over
immutable records, and proves properties about them:

- **Search filter** (`Filtering`): `handleSearch` narrows the cached
  tournament list by a five-field filter record. It applies one guarded
  `filter` pass per non-empty field. The model is proved equal to a
  single-pass reference filter (`Select`). From that follow order
  preservation, exact contents, identity on empty filters, idempotence and
  case-insensitivity.
- **Join workflow** (`Registration`): `handleJoinTournament` is a
  transition on the client state (cached list, joined ids, log of remote
  writes). Remote success or failure is a parameter.
- **Tournament card** (`TournamentCard`): the `canRegister` predicate,
  which buttons appear, the badge colour and the badge label.
- **Search panel and creation dialog** (`TournamentSearch`,
  `CreateTournamentModal`): single-field edits, clearing, form defaults and
  reset, and the record a create sends.
- **Statistics** (`Stats`): the upcoming count and the registered-players
  sum.
- **View state** (`AppView`): the displayed list against the filters the
  panel shows, joins, and the two loads.
- **Capacity** (`Capacity`): a single sequential client creating, joining
  and reloading. The remote store is the client's write log applied to a
  starting store. No stored tournament's `registeredPlayers` count ever
  exceeds its seats. The player records themselves are not bounded.

Modules follow the source files: `Types` is `src/types/tournament.ts`,
`TournamentSearch`, `TournamentCard` and `CreateTournamentModal` are the
components of the same names, and `Filtering`, `Registration`, `Stats` and
`AppView` split `src/App.tsx`. `Text` holds ASCII case mapping and substring
search, and `Wrappers` holds `Option`. `Scenarios` states the filter's and
the join's results on small concrete inputs.

Remote calls, the clock and id generation are parameters:
- a fetch result is `Option<seq<...>>`, where `None` means the call failed;
- a join's remote calls are a `RemoteOutcome`;
- a create's `auth.me()` result is an `Option<User>`, and the create's
  success is a `bool`;
- ids and timestamps are opaque strings.

The client state is kept in two records on purpose:
- `AppView.View` holds what the main view shows: the cached and displayed
  lists, the joined ids and the panel's filters. A join is one of its events
  (`AppView.JoinInView`), and it runs `Registration.Join` on the view's list
  and ids.
- `Registration.ClientState` adds the log of writes sent to the remote
  store. `Capacity` replays that log against the store and needs no filters.

## Model

| member | source | states |
|---|---|---|
| `Text.IncludesIffOccurs` | src/App.tsx:77-79 | the substring test holds exactly when the needle occurs at some position of the text, and the empty needle occurs everywhere |
| `Types.NameOf` | src/App.tsx:118 | an absent or empty display name falls back to the e-mail, any other display name is used as is |
| `TournamentSearch.InitialFiltersAreCleared` | src/components/tournaments/TournamentSearch.tsx:41-47 | the panel starts with all five filter fields empty |
| `TournamentSearch.FilterChange` | src/components/tournaments/TournamentSearch.tsx:49-51 | an edit sets the named field to the value and leaves the other four fields as they were |
| `TournamentSearch.FilterChangeSameValue` | src/components/tournaments/TournamentSearch.tsx:49-51 | writing a field's current value back leaves the record unchanged |
| `TournamentSearch.ClearFilters` | src/components/tournaments/TournamentSearch.tsx:55-62 | clearing gives a record with every field empty |
| `TournamentSearch.ClearFiltersIsInitial` | src/components/tournaments/TournamentSearch.tsx:41-62 | clearing returns the panel to its initial record, and that is the only record with every field empty |
| `TournamentSearch.StatusOptionsAreStatuses` | src/components/tournaments/TournamentSearch.tsx:108-118 | the status selector offers exactly the empty "all" choice and the four declared statuses |
| `Filtering.Select` | src/App.tsx:72-103 | the reference filter keeps tournaments in their original order, and each one appears as often as in the input when it matches and not at all otherwise |
| `Filtering.SearchIsSelect` | src/App.tsx:72-103 | the five guarded passes produce the same list as the single-pass reference filter |
| `Filtering.SearchKeepsOrderAndContents` | src/App.tsx:72-103 | the result is a subsequence of the full list, with no duplicates and no matching tournament lost |
| `Filtering.SearchSound` | src/App.tsx:75-100 | every returned tournament is in the list and passes each non-empty field: lower-cased query in title, description or organizer name; equal game, format and status; lower-cased location in venue or address |
| `Filtering.SearchComplete` | src/App.tsx:75-100 | every listed tournament that passes all non-empty fields is returned |
| `Filtering.SearchClearedIsIdentity` | src/App.tsx:73-100 | with all five fields empty the result is the full list |
| `Filtering.SearchIdempotent` | src/App.tsx:72-103 | filtering the result again with the same record changes nothing |
| `Filtering.SearchIgnoresCase` | src/App.tsx:77-98 | replacing the query or the location by its lower-case form gives the same result |
| `Registration.Lookup` | src/App.tsx:107 | the lookup finds a tournament exactly when one has the id, and returns the first with that id |
| `Registration.NewPlayer` | src/App.tsx:116-124 | the registration record carries the user's id and e-mail, the tournament id, the display-name-or-e-mail name and `checkedIn = false` |
| `Registration.Join` | src/App.tsx:105-138 | unknown id: nothing happens. Full tournament: no write and the "full" notice. Success iff capacity is left, a user is signed in and both writes succeed; then one player write, one count write of the cached count plus one, the id appended and a re-fetch. Every failure past the capacity guard shows the generic notice and leaves the joined list unchanged. Without a user, or when the player create fails, nothing is written. When the count update fails, the player write stays. The cache never changes |
| `Registration.JoinDoesNotDeduplicate` | src/App.tsx:132 | joining an already-joined id appends it a second time |
| `TournamentCard.CardButtons` | src/components/tournaments/TournamentCard.tsx:96-117 | View Details always shows. Register shows iff registration is open, the tournament is not full and the user is not registered. Registered shows iff the user is registered. Register and Registered never show together. View Results shows iff the status is completed |
| `TournamentCard.RegisterPassesJoinGuard` | src/components/tournaments/TournamentCard.tsx:39-41 | whenever the card offers Register for the cached tournament, the join's capacity guard passes and a signed-in join with successful writes registers the user |
| `TournamentCard.JoinHidesRegister` | src/components/tournaments/TournamentCard.tsx:101-111 | after a successful join, the card for that id shows Registered and no longer offers Register |
| `TournamentCard.StatusColor` | src/components/tournaments/TournamentCard.tsx:15-28 | every string gets one of the four badge classes, and the gray one goes exactly to `completed` and to anything that is not a declared status |
| `TournamentCard.StatusColorsDistinct` | src/components/tournaments/TournamentCard.tsx:15-28 | different declared statuses never share a badge class |
| `TournamentCard.StatusLabel` | src/components/tournaments/TournamentCard.tsx:51 | the label has the status's length, its first character upper-cased and the rest unchanged; the empty status gives the empty label |
| `TournamentCard.StatusLabelLowersBack` | src/components/tournaments/TournamentCard.tsx:51 | lower-casing the label gives the lower-cased status |
| `CreateTournamentModal.InitialFormDefaults` | src/components/tournaments/CreateTournamentModal.tsx:41-53 | the initial form has every text field empty, 16 seats and no entry fee |
| `CreateTournamentModal.ApplyEdit` | src/components/tournaments/CreateTournamentModal.tsx:101-103 | an input change sets only the named field; every other field keeps its value |
| `CreateTournamentModal.NewTournament` | src/components/tournaments/CreateTournamentModal.tsx:62-71 | the created record carries the form's fields unchanged (`FormOf` gives the form back), status `registration`, zero players, the organizer's id and display-name-or-e-mail, and the two clock readings as creation and update times |
| `CreateTournamentModal.Submit` | src/components/tournaments/CreateTournamentModal.tsx:55-99 | a tournament is created iff `auth.me()` and the create both succeed; then the form resets to its defaults and the list is re-fetched; otherwise the form keeps what was typed |
| `CreateTournamentModal.NewTournamentOpen` | src/components/tournaments/CreateTournamentModal.tsx:68 | a new tournament has a free seat iff the form asked for at least one, and is within capacity iff the seat count is not negative |
| `Stats.UpcomingCount` | src/App.tsx:202 | the upcoming figure never exceeds the number of tournaments, and is zero iff none is open for registration or upcoming |
| `Stats.UpcomingCountBySearch` | src/App.tsx:202 | the upcoming figure is the status filter's result size for `registration` plus its size for `upcoming` |
| `Stats.PlayerTotalAppend` | src/App.tsx:214 | the registered-players sum over a concatenation is the sum of the two sums |
| `Stats.PlayerTotalWithinSeats` | src/App.tsx:214 | when every tournament is within capacity, the registered-players sum is between zero and the total of seats |
| `AppView.ChangeFilter` | src/components/tournaments/TournamentSearch.tsx:49-53 | after an edit the displayed list is what the stored record selects from the full list; only the edited field changes |
| `AppView.ClearAll` | src/components/tournaments/TournamentSearch.tsx:55-65 | after clearing, the record is empty and the full list is displayed |
| `AppView.ClearAllIdempotent` | src/components/tournaments/TournamentSearch.tsx:55-65 | clearing twice is the same as clearing once |
| `AppView.ChangeFilterIgnoresDisplayed` | src/App.tsx:73 | the result of an edit depends only on the full list and the filters, never on what was displayed before |
| `AppView.LoadTournamentsAsWritten` | src/App.tsx:31-48 | as written, a reload sets both the full and the displayed list to the fetched list, or to the empty list when the fetch fails |
| `AppView.LoadTournamentsAsWrittenShowsFilteredOut` | src/App.tsx:38-39 | the as-written reload can display a tournament that the filters shown in the panel reject |
| `AppView.LoadTournaments` | src/App.tsx:31-48 | the corrected reload stores the fetched list (empty on failure) and displays what the panel's filters select from it |
| `AppView.LoadTournamentsAgreesWhenCleared` | src/App.tsx:38-39 | with no filter set, the corrected reload and the as-written reload agree |
| `AppView.TournamentIds` | src/App.tsx:56 | the joined ids are the fetched registrations' tournament ids, one per registration, in order |
| `AppView.LoadRegistrations` | src/App.tsx:50-62 | without a user with a non-empty id nothing changes. Otherwise the joined list becomes the fetched registrations' tournament ids, or empty when the fetch fails. Every id comes from a fetched registration |
| `AppView.JoinInViewAsWritten` | src/App.tsx:105-138 | as written, a join that passes the guard with a signed-in user and successful writes appends the id, then stores and displays the whole re-fetched list. Any other join leaves the view as it was |
| `AppView.JoinInViewAsWrittenShowsFilteredOut` | src/App.tsx:133 | after a successful as-written join, every re-fetched tournament that the panel's filters reject is displayed, and the view is inconsistent |
| `AppView.JoinInView` | src/App.tsx:105-138 | with the corrected reload (see Findings), a successful join appends the id, stores the re-fetched list and keeps the view consistent. Any other join leaves the view as it was |
| `AppView.InitialViewConsistent` | src/App.tsx:14-20 | the initial view (nothing listed, no filter) is consistent |
| `AppView.ConsistentThroughout` | src/App.tsx:31-103 | with the corrected reload, edits, clears, joins and loads keep the displayed list equal to what the shown filters select |
| `Capacity.JoinPreservesInv` | src/App.tsx:105-138 | whatever the remote calls do, a join keeps every stored tournament within capacity, and keeps cached seat counts equal to the stored ones |
| `Capacity.CreatePreservesInv` | src/components/tournaments/CreateTournamentModal.tsx:62-73 | creating a tournament with a fresh id and a non-negative seat count keeps the store within capacity |
| `Capacity.StepPreservesInv` | src/App.tsx:105-138 | every admissible create, join or reload keeps the invariant |
| `Capacity.RunPreservesInv` | src/App.tsx:105-138 | any admissible sequence of events keeps the invariant |
| `Capacity.NeverOverCapacity` | src/App.tsx:110-129 | from a store within capacity and an empty cache, after any admissible sequence of creates, joins and reloads, no stored tournament's `registeredPlayers` count exceeds its seats. The number of player records is not bounded: a join whose count update fails leaves a record without raising the count |
| `Scenarios.GameFilterScenario` | src/App.tsx:83-85 | filtering a Magic and a Pokemon listing by game "Pokemon TCG" keeps only the Pokemon one |
| `Scenarios.QueryScenario` | src/App.tsx:75-81 | the query "OPEN" matches "Spring Open" and not "Draft Night" |
| `Scenarios.FullTournamentScenario` | src/App.tsx:110-113 | joining a tournament with 2 of 2 seats taken issues no write and shows the "full" notice |

## Left out

- The remote client is not modelled: `blink.db` list/create/update, `blink.auth.onAuthStateChanged`, `auth.me` and `logout`. Their results are parameters.
- The auth effect (src/App.tsx:23-29, 64-70), which decides when the two loads run, is not modelled. React effect scheduling is not expressible as a pure function. The loads themselves are modelled.
- Concurrency and staleness are not modelled. This covers interleaved fetches, and other clients' writes between a join's capacity check, its player create and its count update. The partial failure of a single client's join, where the count update fails after the player create, is modelled by `Registration.Join`.
- Capacity.NeverOverCapacity: holds only for admissible runs, under three assumptions:
  - A created tournament has a fresh id; nothing in the program enforces this.
  - A created tournament has `maxPlayers >= 0`. The seat input's `min="4" max="128" required` (src/components/tournaments/CreateTournamentModal.tsx:223-231) is enforced only by the browser's form validation, which the model does not capture. The model assumes only `maxPlayers >= 0`.
  - Fetched lists show tournaments as stored, which excludes other clients.
- `Date.now()` ids and `toISOString()` timestamps are opaque string parameters.
- `formatDate` (`toLocaleDateString`) is not modelled. Neither are `parseInt`/`parseFloat` of the number inputs (NaN and floating point) or the browser's validation of the inputs' `required`, `min` and `max`.
- Case mapping covers ASCII letters only. JavaScript's full Unicode `toLowerCase`/`toUpperCase` is not modelled.
- Rendering, styling, toasts (reduced to a `Notice` value), loading flags, skeletons and `src/components/layout/Header.tsx` are not modelled.
- The `Round` and `Match` types are not modelled because no code uses them.
- The GAMES and FORMATS option lists are not modelled; they only feed the selectors.
- `handleViewTournament` is not modelled; it only calls `toast.info`.
- The "Total Tournaments" figure (src/App.tsx:191) is the list length. It appears only as the bound in `Stats.UpcomingCount`.
- Registration.Join: the model does not claim the joined list is free of duplicates, because the workflow never checks membership (see `Registration.JoinDoesNotDeduplicate`).

## Findings

| source | as written | input that shows it | evidently intended | confidence | as-written member | corrected member |
|---|---|---|---|---|---|---|
| src/App.tsx:38-39 | a reload (after a join, after a create, or on sign-in) sets the displayed list to the whole fetched list. `TournamentSearch` keeps its own filter state (src/components/tournaments/TournamentSearch.tsx:41) and keeps showing those filters | the game filter is set to "Pokemon TCG", then the reload returns one Magic tournament: it is displayed while the panel still shows the Pokemon filter | the displayed list agrees with the filters the panel shows, so a reload re-applies them | medium, not executed | `AppView.LoadTournamentsAsWritten` and `AppView.JoinInViewAsWritten`, shown by `AppView.LoadTournamentsAsWrittenShowsFilteredOut` and `AppView.JoinInViewAsWrittenShowsFilteredOut` | `AppView.LoadTournaments` and `AppView.JoinInView`, kept consistent by `AppView.ConsistentThroughout` |
