/** The list state `src/App.tsx` keeps for the main view: the full cached
    list, the list on display, the ids the user has joined, and (lifted out
    of the search panel, which owns it) the filter record the panel shows.
    The view is consistent when the displayed list is what the shown filters
    select from the full list. */
module AppView {
  import opened Wrappers
  import opened Types
  import opened TournamentSearch
  import opened Filtering
  import opened Registration

  datatype View = View(
    user: Option<User>,
    tournaments: seq<Tournament>,
    displayed: seq<Tournament>,
    joined: seq<string>,
    filters: SearchFilters)

  /** What the user sees agrees with the filters the panel shows. */
  predicate Consistent(v: View) {
    v.displayed == Search(v.tournaments, v.filters)
  }

  /** `handleFilterChange(key, value)` followed by the `onSearch` call it
      makes with the very record it stored. */
  function ChangeFilter(v: View, k: FilterKey, value: string): (r: View)
    ensures Consistent(r)
    ensures Get(r.filters, k) == value
    ensures forall k' :: k' != k ==> Get(r.filters, k') == Get(v.filters, k')
    ensures r.tournaments == v.tournaments && r.joined == v.joined && r.user == v.user
  {
    var f := FilterChange(v.filters, k, value);
    v.(filters := f, displayed := Search(v.tournaments, f))
  }

  /** `clearFilters` followed by its `onSearch` call. */
  function ClearAll(v: View): (r: View)
    ensures Consistent(r) && IsCleared(r.filters)
    ensures r.displayed == v.tournaments
    ensures r.tournaments == v.tournaments && r.joined == v.joined && r.user == v.user
  {
    var f := ClearFilters();
    SearchClearedIsIdentity(v.tournaments, f);
    v.(filters := f, displayed := Search(v.tournaments, f))
  }

  /** Clearing twice is clearing once. */
  lemma ClearAllIdempotent(v: View)
    ensures ClearAll(ClearAll(v)) == ClearAll(v)
  {
  }

  /** The displayed list after a filter edit depends on the full list and the
      filters only, never on what was displayed before. */
  lemma ChangeFilterIgnoresDisplayed(v: View, w: View, k: FilterKey, value: string)
    requires v.(displayed := w.displayed) == w
    ensures ChangeFilter(v, k, value) == ChangeFilter(w, k, value)
  {
  }

  /** `loadTournaments` as the source writes it: the fetched list (or the
      empty list when the fetch fails) becomes both the full list and the
      displayed list, whatever the panel's filters. */
  function LoadTournamentsAsWritten(v: View, fetched: Option<seq<Tournament>>): (r: View)
    ensures r.tournaments == fetched.ValueOr([])
    ensures r.displayed == r.tournaments
    ensures r.filters == v.filters && r.joined == v.joined && r.user == v.user
  {
    var ts := fetched.ValueOr([]);
    v.(tournaments := ts, displayed := ts)
  }

  /** A view showing only "Pokemon TCG" tournaments and displaying nothing
      from an empty list. */
  const PokemonOnly: View :=
    View(None, [], [], [], FilterChange(InitialFilters, GameKey, "Pokemon TCG"))

  const MagicEvent: Tournament :=
    Tournament("t1", "Spring Open", "", "Magic: The Gathering", "Standard", "Shop A", "1 Main St",
               "2024-04-01", "18:00", 8, 0.0, "", StatusRegistration, "u1", "Shop A", 0, "c", "c")

  /** The reload as written breaks consistency: with the game filter on
      "Pokemon TCG", reloading a list that holds a Magic tournament displays
      it, while the panel still shows the Pokemon filter. */
  lemma LoadTournamentsAsWrittenShowsFilteredOut()
    ensures Consistent(PokemonOnly)
    ensures var r := LoadTournamentsAsWritten(PokemonOnly, Some([MagicEvent]));
            !Consistent(r) && MagicEvent in r.displayed && !Matches(MagicEvent, r.filters)
  {
    var r := LoadTournamentsAsWritten(PokemonOnly, Some([MagicEvent]));
    assert !Matches(MagicEvent, r.filters);
    SearchKeepsOrderAndContents(r.tournaments, r.filters);
    assert multiset(Search(r.tournaments, r.filters))[MagicEvent] == 0;
  }

  /** `loadTournaments` re-running the panel's filters on the fetched list, as
      the rest of this model uses it. */
  function LoadTournaments(v: View, fetched: Option<seq<Tournament>>): (r: View)
    ensures Consistent(r)
    ensures r.tournaments == fetched.ValueOr([])
    ensures r.filters == v.filters && r.joined == v.joined && r.user == v.user
  {
    var ts := fetched.ValueOr([]);
    v.(tournaments := ts, displayed := Search(ts, v.filters))
  }

  /** With no filter shown the two reloads agree. */
  lemma LoadTournamentsAgreesWhenCleared(v: View, fetched: Option<seq<Tournament>>)
    requires IsCleared(v.filters)
    ensures LoadTournaments(v, fetched) == LoadTournamentsAsWritten(v, fetched)
  {
    SearchClearedIsIdentity(fetched.ValueOr([]), v.filters);
  }

  /** `registrations.map(r => r.tournamentId)`. */
  function TournamentIds(ps: seq<Player>): (r: seq<string>)
    ensures |r| == |ps|
    ensures forall i :: 0 <= i < |ps| ==> r[i] == ps[i].tournamentId
  {
    if ps == [] then [] else [ps[0].tournamentId] + TournamentIds(ps[1..])
  }

  /** `loadUserRegistrations`: nothing happens without a signed-in user with
      a non-empty id; otherwise the joined list becomes the tournament ids of
      the fetched registrations, or the empty list when the fetch fails. */
  function LoadRegistrations(v: View, fetched: Option<seq<Player>>): (r: View)
    ensures v.user.None? || v.user.value.id == "" ==> r == v
    ensures v.user.Some? && v.user.value.id != "" ==>
              r == v.(joined := TournamentIds(fetched.ValueOr([])))
    ensures forall id :: id in r.joined ==>
              id in v.joined || exists p :: p in fetched.ValueOr([]) && p.tournamentId == id
  {
    match v.user
    case None => v
    case Some(u) =>
      if u.id == "" then v
      else
        var ids := TournamentIds(fetched.ValueOr([]));
        assert forall id :: id in ids ==> exists p :: p in fetched.ValueOr([]) && p.tournamentId == id by {
          forall id | id in ids ensures exists p :: p in fetched.ValueOr([]) && p.tournamentId == id {
            var i :| 0 <= i < |ids| && ids[i] == id;
            assert fetched.ValueOr([])[i] in fetched.ValueOr([]);
          }
        }
        v.(joined := ids)
  }

  /** Whether a join from this view registers the user: the tournament is
      cached and not full, somebody is signed in and both writes succeed. */
  predicate JoinSucceeds(v: View, tournamentId: string, outcome: RemoteOutcome) {
    && Lookup(v.tournaments, tournamentId).Some?
    && !IsFull(Lookup(v.tournaments, tournamentId).value)
    && v.user.Some? && outcome == AllSucceed
  }

  /** `handleJoinTournament` as the source writes it: a successful join ends
      with the as-written `loadTournaments`, whose fetch result is
      `refetched`, so the whole re-fetched list is displayed. */
  function JoinInViewAsWritten(v: View, tournamentId: string, playerId: string, now: string,
                               outcome: RemoteOutcome, refetched: Option<seq<Tournament>>): (r: View)
    ensures r.user == v.user && r.filters == v.filters
    ensures JoinSucceeds(v, tournamentId, outcome) ==>
              && r.joined == v.joined + [tournamentId]
              && r.tournaments == refetched.ValueOr([])
              && r.displayed == refetched.ValueOr([])
    ensures !JoinSucceeds(v, tournamentId, outcome) ==> r == v
  {
    var j := Join(ClientState(v.tournaments, v.joined, []), tournamentId, v.user, playerId, now, outcome);
    if j.refresh then LoadTournamentsAsWritten(v.(joined := j.state.joined), refetched)
    else v.(joined := j.state.joined)
  }

  /** After a successful join, the as-written reload displays any re-fetched
      tournament that the panel's filters reject, so the view is no longer
      consistent. */
  lemma JoinInViewAsWrittenShowsFilteredOut(v: View, tournamentId: string, playerId: string, now: string,
                                            outcome: RemoteOutcome, refetched: Option<seq<Tournament>>,
                                            t: Tournament)
    requires JoinSucceeds(v, tournamentId, outcome)
    requires t in refetched.ValueOr([]) && !Matches(t, v.filters)
    ensures var r := JoinInViewAsWritten(v, tournamentId, playerId, now, outcome, refetched);
            t in r.displayed && !Consistent(r)
  {
    var r := JoinInViewAsWritten(v, tournamentId, playerId, now, outcome, refetched);
    SearchKeepsOrderAndContents(r.tournaments, r.filters);
    assert multiset(r.displayed)[t] > 0;
    assert multiset(Search(r.tournaments, r.filters))[t] == 0;
  }

  /** `handleJoinTournament` with the corrected reload of `LoadTournaments`
      (see the reload finding): a successful join re-applies the panel's
      filters to the re-fetched list. The writes the join issues go to the
      remote store; `Capacity` follows them, so the view keeps no write
      log. */
  function JoinInView(v: View, tournamentId: string, playerId: string, now: string,
                      outcome: RemoteOutcome, refetched: Option<seq<Tournament>>): (r: View)
    ensures r.user == v.user && r.filters == v.filters
    ensures JoinSucceeds(v, tournamentId, outcome) ==>
              r.joined == v.joined + [tournamentId] && r.tournaments == refetched.ValueOr([]) && Consistent(r)
    ensures !JoinSucceeds(v, tournamentId, outcome) ==> r == v
    ensures Consistent(v) ==> Consistent(r)
  {
    var j := Join(ClientState(v.tournaments, v.joined, []), tournamentId, v.user, playerId, now, outcome);
    if j.refresh then LoadTournaments(v.(joined := j.state.joined), refetched)
    else v.(joined := j.state.joined)
  }

  /** The main view's events: panel edits, joins and the two loads. */
  datatype Event =
    | FilterEdited(key: FilterKey, value: string)
    | FiltersCleared
    | JoinRequested(tournamentId: string, playerId: string, now: string, outcome: RemoteOutcome,
                    refetched: Option<seq<Tournament>>)
    | TournamentsLoaded(tournaments: Option<seq<Tournament>>)
    | RegistrationsLoaded(players: Option<seq<Player>>)

  function Apply(v: View, e: Event): View {
    match e
    case FilterEdited(k, value) => ChangeFilter(v, k, value)
    case FiltersCleared => ClearAll(v)
    case JoinRequested(id, playerId, now, outcome, ts) => JoinInView(v, id, playerId, now, outcome, ts)
    case TournamentsLoaded(ts) => LoadTournaments(v, ts)
    case RegistrationsLoaded(ps) => LoadRegistrations(v, ps)
  }

  function ApplyAll(v: View, es: seq<Event>): View
    decreases |es|
  {
    if es == [] then v else ApplyAll(Apply(v, es[0]), es[1..])
  }

  /** The view starts consistent: nothing listed, nothing displayed, no
      filter shown. */
  lemma InitialViewConsistent(user: Option<User>)
    ensures Consistent(View(user, [], [], [], InitialFilters))
  {
  }

  /** Once consistent, the view stays consistent through any sequence of
      events. */
  lemma {:induction false} ConsistentThroughout(v: View, es: seq<Event>)
    requires Consistent(v)
    ensures Consistent(ApplyAll(v, es))
    decreases |es|
  {
    if es != [] {
      ConsistentThroughout(Apply(v, es[0]), es[1..]);
    }
  }
}
