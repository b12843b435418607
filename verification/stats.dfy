/** The three figures of the statistics panel in `src/App.tsx`, computed
    over the full cached list: the number of tournaments, the number still
    to come (open for registration or upcoming), and the players registered
    in all of them. */
module Stats {
  import opened Types
  import opened TournamentSearch
  import opened Filtering

  predicate IsUpcoming(t: Tournament) {
    t.status == StatusRegistration || t.status == StatusUpcoming
  }

  /** `tournaments.filter(t => registration || upcoming).length`. */
  function UpcomingCount(ts: seq<Tournament>): (r: nat)
    ensures r <= |ts|
    ensures r == 0 <==> forall i :: 0 <= i < |ts| ==> !IsUpcoming(ts[i])
  {
    if ts == [] then 0
    else (if IsUpcoming(ts[0]) then 1 else 0) + UpcomingCount(ts[1..])
  }

  /** The search panel's record that selects one status and nothing else. */
  function StatusOnly(status: string): (f: SearchFilters)
    ensures forall t :: Matches(t, f) <==> status == "" || t.status == status
  {
    FilterChange(InitialFilters, StatusKey, status)
  }

  lemma {:induction false} UpcomingCountBySelect(ts: seq<Tournament>)
    ensures UpcomingCount(ts) == |Select(ts, StatusOnly(StatusRegistration))| + |Select(ts, StatusOnly(StatusUpcoming))|
  {
    if ts != [] {
      UpcomingCountBySelect(ts[1..]);
    }
  }

  /** The "upcoming" figure is what the status filter shows for
      `registration` plus what it shows for `upcoming`. */
  lemma UpcomingCountBySearch(ts: seq<Tournament>)
    ensures UpcomingCount(ts) == |Search(ts, StatusOnly(StatusRegistration))| + |Search(ts, StatusOnly(StatusUpcoming))|
  {
    UpcomingCountBySelect(ts);
    SearchIsSelect(ts, StatusOnly(StatusRegistration));
    SearchIsSelect(ts, StatusOnly(StatusUpcoming));
  }

  /** `tournaments.reduce((sum, t) => sum + t.registeredPlayers, 0)`, folded
      from the left as `reduce` does. */
  function PlayerTotal(ts: seq<Tournament>): int {
    if ts == [] then 0 else PlayerTotal(ts[..|ts| - 1]) + ts[|ts| - 1].registeredPlayers
  }

  /** The seats offered by all tournaments of the list. */
  function SeatTotal(ts: seq<Tournament>): int {
    if ts == [] then 0 else SeatTotal(ts[..|ts| - 1]) + ts[|ts| - 1].maxPlayers
  }

  /** The player total of a concatenation is the sum of the totals. */
  lemma {:induction false} PlayerTotalAppend(a: seq<Tournament>, b: seq<Tournament>)
    ensures PlayerTotal(a + b) == PlayerTotal(a) + PlayerTotal(b)
    decreases |b|
  {
    if b == [] {
      assert a + b == a;
    } else {
      PlayerTotalAppend(a, b[..|b| - 1]);
      assert (a + b)[..|a + b| - 1] == a + b[..|b| - 1];
    }
  }

  /** When every tournament is within capacity, the players figure never
      exceeds the seats on offer, and is never negative. */
  lemma {:induction false} PlayerTotalWithinSeats(ts: seq<Tournament>)
    requires forall i :: 0 <= i < |ts| ==> 0 <= ts[i].registeredPlayers <= ts[i].maxPlayers
    ensures 0 <= PlayerTotal(ts) <= SeatTotal(ts)
  {
    if ts != [] {
      PlayerTotalWithinSeats(ts[..|ts| - 1]);
    }
  }
}
