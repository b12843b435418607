/** `handleSearch` of `src/App.tsx`: the tournament list filtered by the
    search panel's record. The source narrows the full cached list in up to
    five successive `Array.prototype.filter` passes, one per non-empty field;
    `Search` models exactly that, and `Select` is the single-pass reference
    (keep what satisfies every non-empty criterion) it is proved equal to. */
module Filtering {
  import opened Text
  import opened Types
  import opened TournamentSearch

  /** `a` is `b` with some elements dropped, the rest kept in order. */
  predicate IsSubsequence<T(==)>(a: seq<T>, b: seq<T>)
    decreases |b|
  {
    if a == [] then true
    else if b == [] then false
    else (a[0] == b[0] && IsSubsequence(a[1..], b[1..])) || IsSubsequence(a, b[1..])
  }

  /** The query test: a case-insensitive substring of title, description or
      organizer name. */
  predicate QueryHit(t: Tournament, q: string) {
    Includes(Lower(t.title), Lower(q))
    || Includes(Lower(t.description), Lower(q))
    || Includes(Lower(t.organizerName), Lower(q))
  }

  /** The location test: a case-insensitive substring of venue or address. */
  predicate LocationHit(t: Tournament, l: string) {
    Includes(Lower(t.location), Lower(l)) || Includes(Lower(t.address), Lower(l))
  }

  /** The reference meaning of a filter record: every non-empty field holds
      of the tournament; an empty field holds vacuously. */
  predicate Matches(t: Tournament, f: SearchFilters) {
    && (f.query != "" ==> QueryHit(t, f.query))
    && (f.game != "" ==> t.game == f.game)
    && (f.format != "" ==> t.format == f.format)
    && (f.status != "" ==> t.status == f.status)
    && (f.location != "" ==> LocationHit(t, f.location))
  }

  /** Single-pass reference filter: keep, in order, what `Matches`. */
  function Select(ts: seq<Tournament>, f: SearchFilters): (r: seq<Tournament>)
    ensures IsSubsequence(r, ts)
    ensures forall t :: multiset(r)[t] == if Matches(t, f) then multiset(ts)[t] else 0
  {
    if ts == [] then []
    else
      assert ts == [ts[0]] + ts[1..];
      var rest := Select(ts[1..], f);
      if Matches(ts[0], f) then
        assert ([ts[0]] + rest)[1..] == rest;
        [ts[0]] + rest
      else rest
  }

  // ---- The source's staged form ------------------------------------------

  /** One criterion, as applied by one `filter` pass. */
  datatype Criterion =
    | QueryIs(q: string)
    | GameIs(game: string)
    | FormatIs(format: string)
    | StatusIs(status: string)
    | LocationIs(location: string)

  predicate Passes(t: Tournament, c: Criterion) {
    match c
    case QueryIs(q) => QueryHit(t, q)
    case GameIs(g) => t.game == g
    case FormatIs(fm) => t.format == fm
    case StatusIs(s) => t.status == s
    case LocationIs(l) => LocationHit(t, l)
  }

  /** `ts.filter(t => Passes(t, c))`. */
  function Keep(ts: seq<Tournament>, c: Criterion): seq<Tournament> {
    if ts == [] then []
    else if Passes(ts[0], c) then [ts[0]] + Keep(ts[1..], c)
    else Keep(ts[1..], c)
  }

  /** `if (field) { filtered = filtered.filter(...) }`. */
  function Stage(ts: seq<Tournament>, active: bool, c: Criterion): seq<Tournament> {
    if active then Keep(ts, c) else ts
  }

  /** `handleSearch(filters)`: starts from the full list `ts` (never from the
      list currently displayed) and applies the five guarded passes in the
      source's order. */
  function Search(ts: seq<Tournament>, f: SearchFilters): seq<Tournament> {
    var byQuery := Stage(ts, f.query != "", QueryIs(f.query));
    var byGame := Stage(byQuery, f.game != "", GameIs(f.game));
    var byFormat := Stage(byGame, f.format != "", FormatIs(f.format));
    var byStatus := Stage(byFormat, f.status != "", StatusIs(f.status));
    Stage(byStatus, f.location != "", LocationIs(f.location))
  }

  // ---- Staged filtering equals the single pass -----------------------------

  predicate AllPass(t: Tournament, cs: seq<Criterion>) {
    forall c :: c in cs ==> Passes(t, c)
  }

  /** The single pass over an explicit list of criteria. */
  function SelectAll(ts: seq<Tournament>, cs: seq<Criterion>): seq<Tournament> {
    if ts == [] then []
    else if AllPass(ts[0], cs) then [ts[0]] + SelectAll(ts[1..], cs)
    else SelectAll(ts[1..], cs)
  }

  /** The criteria list a filter record switches on, in the source's order. */
  function Enable(cs: seq<Criterion>, active: bool, c: Criterion): seq<Criterion> {
    if active then cs + [c] else cs
  }

  function Criteria(f: SearchFilters): seq<Criterion> {
    var c1 := Enable([], f.query != "", QueryIs(f.query));
    var c2 := Enable(c1, f.game != "", GameIs(f.game));
    var c3 := Enable(c2, f.format != "", FormatIs(f.format));
    var c4 := Enable(c3, f.status != "", StatusIs(f.status));
    Enable(c4, f.location != "", LocationIs(f.location))
  }

  lemma {:induction false} SelectAllNone(ts: seq<Tournament>)
    ensures SelectAll(ts, []) == ts
  {
    if ts != [] {
      SelectAllNone(ts[1..]);
      assert ts == [ts[0]] + ts[1..];
    }
  }

  /** One more `filter` pass after a single pass adds its criterion. */
  lemma {:induction false} KeepAfterSelectAll(ts: seq<Tournament>, cs: seq<Criterion>, c: Criterion)
    ensures Keep(SelectAll(ts, cs), c) == SelectAll(ts, cs + [c])
  {
    if ts != [] {
      KeepAfterSelectAll(ts[1..], cs, c);
      var rest := SelectAll(ts[1..], cs);
      assert AllPass(ts[0], cs + [c]) <==> AllPass(ts[0], cs) && Passes(ts[0], c);
      if AllPass(ts[0], cs) {
        assert ([ts[0]] + rest)[0] == ts[0];
        assert ([ts[0]] + rest)[1..] == rest;
      }
    }
  }

  lemma StageOfSelectAll(ts: seq<Tournament>, cs: seq<Criterion>, active: bool, c: Criterion)
    ensures Stage(SelectAll(ts, cs), active, c) == SelectAll(ts, Enable(cs, active, c))
  {
    if active {
      KeepAfterSelectAll(ts, cs, c);
    }
  }

  lemma SearchIsSelectAll(ts: seq<Tournament>, f: SearchFilters)
    ensures Search(ts, f) == SelectAll(ts, Criteria(f))
  {
    SelectAllNone(ts);
    var c1 := Enable([], f.query != "", QueryIs(f.query));
    var c2 := Enable(c1, f.game != "", GameIs(f.game));
    var c3 := Enable(c2, f.format != "", FormatIs(f.format));
    var c4 := Enable(c3, f.status != "", StatusIs(f.status));
    StageOfSelectAll(ts, [], f.query != "", QueryIs(f.query));
    StageOfSelectAll(ts, c1, f.game != "", GameIs(f.game));
    StageOfSelectAll(ts, c2, f.format != "", FormatIs(f.format));
    StageOfSelectAll(ts, c3, f.status != "", StatusIs(f.status));
    StageOfSelectAll(ts, c4, f.location != "", LocationIs(f.location));
  }

  lemma AllPassEnable(t: Tournament, cs: seq<Criterion>, active: bool, c: Criterion)
    ensures AllPass(t, Enable(cs, active, c)) <==> AllPass(t, cs) && (active ==> Passes(t, c))
  {
    if active {
      assert c in cs + [c];
      assert forall x :: x in cs + [c] <==> x in cs || x == c;
    }
  }

  lemma MatchesIffAllPass(t: Tournament, f: SearchFilters)
    ensures Matches(t, f) <==> AllPass(t, Criteria(f))
  {
    var c1 := Enable([], f.query != "", QueryIs(f.query));
    var c2 := Enable(c1, f.game != "", GameIs(f.game));
    var c3 := Enable(c2, f.format != "", FormatIs(f.format));
    var c4 := Enable(c3, f.status != "", StatusIs(f.status));
    AllPassEnable(t, [], f.query != "", QueryIs(f.query));
    AllPassEnable(t, c1, f.game != "", GameIs(f.game));
    AllPassEnable(t, c2, f.format != "", FormatIs(f.format));
    AllPassEnable(t, c3, f.status != "", StatusIs(f.status));
    AllPassEnable(t, c4, f.location != "", LocationIs(f.location));
  }

  lemma {:induction false} SelectAllIsSelect(ts: seq<Tournament>, f: SearchFilters)
    ensures SelectAll(ts, Criteria(f)) == Select(ts, f)
  {
    if ts != [] {
      MatchesIffAllPass(ts[0], f);
      SelectAllIsSelect(ts[1..], f);
    }
  }

  /** The five guarded passes of the source compute the single-pass
      reference filter. */
  lemma SearchIsSelect(ts: seq<Tournament>, f: SearchFilters)
    ensures Search(ts, f) == Select(ts, f)
  {
    SearchIsSelectAll(ts, f);
    SelectAllIsSelect(ts, f);
  }

  // ---- Properties of the displayed result -----------------------------------

  /** The result is drawn from the full list in its original order, and each
      tournament appears in it exactly as often as in the list when it
      matches, and not at all otherwise: no re-sorting, no duplication, no
      loss. */
  lemma SearchKeepsOrderAndContents(ts: seq<Tournament>, f: SearchFilters)
    ensures IsSubsequence(Search(ts, f), ts)
    ensures forall t :: multiset(Search(ts, f))[t] == if Matches(t, f) then multiset(ts)[t] else 0
  {
    SearchIsSelect(ts, f);
  }

  /** Soundness of each conjunct: every displayed tournament satisfies each
      non-empty field of the record. */
  lemma SearchSound(ts: seq<Tournament>, f: SearchFilters, t: Tournament)
    requires t in Search(ts, f)
    ensures t in ts
    ensures f.query != "" ==>
              Includes(Lower(t.title), Lower(f.query))
              || Includes(Lower(t.description), Lower(f.query))
              || Includes(Lower(t.organizerName), Lower(f.query))
    ensures f.game != "" ==> t.game == f.game
    ensures f.format != "" ==> t.format == f.format
    ensures f.status != "" ==> t.status == f.status
    ensures f.location != "" ==>
              Includes(Lower(t.location), Lower(f.location))
              || Includes(Lower(t.address), Lower(f.location))
  {
    SearchKeepsOrderAndContents(ts, f);
    assert multiset(Search(ts, f))[t] > 0;
  }

  /** Completeness: a listed tournament that satisfies every non-empty field
      is displayed. */
  lemma SearchComplete(ts: seq<Tournament>, f: SearchFilters, t: Tournament)
    requires t in ts && Matches(t, f)
    ensures t in Search(ts, f)
  {
    SearchKeepsOrderAndContents(ts, f);
    assert multiset(ts)[t] > 0;
  }

  lemma {:induction false} SelectCleared(ts: seq<Tournament>, f: SearchFilters)
    requires IsCleared(f)
    ensures Select(ts, f) == ts
  {
    assert f.query == Get(f, QueryKey) && f.game == Get(f, GameKey) && f.format == Get(f, FormatKey);
    assert f.status == Get(f, StatusKey) && f.location == Get(f, LocationKey);
    if ts != [] {
      SelectCleared(ts[1..], f);
      assert ts == [ts[0]] + ts[1..];
    }
  }

  /** With all five fields empty the whole list is displayed. */
  lemma SearchClearedIsIdentity(ts: seq<Tournament>, f: SearchFilters)
    requires IsCleared(f)
    ensures Search(ts, f) == ts
  {
    SearchIsSelect(ts, f);
    SelectCleared(ts, f);
  }

  lemma {:induction false} SelectIdempotent(ts: seq<Tournament>, f: SearchFilters)
    ensures Select(Select(ts, f), f) == Select(ts, f)
  {
    if ts != [] {
      SelectIdempotent(ts[1..], f);
      var rest := Select(ts[1..], f);
      if Matches(ts[0], f) {
        assert ([ts[0]] + rest)[0] == ts[0];
        assert ([ts[0]] + rest)[1..] == rest;
      }
    }
  }

  /** Filtering the displayed list again with the same record changes
      nothing. */
  lemma SearchIdempotent(ts: seq<Tournament>, f: SearchFilters)
    ensures Search(Search(ts, f), f) == Search(ts, f)
  {
    SearchIsSelect(ts, f);
    SearchIsSelect(Select(ts, f), f);
    SelectIdempotent(ts, f);
  }

  lemma {:induction false} SelectAgrees(ts: seq<Tournament>, f: SearchFilters, g: SearchFilters)
    requires forall t :: t in ts ==> (Matches(t, f) <==> Matches(t, g))
    ensures Select(ts, f) == Select(ts, g)
  {
    if ts != [] {
      SelectAgrees(ts[1..], f, g);
    }
  }

  /** The query and location fields are case-insensitive: replacing either
      by its lower-case form displays the same tournaments. */
  lemma SearchIgnoresCase(ts: seq<Tournament>, f: SearchFilters)
    ensures Search(ts, f.(query := Lower(f.query))) == Search(ts, f)
    ensures Search(ts, f.(location := Lower(f.location))) == Search(ts, f)
  {
    LowerIdempotent(f.query);
    LowerIdempotent(f.location);
    var fq := f.(query := Lower(f.query));
    var fl := f.(location := Lower(f.location));
    SearchIsSelect(ts, f);
    SearchIsSelect(ts, fq);
    SearchIsSelect(ts, fl);
    SelectAgrees(ts, fq, f);
    SelectAgrees(ts, fl, f);
  }
}
