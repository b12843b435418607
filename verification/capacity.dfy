/** A single client working against the remote store, one event at a time:
    creating tournaments through the dialog, joining them through the join
    workflow, and re-fetching the list. The store is the client's write log
    applied to the store it started from. Its invariant is that no stored
    tournament's `registeredPlayers` count exceeds its seats. The player
    records themselves are not bounded: a join whose count update fails
    leaves a player record behind without raising the count. Other clients, and
    any interleaving of fetches with writes, are outside this model. */
module Capacity {
  import opened Wrappers
  import opened Types
  import opened Registration
  import opened CreateTournamentModal

  /** The two collections of the remote store; tournaments are keyed by id. */
  datatype Store = Store(tournaments: map<string, Tournament>, players: seq<Player>)

  /** The effect of one write. An update of an unknown id changes nothing. */
  function ApplyWrite(st: Store, w: Write): Store {
    match w
    case PutTournament(t) => st.(tournaments := st.tournaments[t.id := t])
    case PutPlayer(p) => st.(players := st.players + [p])
    case SetRegisteredPlayers(id, n) =>
      if id in st.tournaments
      then st.(tournaments := st.tournaments[id := st.tournaments[id].(registeredPlayers := n)])
      else st
  }

  function ApplyLog(st: Store, log: seq<Write>): Store
    decreases |log|
  {
    if log == [] then st else ApplyLog(ApplyWrite(st, log[0]), log[1..])
  }

  /** Applying a longer log is applying its extension to the shorter one's
      result. */
  lemma {:induction false} ApplyLogAppend(st: Store, a: seq<Write>, b: seq<Write>)
    ensures ApplyLog(st, a + b) == ApplyLog(ApplyLog(st, a), b)
    decreases |a|
  {
    if a != [] {
      ApplyLogAppend(ApplyWrite(st, a[0]), a[1..], b);
      assert (a + b)[0] == a[0];
      assert (a + b)[1..] == a[1..] + b;
    } else {
      assert a + b == b;
    }
  }

  /** No stored tournament's `registeredPlayers` count exceeds its seats. */
  predicate WithinCapacity(m: map<string, Tournament>) {
    forall id :: id in m ==> m[id].registeredPlayers <= m[id].maxPlayers
  }

  datatype Session = Session(base: Store, client: ClientState)

  function Current(s: Session): Store {
    ApplyLog(s.base, s.client.log)
  }

  datatype Event =
    | Created(form: Form, organizer: Option<User>, id: string, createdAt: string, updatedAt: string,
              createOk: bool)
    | Joined(tournamentId: string, user: Option<User>, playerId: string, now: string, outcome: RemoteOutcome)
    | Reloaded(fetched: Option<seq<Tournament>>)

  /** One event. A successful create adds its write to the log; a join runs
      the join workflow on the client; a reload replaces the cache with the
      fetched list, or with the empty list when the fetch fails. */
  function Step(s: Session, e: Event): Session {
    match e
    case Created(f, organizer, id, createdAt, updatedAt, ok) =>
      var res := Submit(f, organizer, id, createdAt, updatedAt, ok);
      if res.created.Some?
      then s.(client := s.client.(log := s.client.log + [PutTournament(res.created.value)]))
      else s
    case Joined(id, user, playerId, now, outcome) =>
      s.(client := Join(s.client, id, user, playerId, now, outcome).state)
    case Reloaded(fetched) =>
      s.(client := s.client.(cache := fetched.ValueOr([])))
  }

  /** What a single, sequential client can meet: a create uses an id the
      store does not hold yet (nothing enforces this) and a seat count that is
      not negative (the seat input's `min` is enforced only by the browser's
      form validation, which this model does not capture, so this is an
      assumption about the input), and a fetched list shows tournaments as
      stored. */
  predicate Admissible(s: Session, e: Event) {
    match e
    case Created(f, _, id, _, _, _) => f.maxPlayers >= 0 && id !in Current(s).tournaments
    case Joined(_, _, _, _, _) => true
    case Reloaded(fetched) =>
      forall t :: t in fetched.ValueOr([]) ==>
        t.id in Current(s).tournaments && Current(s).tournaments[t.id] == t
  }

  /** The invariant: the store is within capacity, and each cached tournament
      is stored under its id with the seat count the cache shows. */
  predicate Inv(s: Session) {
    && WithinCapacity(Current(s).tournaments)
    && forall t :: t in s.client.cache ==>
         t.id in Current(s).tournaments && Current(s).tournaments[t.id].maxPlayers == t.maxPlayers
  }

  lemma JoinPreservesInv(s: Session, id: string, user: Option<User>, playerId: string, now: string,
                         outcome: RemoteOutcome)
    requires Inv(s)
    ensures Inv(Step(s, Joined(id, user, playerId, now, outcome)))
  {
    var r := Join(s.client, id, user, playerId, now, outcome);
    var s' := Step(s, Joined(id, user, playerId, now, outcome));
    var st := Current(s);
    if r.state.log != s.client.log {
      var u := user.value;
      var p := PutPlayer(NewPlayer(u, id, playerId, now));
      var afterPlayer := ApplyWrite(st, p);
      assert afterPlayer.tournaments == st.tournaments;
      if r.notice == JoinedNotice {
        var t := Lookup(s.client.cache, id).value;
        var c := SetRegisteredPlayers(id, t.registeredPlayers + 1);
        ApplyLogAppend(s.base, s.client.log, [p, c]);
        assert [p, c][1..] == [c];
        assert ApplyLog(st, [p, c]) == ApplyLog(afterPlayer, [c]);
        assert ApplyLog(st, [p, c]) == ApplyWrite(afterPlayer, c);
        assert t in s.client.cache;
        assert !IsFull(t);
      } else {
        ApplyLogAppend(s.base, s.client.log, [p]);
        assert ApplyLog(st, [p]) == afterPlayer;
      }
    }
  }

  lemma CreatePreservesInv(s: Session, e: Event)
    requires e.Created? && Inv(s) && Admissible(s, e)
    ensures Inv(Step(s, e))
  {
    var res := Submit(e.form, e.organizer, e.id, e.createdAt, e.updatedAt, e.createOk);
    if res.created.Some? {
      var w := PutTournament(res.created.value);
      ApplyLogAppend(s.base, s.client.log, [w]);
      assert ApplyLog(Current(s), [w]) == ApplyWrite(Current(s), w);
    }
  }

  /** Every admissible event keeps the invariant. */
  lemma StepPreservesInv(s: Session, e: Event)
    requires Inv(s) && Admissible(s, e)
    ensures Inv(Step(s, e))
  {
    match e
    case Created(_, _, _, _, _, _) => CreatePreservesInv(s, e);
    case Joined(id, user, playerId, now, outcome) => JoinPreservesInv(s, id, user, playerId, now, outcome);
    case Reloaded(_) =>
  }

  function Run(s: Session, es: seq<Event>): Session
    decreases |es|
  {
    if es == [] then s else Run(Step(s, es[0]), es[1..])
  }

  predicate AdmissibleRun(s: Session, es: seq<Event>)
    decreases |es|
  {
    es == [] || (Admissible(s, es[0]) && AdmissibleRun(Step(s, es[0]), es[1..]))
  }

  lemma {:induction false} RunPreservesInv(s: Session, es: seq<Event>)
    requires Inv(s) && AdmissibleRun(s, es)
    ensures Inv(Run(s, es))
    decreases |es|
  {
    if es != [] {
      StepPreservesInv(s, es[0]);
      RunPreservesInv(Step(s, es[0]), es[1..]);
    }
  }

  /** Starting from a store within capacity and an empty cache, any admissible
      sequence of creates, joins and reloads -- whatever the remote calls do --
      leaves every stored tournament's `registeredPlayers` count within its
      seats. */
  lemma {:induction false} NeverOverCapacity(base: Store, es: seq<Event>)
    requires WithinCapacity(base.tournaments)
    requires AdmissibleRun(Session(base, ClientState([], [], [])), es)
    ensures WithinCapacity(Current(Run(Session(base, ClientState([], [], [])), es)).tournaments)
  {
    RunPreservesInv(Session(base, ClientState([], [], [])), es);
  }
}
