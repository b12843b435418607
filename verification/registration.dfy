/** `handleJoinTournament` of `src/App.tsx` as a pure transition on the
    client's state: the cached tournament list, the ids of tournaments the
    user has joined, and the log of writes issued to the remote store.
    Whether each remote call succeeds is not the client's to decide; it is the
    `outcome` parameter, and a failing call stops the workflow before any
    later step. Identifiers and timestamps (`Date.now()`, `toISOString()`)
    are opaque parameters. */
module Registration {
  import opened Wrappers
  import opened Types

  /** A write issued to the remote store. */
  datatype Write =
    | PutTournament(tournament: Tournament)
    | PutPlayer(player: Player)
    | SetRegisteredPlayers(tournamentId: string, count: int)

  /** How the two remote calls of a join fare. */
  datatype RemoteOutcome = AllSucceed | PlayerCreateFails | CountUpdateFails

  /** The toast the user sees. */
  datatype Notice = Silent | TournamentFull | JoinedNotice | Unavailable

  datatype ClientState = ClientState(cache: seq<Tournament>, joined: seq<string>, log: seq<Write>)

  /** `refresh` is set when the workflow ends by re-fetching the list. */
  datatype JoinResult = JoinResult(state: ClientState, notice: Notice, refresh: bool)

  /** `tournaments.find(t => t.id === id)`: the first cached tournament with
      that id. */
  function Lookup(ts: seq<Tournament>, id: string): (r: Option<Tournament>)
    ensures r.None? <==> forall i :: 0 <= i < |ts| ==> ts[i].id != id
    ensures r.Some? ==> exists i :: 0 <= i < |ts| && ts[i] == r.value && r.value.id == id
                                    && forall j :: 0 <= j < i ==> ts[j].id != id
  {
    if ts == [] then None
    else if ts[0].id == id then Some(ts[0])
    else
      var r := Lookup(ts[1..], id);
      assert r.Some? ==> exists i :: 0 < i < |ts| && ts[i] == r.value && r.value.id == id
                                     && forall j :: 0 <= j < i ==> ts[j].id != id by {
        if r.Some? {
          var i :| 0 <= i < |ts[1..]| && ts[1..][i] == r.value && r.value.id == id
                   && forall j :: 0 <= j < i ==> ts[1..][j].id != id;
          assert ts[i + 1] == r.value;
          assert forall j :: 0 <= j < i + 1 ==> ts[j].id != id by {
            forall j | 0 <= j < i + 1 ensures ts[j].id != id {
              if j > 0 { assert ts[j] == ts[1..][j - 1]; }
            }
          }
        }
      }
      r
  }

  /** The registration record written by a join. */
  function NewPlayer(u: User, tournamentId: string, playerId: string, now: string): (p: Player)
    ensures p.userId == u.id && p.tournamentId == tournamentId && p.email == u.email
    ensures p.name == NameOf(u) && !p.checkedIn
    ensures p.id == playerId && p.registeredAt == now
  {
    Player(playerId, NameOf(u), u.email, u.id, tournamentId, false, now)
  }

  /** One join request. `user` is `None` when nobody is signed in: the
      source then throws on `user.displayName` inside its `try`, which ends
      in the generic failure notice before any write. */
  function Join(s: ClientState, tournamentId: string, user: Option<User>, playerId: string,
                now: string, outcome: RemoteOutcome): (r: JoinResult)
    // nothing but the log and the joined list ever changes
    ensures r.state.cache == s.cache
    ensures s.log <= r.state.log && s.joined <= r.state.joined
    // an unknown id: nothing at all
    ensures Lookup(s.cache, tournamentId).None? ==> r == JoinResult(s, Silent, false)
    // a full tournament: no write, the "full" notice
    ensures Lookup(s.cache, tournamentId).Some? && IsFull(Lookup(s.cache, tournamentId).value)
            ==> r == JoinResult(s, TournamentFull, false)
    // success exactly when the guard passes, a user is signed in and both writes succeed
    ensures r.notice == JoinedNotice <==>
              Lookup(s.cache, tournamentId).Some? && !IsFull(Lookup(s.cache, tournamentId).value)
              && user.Some? && outcome == AllSucceed
    ensures r.refresh <==> r.notice == JoinedNotice
    // on success: one player record, one count write of the cached count plus one, the id appended
    ensures r.notice == JoinedNotice ==>
              var t := Lookup(s.cache, tournamentId).value;
              && r.state.joined == s.joined + [tournamentId]
              && r.state.log == s.log + [PutPlayer(NewPlayer(user.value, tournamentId, playerId, now)),
                                         SetRegisteredPlayers(tournamentId, t.registeredPlayers + 1)]
    // on any failure: the joined list is untouched and at most the player record was written
    ensures r.notice != JoinedNotice ==>
              && r.state.joined == s.joined
              && (r.state.log == s.log
                  || (outcome == CountUpdateFails && user.Some?
                      && r.state.log == s.log + [PutPlayer(NewPlayer(user.value, tournamentId, playerId, now))]))
    // past the guard every failure ends in the generic notice of the `catch`
    ensures Lookup(s.cache, tournamentId).Some? && !IsFull(Lookup(s.cache, tournamentId).value)
            && r.notice != JoinedNotice
            ==> r.notice == Unavailable
    // no user, or a failed player create: nothing was written
    ensures user.None? || outcome == PlayerCreateFails ==> r.state.log == s.log
    // a failed count update leaves the player record it follows in the store
    ensures Lookup(s.cache, tournamentId).Some? && !IsFull(Lookup(s.cache, tournamentId).value)
            && user.Some? && outcome == CountUpdateFails
            ==> r.state.log == s.log + [PutPlayer(NewPlayer(user.value, tournamentId, playerId, now))]
  {
    match Lookup(s.cache, tournamentId)
    case None => JoinResult(s, Silent, false)
    case Some(t) =>
      if IsFull(t) then JoinResult(s, TournamentFull, false)
      else match user
        case None => JoinResult(s, Unavailable, false)
        case Some(u) =>
          var player := NewPlayer(u, tournamentId, playerId, now);
          match outcome
          case PlayerCreateFails => JoinResult(s, Unavailable, false)
          case CountUpdateFails => JoinResult(s.(log := s.log + [PutPlayer(player)]), Unavailable, false)
          case AllSucceed =>
            JoinResult(
              ClientState(s.cache, s.joined + [tournamentId],
                          s.log + [PutPlayer(player), SetRegisteredPlayers(tournamentId, t.registeredPlayers + 1)]),
              JoinedNotice, true)
  }

  /** The workflow does not check membership: joining an id already in the
      joined list succeeds again and lists it twice. */
  lemma JoinDoesNotDeduplicate(s: ClientState, tournamentId: string, u: User, playerId: string, now: string)
    requires tournamentId in s.joined
    requires Lookup(s.cache, tournamentId).Some? && !IsFull(Lookup(s.cache, tournamentId).value)
    ensures var r := Join(s, tournamentId, Some(u), playerId, now, AllSucceed);
            multiset(r.state.joined)[tournamentId] == multiset(s.joined)[tournamentId] + 1
  {
  }
}
