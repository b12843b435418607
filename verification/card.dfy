/** The decisions of `src/components/tournaments/TournamentCard.tsx`: whether
    the user may register, which action buttons appear, the badge colour and
    the badge label of a status. */
module TournamentCard {
  import opened Wrappers
  import opened Text
  import opened Types
  import opened Registration

  /** `canRegister`: registration is open, a seat is left, and the user is
      not already registered. */
  predicate CanRegister(t: Tournament, isRegistered: bool) {
    t.status == StatusRegistration && t.registeredPlayers < t.maxPlayers && !isRegistered
  }

  /** `registeredTournaments.includes(tournament.id)`, as passed by the list. */
  predicate IsRegistered(joined: seq<string>, id: string) {
    id in joined
  }

  /** Which buttons the card's footer shows. */
  datatype Buttons = Buttons(viewDetails: bool, register: bool, registered: bool, viewResults: bool)

  function CardButtons(t: Tournament, isRegistered: bool): (b: Buttons)
    ensures b.viewDetails
    ensures b.register <==> t.status == StatusRegistration && !IsFull(t) && !isRegistered
    ensures b.registered <==> isRegistered
    ensures !(b.register && b.registered)
    ensures b.viewResults <==> t.status == StatusCompleted
    ensures b.viewResults ==> !b.register
  {
    Buttons(true, CanRegister(t, isRegistered), isRegistered, t.status == StatusCompleted)
  }

  /** Whenever the card offers Register, the capacity guard of the join
      workflow passes for the same cached tournament, so a signed-in user
      whose two writes succeed is registered. */
  lemma RegisterPassesJoinGuard(s: ClientState, t: Tournament, u: User, playerId: string, now: string)
    requires CanRegister(t, IsRegistered(s.joined, t.id))
    requires Lookup(s.cache, t.id) == Some(t)
    ensures !IsFull(t)
    ensures Join(s, t.id, Some(u), playerId, now, AllSucceed).notice == JoinedNotice
  {
  }

  /** After a successful join the card of that tournament shows Registered
      and no longer offers Register. */
  lemma JoinHidesRegister(s: ClientState, id: string, user: Option<User>, playerId: string, now: string,
                          outcome: RemoteOutcome, t: Tournament)
    requires Join(s, id, user, playerId, now, outcome).notice == JoinedNotice
    requires t.id == id
    ensures var b := CardButtons(t, IsRegistered(Join(s, id, user, playerId, now, outcome).state.joined, t.id));
            b.registered && !b.register
  {
  }

  const BadgeBlue: string := "bg-blue-100 text-blue-800"
  const BadgeGreen: string := "bg-green-100 text-green-800"
  const BadgeYellow: string := "bg-yellow-100 text-yellow-800"
  const BadgeGray: string := "bg-gray-100 text-gray-800"

  /** `getStatusColor`: total over all strings; anything other than the four
      declared statuses gets the class of `completed`. */
  function StatusColor(status: string): (r: string)
    ensures r == BadgeBlue || r == BadgeGreen || r == BadgeYellow || r == BadgeGray
    ensures r == BadgeGray <==> status == StatusCompleted || !IsKnownStatus(status)
  {
    if status == StatusUpcoming then BadgeBlue
    else if status == StatusRegistration then BadgeGreen
    else if status == StatusOngoing then BadgeYellow
    else if status == StatusCompleted then BadgeGray
    else BadgeGray
  }

  /** The four declared statuses each have a colour of their own. */
  lemma StatusColorsDistinct(a: string, b: string)
    requires IsKnownStatus(a) && IsKnownStatus(b) && a != b
    ensures StatusColor(a) != StatusColor(b)
  {
  }

  /** `status.charAt(0).toUpperCase() + status.slice(1)`; the empty string
      stays empty. */
  function StatusLabel(status: string): (r: string)
    ensures |r| == |status|
    ensures |status| > 0 ==> r[0] == UpperChar(status[0]) && r[1..] == status[1..]
  {
    if status == [] then [] else [UpperChar(status[0])] + status[1..]
  }

  /** The label lower-cases back to the lower-cased status. */
  lemma StatusLabelLowersBack(status: string)
    ensures Lower(StatusLabel(status)) == Lower(status)
  {
    if status != [] {
      LowerUpperChar(status[0]);
      var l := StatusLabel(status);
      forall i | 0 <= i < |status|
        ensures Lower(l)[i] == Lower(status)[i]
      {
        if i > 0 { assert l[i] == status[i]; }
      }
    }
  }

}
