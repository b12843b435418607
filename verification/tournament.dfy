/** The records of `src/types/tournament.ts` that the client logic touches:
    tournaments, registration records (players) and the signed-in user.
    JavaScript numbers are modelled as `int` (counts) and `real` (fees);
    identifiers and timestamps are opaque strings. */
module Types {
  import opened Wrappers

  const StatusUpcoming: string := "upcoming"
  const StatusRegistration: string := "registration"
  const StatusOngoing: string := "ongoing"
  const StatusCompleted: string := "completed"

  /** The four values the declared status type admits. The field itself is
      a plain string: nothing checks data coming back from the remote store. */
  predicate IsKnownStatus(s: string) {
    s == StatusUpcoming || s == StatusRegistration || s == StatusOngoing || s == StatusCompleted
  }

  datatype Tournament = Tournament(
    id: string,
    title: string,
    description: string,
    game: string,
    format: string,
    location: string,
    address: string,
    date: string,
    time: string,
    maxPlayers: int,
    entryFee: real,
    prizePool: string,
    status: string,
    organizerId: string,
    organizerName: string,
    registeredPlayers: int,
    createdAt: string,
    updatedAt: string)

  /** One user's registration to one tournament. */
  datatype Player = Player(
    id: string,
    name: string,
    email: string,
    userId: string,
    tournamentId: string,
    checkedIn: bool,
    registeredAt: string)

  datatype User = User(id: string, email: string, displayName: Option<string>, createdAt: string)

  /** `user.displayName || user.email`: an absent or empty display name
      falls back to the e-mail address. */
  function NameOf(u: User): (r: string)
    ensures u.displayName.Some? && u.displayName.value != "" ==> r == u.displayName.value
    ensures u.displayName.None? || u.displayName.value == "" ==> r == u.email
  {
    match u.displayName
    case Some(n) => if n != "" then n else u.email
    case None => u.email
  }

  /** The guard of the join workflow: the cached count has reached capacity. */
  predicate IsFull(t: Tournament) {
    t.registeredPlayers >= t.maxPlayers
  }
}
