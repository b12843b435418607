/** The creation dialog of
    `src/components/tournaments/CreateTournamentModal.tsx`: its form record,
    single-field edits, the tournament record a submit builds, and the reset
    after a successful create. The remote `create` call and `auth.me()` are
    outcomes handed in as parameters; the id and timestamps are opaque
    parameters. */
module CreateTournamentModal {
  import opened Wrappers
  import opened Types

  datatype Form = Form(
    title: string,
    description: string,
    game: string,
    format: string,
    location: string,
    address: string,
    date: string,
    time: string,
    maxPlayers: int,
    entryFee: real,
    prizePool: string)

  /** The dialog's defaults: empty text, 16 seats, no entry fee. */
  const InitialForm: Form := Form("", "", "", "", "", "", "", "", 16, 0.0, "")

  /** The text fields of the form. */
  datatype TextField =
    | TitleField | DescriptionField | GameField | FormatField | LocationField
    | AddressField | DateField | TimeField | PrizePoolField

  function TextOf(f: Form, k: TextField): string {
    match k
    case TitleField => f.title
    case DescriptionField => f.description
    case GameField => f.game
    case FormatField => f.format
    case LocationField => f.location
    case AddressField => f.address
    case DateField => f.date
    case TimeField => f.time
    case PrizePoolField => f.prizePool
  }

  /** The dialog's initial form has every text field empty. */
  lemma InitialFormDefaults(k: TextField)
    ensures TextOf(InitialForm, k) == ""
    ensures InitialForm.maxPlayers == 16 && InitialForm.entryFee == 0.0
  {
  }

  /** One `handleInputChange(field, value)` call, with the value already
      converted by the input's own handler. */
  datatype Edit =
    | SetText(field: TextField, value: string)
    | SetMaxPlayers(maxPlayers: int)
    | SetEntryFee(entryFee: real)

  /** `{ ...prev, [field]: value }`: the named field takes the value, every
      other field keeps its own. */
  function ApplyEdit(f: Form, e: Edit): (r: Form)
    ensures e.SetText? ==> TextOf(r, e.field) == e.value
    ensures forall k :: (!e.SetText? || k != e.field) ==> TextOf(r, k) == TextOf(f, k)
    ensures r.maxPlayers == if e.SetMaxPlayers? then e.maxPlayers else f.maxPlayers
    ensures r.entryFee == if e.SetEntryFee? then e.entryFee else f.entryFee
  {
    match e
    case SetMaxPlayers(n) => f.(maxPlayers := n)
    case SetEntryFee(x) => f.(entryFee := x)
    case SetText(k, v) =>
      match k
      case TitleField => f.(title := v)
      case DescriptionField => f.(description := v)
      case GameField => f.(game := v)
      case FormatField => f.(format := v)
      case LocationField => f.(location := v)
      case AddressField => f.(address := v)
      case DateField => f.(date := v)
      case TimeField => f.(time := v)
      case PrizePoolField => f.(prizePool := v)
  }

  /** The form fields a tournament record carries. */
  function FormOf(t: Tournament): Form {
    Form(t.title, t.description, t.game, t.format, t.location, t.address, t.date, t.time,
         t.maxPlayers, t.entryFee, t.prizePool)
  }

  /** The record `handleSubmit` sends: the form spread unchanged, open for
      registration with nobody registered, organised by the signed-in user.
      The two timestamps come from two separate clock readings, so they are
      two parameters and may differ. */
  function NewTournament(f: Form, organizer: User, id: string, createdAt: string, updatedAt: string)
    : (t: Tournament)
    ensures FormOf(t) == f
    ensures t.status == StatusRegistration && t.registeredPlayers == 0
    ensures t.id == id && t.organizerId == organizer.id && t.organizerName == NameOf(organizer)
    ensures t.createdAt == createdAt && t.updatedAt == updatedAt
  {
    Tournament(id, f.title, f.description, f.game, f.format, f.location, f.address, f.date, f.time,
               f.maxPlayers, f.entryFee, f.prizePool, StatusRegistration, organizer.id, NameOf(organizer),
               0, createdAt, updatedAt)
  }

  /** The dialog after a submit, the tournament created (if any), and whether
      the list is re-fetched. */
  datatype SubmitResult = SubmitResult(form: Form, created: Option<Tournament>, refresh: bool)

  /** `handleSubmit`. `organizer` is `None` when `auth.me()` fails and
      `createOk` is whether the remote create succeeds; either failure keeps
      the form as typed. */
  function Submit(f: Form, organizer: Option<User>, id: string, createdAt: string, updatedAt: string,
                  createOk: bool): (r: SubmitResult)
    ensures r.created.Some? <==> organizer.Some? && createOk
    ensures r.refresh <==> r.created.Some?
    ensures r.created.Some? ==> r.created.value == NewTournament(f, organizer.value, id, createdAt, updatedAt)
    ensures r.created.Some? ==> r.form == InitialForm
    ensures r.created.None? ==> r.form == f
  {
    match organizer
    case None => SubmitResult(f, None, false)
    case Some(u) =>
      if createOk then SubmitResult(InitialForm, Some(NewTournament(f, u, id, createdAt, updatedAt)), true)
      else SubmitResult(f, None, false)
  }

  /** A freshly created tournament has a free seat exactly when the form
      asked for at least one, and is within capacity exactly when the form's
      seat count is not negative. The seat input's `min` and `max` are
      enforced only by the browser's form validation, which this model does
      not capture. */
  lemma NewTournamentOpen(f: Form, organizer: User, id: string, createdAt: string, updatedAt: string)
    ensures var t := NewTournament(f, organizer, id, createdAt, updatedAt);
            (!IsFull(t) <==> f.maxPlayers > 0) && (t.registeredPlayers <= t.maxPlayers <==> f.maxPlayers >= 0)
  {
  }
}
