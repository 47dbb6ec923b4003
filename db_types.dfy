// The database schema the app reads and writes: enumerations, table rows and the
// rows returned by the registration procedures. Timestamps are instants in
// milliseconds (see module Clock); `date` columns are UTC day numbers.
module DbTypes {
  import opened Wrappers

  type UserId = string
  type GameId = string
  type RegistrationId = string

  datatype AppRole = Admin | Moderator | User

  datatype GameStatus =
    | Scheduled
    | OpenForResidents
    | OpenForAll
    | Closed
    | Completed
    | Cancelled

  datatype RegistrationStatus = Active | Standby | Cancelled | NoShow

  datatype CheckInStatus = Pending | CheckedIn | NoShow

  /** The text the database stores for a game status. */
  function GameStatusName(s: GameStatus): string
  {
    match s
    case Scheduled => "scheduled"
    case OpenForResidents => "open_for_residents"
    case OpenForAll => "open_for_all"
    case Closed => "closed"
    case Completed => "completed"
    case Cancelled => "cancelled"
  }

  function ParseGameStatus(name: string): (r: Option<GameStatus>)
    ensures r.Some? ==> GameStatusName(r.value) == name
  {
    if name == "scheduled" then Some(Scheduled)
    else if name == "open_for_residents" then Some(OpenForResidents)
    else if name == "open_for_all" then Some(OpenForAll)
    else if name == "closed" then Some(Closed)
    else if name == "completed" then Some(Completed)
    else if name == "cancelled" then Some(GameStatus.Cancelled)
    else None
  }

  lemma GameStatusNamesRoundTrip(s: GameStatus)
    ensures ParseGameStatus(GameStatusName(s)) == Some(s)
  {
  }

  function RegistrationStatusName(s: RegistrationStatus): string
  {
    match s
    case Active => "active"
    case Standby => "standby"
    case Cancelled => "cancelled"
    case NoShow => "no_show"
  }

  function ParseRegistrationStatus(name: string): (r: Option<RegistrationStatus>)
    ensures r.Some? ==> RegistrationStatusName(r.value) == name
  {
    if name == "active" then Some(Active)
    else if name == "standby" then Some(Standby)
    else if name == "cancelled" then Some(RegistrationStatus.Cancelled)
    else if name == "no_show" then Some(RegistrationStatus.NoShow)
    else None
  }

  lemma RegistrationStatusNamesRoundTrip(s: RegistrationStatus)
    ensures ParseRegistrationStatus(RegistrationStatusName(s)) == Some(s)
  {
  }

  function CheckInStatusName(s: CheckInStatus): string
  {
    match s
    case Pending => "pending"
    case CheckedIn => "checked_in"
    case NoShow => "no_show"
  }

  function ParseCheckInStatus(name: string): (r: Option<CheckInStatus>)
    ensures r.Some? ==> CheckInStatusName(r.value) == name
  {
    if name == "pending" then Some(Pending)
    else if name == "checked_in" then Some(CheckedIn)
    else if name == "no_show" then Some(CheckInStatus.NoShow)
    else None
  }

  lemma CheckInStatusNamesRoundTrip(s: CheckInStatus)
    ensures ParseCheckInStatus(CheckInStatusName(s)) == Some(s)
  {
  }

  /** A JSON value as the database returns it in `json` columns and results. */
  datatype Json =
    | JNull
    | JBool(b: bool)
    | JNumber(n: int)
    | JString(s: string)
    | JArray(items: seq<Json>)
    | JObject(fields: seq<(string, Json)>)

  /** A row of `profiles`. */
  datatype Profile = Profile(
    id: UserId,
    fullName: Option<string>,
    phoneNumber: Option<string>,
    avatarUrl: Option<string>,
    isResident: bool,
    createdAt: int,
    updatedAt: int)

  /** A row of `app_settings`. */
  datatype AppSettings = AppSettings(
    id: string,
    fieldLatitude: Option<real>,
    fieldLongitude: Option<real>,
    rulesContent: Option<string>,
    qrSecretKey: string)

  /** A row of `games`; `date` is the game's day number, the times are instants. */
  datatype Game = Game(
    id: GameId,
    date: int,
    shabbatEnd: Option<int>,
    candleLighting: Option<int>,
    deadlineTime: int,
    kickoffTime: int,
    status: GameStatus,
    isAutoGenerated: bool,
    maxPlayers: int,
    maxStandby: int,
    registrationOpensAt: Option<int>,
    wave1RegistrationOpensAt: Option<int>)

  /** The columns a client sets when it inserts a game; the others take their defaults. */
  datatype GameInsert = GameInsert(
    date: int,
    deadlineTime: int,
    kickoffTime: int,
    status: GameStatus,
    isAutoGenerated: bool,
    maxPlayers: int,
    maxStandby: int,
    registrationOpensAt: Option<int>,
    wave1RegistrationOpensAt: Option<int>)

  /** A row of `registrations`. */
  datatype Registration = Registration(
    id: RegistrationId,
    userId: UserId,
    gameId: GameId,
    status: RegistrationStatus,
    checkInStatus: CheckInStatus,
    etaMinutes: Option<int>,
    queuePosition: Option<int>,
    createdAt: int,
    updatedAt: int)

  /** The columns written when registrations are inserted directly. */
  datatype RegistrationInsert = RegistrationInsert(
    gameId: GameId,
    userId: UserId,
    status: RegistrationStatus,
    checkInStatus: CheckInStatus,
    queuePosition: int,
    createdAt: int,
    updatedAt: int)

  /** The columns written when a profile is upserted directly. */
  datatype ProfileInsert = ProfileInsert(
    id: UserId,
    fullName: string,
    phoneNumber: Option<string>,
    isResident: bool)

  /** A row returned by `register_for_game`. */
  datatype RegisterResult = RegisterResult(
    registrationId: RegistrationId,
    status: RegistrationStatus,
    queuePosition: Option<int>)

  /** A row returned by `cancel_registration_for_game`. */
  datatype CancelResult = CancelResult(
    cancelledRegistrationId: RegistrationId,
    promotedRegistrationId: Option<RegistrationId>,
    promotedUserId: Option<UserId>)

  /** A row returned by `process_late_swaps`. */
  datatype LateSwapResult = LateSwapResult(swapsCount: int, swaps: Json)
}
