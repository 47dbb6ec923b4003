// The admin edge function that creates a test game: payload validation, the game
// row, the generated test users' emails and names, and the registration rows it
// inserts (active players first, then the standby queue, a few seconds apart).
module TestGameCreate {
  import opened Wrappers
  import opened Text
  import opened Clock
  import opened DbTypes

  /** The request body, with both times already parsed by `new Date(...)`. */
  datatype Payload = Payload(
    kickoffTime: Instant,
    deadlineTime: Instant,
    maxPlayers: int,
    maxStandby: int,
    activeCount: int,
    standbyCount: int,
    batchId: Option<string>)

  /** The validation failures, in the order they are checked. */
  datatype PayloadError =
    | InvalidTimes
    | KickoffNotBeforeDeadline
    | InvalidMaxima
    | InvalidCounts
    | ActiveExceedsMax
    | StandbyExceedsMax
    | MissingBatchId

  function ErrorMessage(e: PayloadError): string
  {
    match e
    case InvalidTimes => "Invalid kickoff/deadline"
    case KickoffNotBeforeDeadline => "kickoff_time must be before deadline_time"
    case InvalidMaxima => "Invalid max players/standby"
    case InvalidCounts => "Invalid counts"
    case ActiveExceedsMax => "Active count exceeds max players"
    case StandbyExceedsMax => "Standby count exceeds max standby"
    case MissingBatchId => "Missing batch_id"
  }

  /** The position of a check in the validation sequence. */
  function Rank(e: PayloadError): nat
  {
    match e
    case InvalidTimes => 0
    case KickoffNotBeforeDeadline => 1
    case InvalidMaxima => 2
    case InvalidCounts => 3
    case ActiveExceedsMax => 4
    case StandbyExceedsMax => 5
    case MissingBatchId => 6
  }

  /** `!batch_id || batch_id.trim().length === 0`. */
  predicate BlankBatchId(batchId: Option<string>)
  {
    batchId.None? || Trim(batchId.value) == ""
  }

  /** Whether the payload passes the check that reports `e`. */
  predicate Passes(e: PayloadError, p: Payload)
  {
    match e
    case InvalidTimes => p.kickoffTime.At? && p.deadlineTime.At?
    case KickoffNotBeforeDeadline =>
      p.kickoffTime.At? && p.deadlineTime.At? ==> p.kickoffTime.ms < p.deadlineTime.ms
    case InvalidMaxima => p.maxPlayers > 0 && p.maxStandby >= 0
    case InvalidCounts => p.activeCount >= 0 && p.standbyCount >= 0
    case ActiveExceedsMax => p.activeCount <= p.maxPlayers
    case StandbyExceedsMax => p.standbyCount <= p.maxStandby
    case MissingBatchId => !BlankBatchId(p.batchId)
  }

  /** validatePayload: the first failing check, or None. */
  function ValidatePayload(p: Payload): Option<PayloadError>
  {
    if !(p.kickoffTime.At? && p.deadlineTime.At?) then Some(InvalidTimes)
    else if p.kickoffTime.ms >= p.deadlineTime.ms then Some(KickoffNotBeforeDeadline)
    else if p.maxPlayers <= 0 || p.maxStandby < 0 then Some(InvalidMaxima)
    else if p.activeCount < 0 || p.standbyCount < 0 then Some(InvalidCounts)
    else if p.activeCount > p.maxPlayers then Some(ActiveExceedsMax)
    else if p.standbyCount > p.maxStandby then Some(StandbyExceedsMax)
    else if BlankBatchId(p.batchId) then Some(MissingBatchId)
    else None
  }

  /** What an accepted payload satisfies. */
  predicate Valid(p: Payload)
  {
    p.kickoffTime.At? && p.deadlineTime.At? && p.kickoffTime.ms < p.deadlineTime.ms
    && p.maxPlayers > 0 && p.maxStandby >= 0
    && p.activeCount >= 0 && p.standbyCount >= 0
    && p.activeCount <= p.maxPlayers && p.standbyCount <= p.maxStandby
    && !BlankBatchId(p.batchId)
  }

  lemma ValidatePayloadAcceptsExactlyValid(p: Payload)
    ensures ValidatePayload(p) == None <==> Valid(p)
  {
  }

  /** The error reported is the failing check that comes first. */
  lemma {:induction false} ValidatePayloadReportsFirstFailure(p: Payload)
    ensures ValidatePayload(p).None? <==> forall e :: Passes(e, p)
    ensures ValidatePayload(p).Some? ==>
      !Passes(ValidatePayload(p).value, p)
      && forall e :: Rank(e) < Rank(ValidatePayload(p).value) ==> Passes(e, p)
  {
    if ValidatePayload(p).None? {
      forall e ensures Passes(e, p) {
        match e
        case InvalidTimes =>
        case KickoffNotBeforeDeadline =>
        case InvalidMaxima =>
        case InvalidCounts =>
        case ActiveExceedsMax =>
        case StandbyExceedsMax =>
        case MissingBatchId =>
      }
    } else {
      var r := ValidatePayload(p).value;
      assert !Passes(r, p);
      forall e | Rank(e) < Rank(r) ensures Passes(e, p) {
        match e
        case InvalidTimes =>
        case KickoffNotBeforeDeadline =>
        case InvalidMaxima =>
        case InvalidCounts =>
        case ActiveExceedsMax =>
        case StandbyExceedsMax =>
        case MissingBatchId =>
      }
    }
  }

  /** The game row inserted for an accepted payload. */
  function TestGameRow(p: Payload): (g: GameInsert)
    requires ValidatePayload(p) == None
    ensures g.status == OpenForAll && !g.isAutoGenerated
    ensures UtcDay(g.kickoffTime) == g.date && g.kickoffTime < g.deadlineTime
    ensures g.kickoffTime == p.kickoffTime.ms && g.deadlineTime == p.deadlineTime.ms
    ensures g.maxPlayers == p.maxPlayers > 0 && g.maxStandby == p.maxStandby >= 0
    ensures g.registrationOpensAt.None? && g.wave1RegistrationOpensAt.None?
  {
    GameInsert(
      date := UtcDay(p.kickoffTime.ms),
      deadlineTime := p.deadlineTime.ms,
      kickoffTime := p.kickoffTime.ms,
      status := OpenForAll,
      isAutoGenerated := false,
      maxPlayers := p.maxPlayers,
      maxStandby := p.maxStandby,
      registrationOpensAt := None,
      wave1RegistrationOpensAt := None)
  }

  // ---- test users ----

  /** `test_${batch}_${i + 1}@example.com` */
  function TestEmail(batch: string, i: nat): string
  {
    "test_" + batch + "_" + NatToString(i + 1) + "@example.com"
  }

  /** `TEST_${batch}_${i + 1}` */
  function TestName(batch: string, i: nat): string
  {
    "TEST_" + batch + "_" + NatToString(i + 1)
  }

  lemma CancelAround(p: string, a: string, b: string, s: string)
    requires p + a + s == p + b + s
    ensures a == b
  {
    var x := p + a + s;
    assert x[|p|..|x| - |s|] == a;
    assert (p + b + s)[|p|..|x| - |s|] == b;
  }

  lemma TestEmailsDistinct(batch: string, i: nat, j: nat)
    requires i != j
    ensures TestEmail(batch, i) != TestEmail(batch, j)
  {
    if TestEmail(batch, i) == TestEmail(batch, j) {
      CancelAround("test_" + batch + "_", NatToString(i + 1), NatToString(j + 1), "@example.com");
      NatToStringInjective(i + 1, j + 1);
    }
  }

  lemma TestNamesDistinct(batch: string, i: nat, j: nat)
    requires i != j
    ensures TestName(batch, i) != TestName(batch, j)
  {
    if TestName(batch, i) == TestName(batch, j) {
      CancelAround("TEST_" + batch + "_", NatToString(i + 1), NatToString(j + 1), "");
      NatToStringInjective(i + 1, j + 1);
    }
  }

  /** The profiles upserted for the created users, one per user in creation order. */
  function TestProfiles(userIds: seq<UserId>, batch: string): (r: seq<ProfileInsert>)
    ensures |r| == |userIds|
    ensures forall k :: 0 <= k < |r| ==>
      r[k].id == userIds[k] && r[k].fullName == TestName(batch, k) && r[k].phoneNumber.None? && !r[k].isResident
  {
    seq(|userIds|, k requires 0 <= k < |userIds| => ProfileInsert(userIds[k], TestName(batch, k), None, false))
  }

  // ---- registration rows ----

  /** `nextGapMs()` where `draw` is `Math.floor(Math.random() * 7)`. */
  function NextGapMs(draw: int): (gap: int)
    requires 0 <= draw < 7
    ensures 2000 <= gap <= 8000 && gap % 1000 == 0
  {
    (2 + draw) * 1000
  }

  predicate ValidDraws(draws: seq<int>)
  {
    forall k :: 0 <= k < |draws| ==> 0 <= draws[k] < 7
  }

  /** The time elapsed after the gaps drawn so far. */
  function Elapsed(draws: seq<int>): int
    requires ValidDraws(draws)
  {
    if draws == [] then 0 else Elapsed(draws[..|draws| - 1]) + NextGapMs(draws[|draws| - 1])
  }

  lemma {:induction false} ElapsedGrows(draws: seq<int>, j: nat, k: nat)
    requires ValidDraws(draws)
    requires j <= k <= |draws|
    ensures Elapsed(draws[..j]) + 2000 * (k - j) <= Elapsed(draws[..k])
    decreases k - j
  {
    if j < k {
      ElapsedGrows(draws, j, k - 1);
      assert draws[..k][..k - 1] == draws[..k - 1];
    }
  }

  /** Row k of the inserted registrations: the k-th created user, active for the first
      `activeCount` rows and standby after them, at the k-th drawn instant. */
  function TestRegistration(gameId: GameId, activeCount: nat, userIds: seq<UserId>, startMs: int,
                            draws: seq<int>, k: nat): RegistrationInsert
    requires k < |userIds| && k <= |draws| && ValidDraws(draws)
  {
    var t := startMs + Elapsed(draws[..k]);
    if k < activeCount then RegistrationInsert(gameId, userIds[k], Active, Pending, k + 1, t, t)
    else RegistrationInsert(gameId, userIds[k], Standby, CheckedIn, k + 1, t, t)
  }

  /** The two insertion loops build exactly rows 0 .. activeCount + standbyCount - 1. */
  method BuildRegistrations(gameId: GameId, activeCount: nat, standbyCount: nat,
                            userIds: seq<UserId>, startMs: int, draws: seq<int>)
    returns (regs: seq<RegistrationInsert>)
    requires |userIds| == activeCount + standbyCount
    requires |draws| == activeCount + standbyCount && ValidDraws(draws)
    ensures |regs| == activeCount + standbyCount
    ensures forall k :: 0 <= k < |regs| ==> regs[k] == TestRegistration(gameId, activeCount, userIds, startMs, draws, k)
    ensures (forall a, b :: 0 <= a < b < |userIds| ==> userIds[a] != userIds[b]) ==>
      forall j, k :: 0 <= j < k < |regs| ==> regs[j].userId != regs[k].userId
  {
    regs := [];
    var currentTimeMs := startMs;
    var i := 0;
    while i < activeCount
      invariant 0 <= i <= activeCount && |regs| == i
      invariant currentTimeMs == startMs + Elapsed(draws[..i])
      invariant forall k :: 0 <= k < |regs| ==> regs[k] == TestRegistration(gameId, activeCount, userIds, startMs, draws, k)
    {
      regs := regs + [RegistrationInsert(gameId, userIds[i], Active, Pending, i + 1, currentTimeMs, currentTimeMs)];
      assert draws[..i + 1][..i] == draws[..i];
      currentTimeMs := currentTimeMs + NextGapMs(draws[i]);
      i := i + 1;
    }
    i := 0;
    while i < standbyCount
      invariant 0 <= i <= standbyCount && |regs| == activeCount + i
      invariant currentTimeMs == startMs + Elapsed(draws[..activeCount + i])
      invariant forall k :: 0 <= k < |regs| ==> regs[k] == TestRegistration(gameId, activeCount, userIds, startMs, draws, k)
    {
      var n := activeCount + i;
      regs := regs + [RegistrationInsert(gameId, userIds[n], Standby, CheckedIn, n + 1, currentTimeMs, currentTimeMs)];
      assert draws[..n + 1][..n] == draws[..n];
      currentTimeMs := currentTimeMs + NextGapMs(draws[n]);
      i := i + 1;
    }
    forall j, k | 0 <= j < k < |regs| && (forall a, b :: 0 <= a < b < |userIds| ==> userIds[a] != userIds[b])
      ensures regs[j].userId != regs[k].userId
    {
      OneRegistrationPerUser(gameId, activeCount, userIds, startMs, draws, j, k);
    }
  }

  /** Row k: user k, queue position k + 1, active and pending before `activeCount`,
      standby and checked in from there on. */
  lemma TestRegistrationShape(gameId: GameId, activeCount: nat, userIds: seq<UserId>, startMs: int, draws: seq<int>, k: nat)
    requires k < |userIds| && k <= |draws| && ValidDraws(draws)
    ensures var r := TestRegistration(gameId, activeCount, userIds, startMs, draws, k);
      r.gameId == gameId && r.userId == userIds[k] && r.queuePosition == k + 1
      && r.createdAt == r.updatedAt
      && (k < activeCount ==> r.status == Active && r.checkInStatus == Pending)
      && (k >= activeCount ==> r.status == Standby && r.checkInStatus == CheckedIn)
  {
  }

  /** Registration times strictly increase, each 2 to 8 whole seconds after the previous one. */
  lemma CreatedAtSpacing(gameId: GameId, activeCount: nat, userIds: seq<UserId>, startMs: int, draws: seq<int>, j: nat, k: nat)
    requires ValidDraws(draws) && j < k <= |draws| && k < |userIds|
    ensures TestRegistration(gameId, activeCount, userIds, startMs, draws, j).createdAt
          < TestRegistration(gameId, activeCount, userIds, startMs, draws, k).createdAt
    ensures k == j + 1 ==>
      var gap := TestRegistration(gameId, activeCount, userIds, startMs, draws, k).createdAt
               - TestRegistration(gameId, activeCount, userIds, startMs, draws, j).createdAt;
      2000 <= gap <= 8000 && gap % 1000 == 0
  {
    ElapsedGrows(draws, j, k);
    if k == j + 1 {
      assert draws[..k][..j] == draws[..j];
    }
  }

  /** Distinct created users give every test user at most one registration row. */
  lemma OneRegistrationPerUser(gameId: GameId, activeCount: nat, userIds: seq<UserId>, startMs: int,
                               draws: seq<int>, j: nat, k: nat)
    requires forall a, b :: 0 <= a < b < |userIds| ==> userIds[a] != userIds[b]
    requires ValidDraws(draws) && j < k < |userIds| && k <= |draws|
    ensures TestRegistration(gameId, activeCount, userIds, startMs, draws, j).userId
         != TestRegistration(gameId, activeCount, userIds, startMs, draws, k).userId
  {
  }
}
