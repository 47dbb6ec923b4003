// The player's panel for the next game: who may register and when, what the
// register button says, when the check-in scanner is offered, how the standby
// queue is ordered, and the guard around the registration procedure call.
module GameRegistration {
  import opened Wrappers
  import opened DbTypes
  import opened Clock
  import opened Lists

  /** Shown as the capacity when no game is loaded. */
  const DefaultMaxPlayers := 15
  /** `Number.MAX_SAFE_INTEGER`, the queue key of a registration without a position. */
  const MaxSafeInteger := 9007199254740991
  /** Check-in opens this long before kickoff. */
  const CheckInLeadTime := 20 * MsPerMinute

  function MaxPlayersShown(game: Option<Game>): (n: int)
    ensures game.None? ==> n == DefaultMaxPlayers
  {
    if game.Some? then game.value.maxPlayers else DefaultMaxPlayers
  }

  /** An optional opening instant that exists and has passed. */
  predicate Reached(opensAt: Option<int>, now: int)
  {
    opensAt.Some? && now >= opensAt.value
  }

  /** `profile?.is_resident`: a missing profile is not a resident. */
  predicate IsResident(profile: Option<Profile>)
  {
    profile.Some? && profile.value.isResident
  }

  // ---- eligibility ----

  /** Whether the player may register now (wave 2, then wave 1, then the status field). */
  predicate CanRegister(game: Option<Game>, profile: Option<Profile>, now: int)
  {
    match game
    case None => false
    case Some(g) =>
      if Reached(g.registrationOpensAt, now) then true
      else if Reached(g.wave1RegistrationOpensAt, now) && IsResident(profile) then true
      else if g.status == OpenForResidents then IsResident(profile)
      else g.status == OpenForAll
  }

  /** Eligibility as one formula: wave 2 or open-for-all admits everybody; wave 1 or open-for-residents admits residents. */
  lemma CanRegisterExactly(game: Option<Game>, profile: Option<Profile>, now: int)
    ensures CanRegister(game, profile, now) <==>
      game.Some? &&
      (Reached(game.value.registrationOpensAt, now)
       || game.value.status == OpenForAll
       || (IsResident(profile)
           && (Reached(game.value.wave1RegistrationOpensAt, now) || game.value.status == OpenForResidents)))
  {
  }

  lemma WaveTwoAdmitsEveryone(g: Game, profile: Option<Profile>, now: int)
    requires Reached(g.registrationOpensAt, now)
    ensures CanRegister(Some(g), profile, now)
  {
  }

  lemma ResidencyNeverHurts(game: Option<Game>, anyone: Option<Profile>, resident: Option<Profile>, now: int)
    requires IsResident(resident)
    requires CanRegister(game, anyone, now)
    ensures CanRegister(game, resident, now)
  {
  }

  lemma NonResidentAdmission(game: Option<Game>, profile: Option<Profile>, now: int)
    requires !IsResident(profile)
    ensures CanRegister(game, profile, now) <==>
      game.Some? && (Reached(game.value.registrationOpensAt, now) || game.value.status == OpenForAll)
  {
  }

  lemma EligibilityPersists(game: Option<Game>, profile: Option<Profile>, now: int, later: int)
    requires now <= later
    requires CanRegister(game, profile, now)
    ensures CanRegister(game, profile, later)
  {
  }

  // ---- the register button's label ----

  datatype RegistrationLabel = SignUp | ResidentsOnly | RegistrationClosed

  /** The label as the panel computes it. */
  function RegistrationStatusText(game: Option<Game>, profile: Option<Profile>, now: int): RegistrationLabel
  {
    match game
    case None => RegistrationClosed
    case Some(g) =>
      if Reached(g.registrationOpensAt, now) then SignUp
      else if Reached(g.wave1RegistrationOpensAt, now) then
        (if IsResident(profile) then SignUp else ResidentsOnly)
      else if g.status == OpenForAll then SignUp
      else if g.status == OpenForResidents then
        (if IsResident(profile) then SignUp else ResidentsOnly)
      else RegistrationClosed
  }

  lemma SignUpLabelImpliesEligible(game: Option<Game>, profile: Option<Profile>, now: int)
    requires RegistrationStatusText(game, profile, now) == SignUp
    ensures CanRegister(game, profile, now)
  {
  }

  /**
   * A non-resident, on an open-for-all game, after wave 1 opened and before wave 2:
   * the button is enabled (CanRegister holds) while its label says residents only.
   */
  lemma ResidentsOnlyLabelOnOpenButton()
    ensures
      var g := Game("g", 0, None, None, 0, 0, OpenForAll, false, 15, 10, Some(200), Some(100));
      var visitor := Some(Profile("u", None, None, None, false, 0, 0));
      CanRegister(Some(g), visitor, 150) && RegistrationStatusText(Some(g), visitor, 150) == ResidentsOnly
  {
  }

  /**
   * The label with the wave-1 branch answering only for residents, so that a
   * non-resident falls through to the status field as CanRegister does.
   */
  function RegistrationLabelFor(game: Option<Game>, profile: Option<Profile>, now: int): RegistrationLabel
  {
    match game
    case None => RegistrationClosed
    case Some(g) =>
      if Reached(g.registrationOpensAt, now) then SignUp
      else if Reached(g.wave1RegistrationOpensAt, now) && IsResident(profile) then SignUp
      else if g.status == OpenForAll then SignUp
      else if g.status == OpenForResidents then
        (if IsResident(profile) then SignUp else ResidentsOnly)
      else if Reached(g.wave1RegistrationOpensAt, now) then ResidentsOnly
      else RegistrationClosed
  }

  /** The corrected label offers sign-up exactly when registration is possible, and
      says residents-only exactly when a resident could register instead. */
  lemma LabelMatchesEligibility(game: Option<Game>, profile: Option<Profile>, now: int, resident: Option<Profile>)
    requires IsResident(resident)
    ensures RegistrationLabelFor(game, profile, now) == SignUp <==> CanRegister(game, profile, now)
    ensures RegistrationLabelFor(game, profile, now) == ResidentsOnly <==>
      !CanRegister(game, profile, now) && CanRegister(game, resident, now)
  {
  }

  /** The two labels differ only in the case shown by ResidentsOnlyLabelOnOpenButton. */
  lemma LabelsDifferOnlyInWaveOne(game: Option<Game>, profile: Option<Profile>, now: int)
    requires RegistrationLabelFor(game, profile, now) != RegistrationStatusText(game, profile, now)
    ensures game.Some? && !IsResident(profile) && game.value.status == OpenForAll
    ensures Reached(game.value.wave1RegistrationOpensAt, now) && !Reached(game.value.registrationOpensAt, now)
  {
  }

  // ---- check-in window ----

  datatype CheckInWindow =
    | CheckInAllowed
    | KickoffUnknown
    | OpensIn(msUntilKickoff: int)
    | CheckInEnded

  /** For an auto-generated game: the local midnight at the end of the game's date. */
  function CheckInClosesAt(gameDate: int, tz: int): int
  {
    LocalMidnight(UtcMidnight(gameDate) + MsPerDay, tz)
  }

  function CanCheckIn(game: Option<Game>, now: int, tz: int): CheckInWindow
  {
    match game
    case None => KickoffUnknown
    case Some(g) =>
      if g.kickoffTime - now > CheckInLeadTime then OpensIn(g.kickoffTime - now)
      else if g.isAutoGenerated && now > CheckInClosesAt(g.date, tz) then CheckInEnded
      else CheckInAllowed
  }

  lemma CheckInNotBeforeLeadTime(g: Game, now: int, tz: int)
    ensures CanCheckIn(Some(g), now, tz).OpensIn? <==> g.kickoffTime - now > 20 * MsPerMinute
    ensures CanCheckIn(Some(g), now, tz) == CheckInAllowed ==> now >= g.kickoffTime - 20 * MsPerMinute
  {
  }

  lemma CheckInOpenAtExactlyTwentyMinutes(g: Game, tz: int)
    requires !g.isAutoGenerated || g.kickoffTime - CheckInLeadTime <= CheckInClosesAt(g.date, tz)
    ensures CanCheckIn(Some(g), g.kickoffTime - 20 * MsPerMinute, tz) == CheckInAllowed
  {
  }

  lemma ManualGamesStayOpen(g: Game, now: int, tz: int)
    requires !g.isAutoGenerated && g.kickoffTime - now <= CheckInLeadTime
    ensures CanCheckIn(Some(g), now, tz) == CheckInAllowed
  {
  }

  lemma AutoGamesCloseAfterMidnight(g: Game, now: int, tz: int)
    requires g.isAutoGenerated && g.kickoffTime - now <= CheckInLeadTime
    ensures CanCheckIn(Some(g), now, tz) == CheckInAllowed <==> now <= CheckInClosesAt(g.date, tz)
    ensures CanCheckIn(Some(g), now, tz) == CheckInEnded <==> now > CheckInClosesAt(g.date, tz)
  {
  }

  /** In a zone at or east of UTC the closing instant is the local midnight that starts the next day. */
  lemma CheckInClosesAtNextLocalMidnight(gameDate: int, tz: int)
    requires 0 <= tz < MsPerDay
    ensures CheckInClosesAt(gameDate, tz) + tz == (gameDate + 1) * MsPerDay
  {
    assert UtcMidnight(gameDate) + MsPerDay == UtcMidnight(gameDate + 1);
    LocalMidnightOfUtcMidnight(gameDate + 1, tz);
  }

  // ---- the lists shown ----

  /** Rows in registration order, as the `created_at` ordering of the query returns them. */
  predicate ByCreatedAt(s: seq<Registration>)
  {
    forall i, j :: 0 <= i < j < |s| ==> s[i].createdAt <= s[j].createdAt
  }

  /** Dropping rows keeps the remaining ones in registration order. */
  lemma SubsequenceByCreatedAt(sub: seq<Registration>, s: seq<Registration>)
    requires IsSubsequence(sub, s)
    ensures ByCreatedAt(s) ==> ByCreatedAt(sub)
  {
    if ByCreatedAt(s) {
      SubsequenceKeepsOrder(sub, s, (a: Registration, b: Registration) => a.createdAt <= b.createdAt);
    }
  }

  /** The active players, `filter(r => r.status === 'active')`: every active row, once per copy, in its order. */
  function ActiveRows(regs: seq<Registration>): (r: seq<Registration>)
    ensures IsSubsequence(r, regs)
    ensures forall x :: multiset(r)[x] == if x.status == Active then multiset(regs)[x] else 0
    ensures forall x :: x in r <==> x in regs && x.status == Active
    ensures ByCreatedAt(regs) ==> ByCreatedAt(r)
  {
    var p := (x: Registration) => x.status == Active;
    KeepCount(regs, p);
    SubsequenceByCreatedAt(Keep(regs, p), regs);
    Keep(regs, p)
  }

  /** The waiting rows before sorting: every standby row, once per copy, in its order. */
  function StandbyRows(regs: seq<Registration>): (r: seq<Registration>)
    ensures IsSubsequence(r, regs)
    ensures forall x :: multiset(r)[x] == if x.status == Standby then multiset(regs)[x] else 0
    ensures forall x :: x in r <==> x in regs && x.status == Standby
  {
    var p := (x: Registration) => x.status == Standby;
    KeepCount(regs, p);
    Keep(regs, p)
  }

  /** The standby sort key: the queue position, or MAX_SAFE_INTEGER when there is none. */
  function PositionKey(r: Registration): int
  {
    if r.queuePosition.Some? then r.queuePosition.value else MaxSafeInteger
  }

  /** The comparator's "negative" outcome: `a` sorts strictly before `b`. */
  predicate QueuedBefore(a: Registration, b: Registration)
  {
    PositionKey(a) < PositionKey(b) || (PositionKey(a) == PositionKey(b) && a.createdAt < b.createdAt)
  }

  predicate QueueOrdered(s: seq<Registration>)
  {
    forall i, j :: 0 <= i < j < |s| ==> !QueuedBefore(s[j], s[i])
  }

  /** Inserts `x` before the first element that does not sort strictly before it. */
  function InsertByQueue(x: Registration, s: seq<Registration>): (r: seq<Registration>)
    ensures multiset(r) == multiset(s) + multiset{x}
  {
    if s == [] then [x]
    else if QueuedBefore(s[0], x) then
      assert s == [s[0]] + s[1..];
      [s[0]] + InsertByQueue(x, s[1..])
    else
      [x] + s
  }

  lemma {:induction false} InsertKeepsOrder(x: Registration, s: seq<Registration>)
    requires QueueOrdered(s)
    ensures QueueOrdered(InsertByQueue(x, s))
  {
    if s != [] && QueuedBefore(s[0], x) {
      var rest := InsertByQueue(x, s[1..]);
      InsertKeepsOrder(x, s[1..]);
      forall y | y in rest ensures !QueuedBefore(y, s[0]) {
        assert y in multiset(rest);
        if y != x {
          assert y in multiset(s[1..]);
          var k :| 0 <= k < |s[1..]| && s[1..][k] == y;
          assert s[k + 1] == y;
        }
      }
      ConsOrdered(s[0], rest);
    } else if s != [] {
      forall y | y in s ensures !QueuedBefore(y, x) {
        var k :| 0 <= k < |s| && s[k] == y;
        assert k == 0 || !QueuedBefore(s[k], s[0]);
      }
      ConsOrdered(x, s);
    }
  }

  /** An element no later element sorts before can go in front of an ordered queue. */
  lemma ConsOrdered(h: Registration, s: seq<Registration>)
    requires QueueOrdered(s)
    requires forall y :: y in s ==> !QueuedBefore(y, h)
    ensures QueueOrdered([h] + s)
  {
    var r := [h] + s;
    forall i, j | 0 <= i < j < |r| ensures !QueuedBefore(r[j], r[i]) {
      assert r[j] == s[j - 1];
      if i > 0 {
        assert r[i] == s[i - 1];
      }
    }
  }


  /** The standby sort: a stable insertion sort by the queue comparator. */
  function SortByQueue(s: seq<Registration>): (r: seq<Registration>)
    ensures multiset(r) == multiset(s)
    ensures QueueOrdered(r)
  {
    if s == [] then []
    else
      assert s == [s[0]] + s[1..];
      InsertKeepsOrder(s[0], SortByQueue(s[1..]));
      InsertByQueue(s[0], SortByQueue(s[1..]))
  }

  /** Rows with the same sort key: neither sorts before the other. */
  predicate SameQueueKey(a: Registration, b: Registration)
  {
    PositionKey(a) == PositionKey(b) && a.createdAt == b.createdAt
  }

  /** Inserting `x` adds it in front of the rows of a class whose members never sort before one another. */
  lemma {:induction false} InsertKeepsTies(x: Registration, s: seq<Registration>, p: Registration -> bool)
    requires forall a, b :: QueuedBefore(a, b) ==> !(p(a) && p(b))
    ensures Keep(InsertByQueue(x, s), p) == (if p(x) then [x] else []) + Keep(s, p)
  {
    if s == [] {
    } else if QueuedBefore(s[0], x) {
      InsertKeepsTies(x, s[1..], p);
      var r := [s[0]] + InsertByQueue(x, s[1..]);
      assert r[1..] == InsertByQueue(x, s[1..]);
      assert !(p(s[0]) && p(x));
    } else {
      assert ([x] + s)[1..] == s;
    }
  }

  /** The sort is stable on such a class: its rows keep their loaded order. */
  lemma {:induction false} SortKeepsTies(s: seq<Registration>, p: Registration -> bool)
    requires forall a, b :: QueuedBefore(a, b) ==> !(p(a) && p(b))
    ensures Keep(SortByQueue(s), p) == Keep(s, p)
  {
    if s != [] {
      SortKeepsTies(s[1..], p);
      InsertKeepsTies(s[0], SortByQueue(s[1..]), p);
    }
  }

  /** `Array.prototype.sort` is stable: rows with equal position key and registration time
      appear in the waiting list in the order they were loaded. */
  lemma StandbyQueueIsStable(regs: seq<Registration>, k: Registration)
    ensures Keep(StandbyQueue(regs), x => SameQueueKey(x, k)) == Keep(StandbyRows(regs), x => SameQueueKey(x, k))
  {
    SortKeepsTies(StandbyRows(regs), x => SameQueueKey(x, k));
  }

  /** The waiting list as displayed. */
  function StandbyQueue(regs: seq<Registration>): seq<Registration>
  {
    SortByQueue(StandbyRows(regs))
  }

  /** The waiting list holds exactly the standby rows, in queue order: positions
      ascending with missing positions last, then registration time. */
  lemma StandbyQueueIsSortedPermutation(regs: seq<Registration>)
    ensures multiset(StandbyQueue(regs)) == multiset(StandbyRows(regs))
    ensures forall x :: x in StandbyQueue(regs) <==> x in regs && x.status == Standby
    ensures forall i, j :: 0 <= i < j < |StandbyQueue(regs)| ==>
      PositionKey(StandbyQueue(regs)[i]) <= PositionKey(StandbyQueue(regs)[j])
    ensures forall i, j ::
      (0 <= i < j < |StandbyQueue(regs)| && PositionKey(StandbyQueue(regs)[i]) == PositionKey(StandbyQueue(regs)[j]))
      ==> StandbyQueue(regs)[i].createdAt <= StandbyQueue(regs)[j].createdAt
  {
    var q := StandbyQueue(regs);
    forall x ensures x in q <==> x in regs && x.status == Standby {
      calc {
        x in q;
        x in multiset(q);
        x in multiset(StandbyRows(regs));
        x in StandbyRows(regs);
      }
      if x in regs && x.status == Standby {
        var i :| 0 <= i < |regs| && regs[i] == x;
      }
    }
  }

  /** A registration with a position sorts before every registration without one. */
  lemma PositionedBeforeUnpositioned(a: Registration, b: Registration)
    requires a.queuePosition.Some? && a.queuePosition.value < MaxSafeInteger
    requires b.queuePosition.None?
    ensures QueuedBefore(a, b)
  {
  }

  /** `findIndex` by registration id: -1 when absent. */
  function IndexById(s: seq<Registration>, id: RegistrationId): (i: int)
    ensures -1 <= i < |s|
    ensures i >= 0 ==> s[i].id == id && forall j :: 0 <= j < i ==> s[j].id != id
    ensures i == -1 ==> forall j :: 0 <= j < |s| ==> s[j].id != id
  {
    if s == [] then -1
    else if s[0].id == id then 0
    else
      var k := IndexById(s[1..], id);
      if k == -1 then -1 else k + 1
  }

  /** The queue position shown to a waiting player. */
  function QueuePositionShown(mine: Registration, queue: seq<Registration>): (p: int)
    ensures mine.queuePosition.Some? ==> p == mine.queuePosition.value
    ensures mine.queuePosition.None? && mine in queue ==>
      1 <= p <= |queue| && queue[p - 1].id == mine.id
    ensures mine.queuePosition.None? && (forall j :: 0 <= j < |queue| ==> queue[j].id != mine.id) ==> p == 0
  {
    if mine.queuePosition.Some? then mine.queuePosition.value else IndexById(queue, mine.id) + 1
  }

  // ---- loading and registering ----

  /** The rows the panel loads for a game: that game's rows whose status is not cancelled,
      in the table's order (the table is read in created_at order). */
  function LoadedRows(table: seq<Registration>, gameId: GameId): (r: seq<Registration>)
    ensures IsSubsequence(r, table)
    ensures forall x :: multiset(r)[x] == (if x.gameId == gameId && x.status != RegistrationStatus.Cancelled
                                           then multiset(table)[x] else 0)
    ensures forall x :: x in r <==> x in table && x.gameId == gameId && x.status != RegistrationStatus.Cancelled
    ensures ByCreatedAt(table) ==> ByCreatedAt(r)
  {
    var p := (x: Registration) => x.gameId == gameId && x.status != RegistrationStatus.Cancelled;
    KeepCount(table, p);
    SubsequenceByCreatedAt(Keep(table, p), table);
    Keep(table, p)
  }

  /** `rows.find(r => r.user_id === userId)`: the first row of that user. */
  function FirstOfUser(rows: seq<Registration>, userId: UserId): (r: Option<Registration>)
    ensures r.Some? ==> exists i :: 0 <= i < |rows| && rows[i] == r.value && r.value.userId == userId
                                    && forall j :: 0 <= j < i ==> rows[j].userId != userId
    ensures r.None? <==> forall x :: x in rows ==> x.userId != userId
  {
    if rows == [] then None
    else if rows[0].userId == userId then Some(rows[0])
    else
      var r := FirstOfUser(rows[1..], userId);
      if r.Some? then FirstOfUserInTail(rows, userId, r.value); r else r
  }

  /** The first row of a user in the tail is the first in the whole list when the head is another user's. */
  lemma FirstOfUserInTail(rows: seq<Registration>, userId: UserId, x: Registration)
    requires rows != [] && rows[0].userId != userId
    requires exists i :: 0 <= i < |rows[1..]| && rows[1..][i] == x && x.userId == userId
                         && forall j :: 0 <= j < i ==> rows[1..][j].userId != userId
    ensures exists i :: 0 <= i < |rows| && rows[i] == x && x.userId == userId
                        && forall j :: 0 <= j < i ==> rows[j].userId != userId
  {
    var i :| 0 <= i < |rows[1..]| && rows[1..][i] == x && x.userId == userId
             && forall j :: 0 <= j < i ==> rows[1..][j].userId != userId;
    assert rows[i + 1] == x;
    forall j | 0 <= j < i + 1 ensures rows[j].userId != userId {
      if j > 0 {
        assert rows[j] == rows[1..][j - 1];
      }
    }
  }

  datatype RegisterAction = Ignored | AlreadyRegistered | CallRegister(gameId: GameId)

  /** What pressing "register" does: nothing, a duplicate notice, or the procedure call. */
  function RegisterDecision(game: Option<Game>, user: Option<UserId>, profile: Option<Profile>, now: int,
                            userRegistration: Option<Registration>): (a: RegisterAction)
    ensures a.CallRegister? ==> game.Some? && user.Some? && CanRegister(game, profile, now)
    ensures a.CallRegister? ==> userRegistration.None? && a.gameId == game.value.id
    ensures game.Some? && user.Some? && CanRegister(game, profile, now) ==>
      (a == AlreadyRegistered <==> userRegistration.Some?)
      && (userRegistration.None? ==> a == CallRegister(game.value.id))
    ensures a == Ignored <==> game.None? || user.None? || !CanRegister(game, profile, now)
  {
    if game.None? || user.None? || !CanRegister(game, profile, now) then Ignored
    else if userRegistration.Some? then AlreadyRegistered
    else CallRegister(game.value.id)
  }

  /** Once a non-cancelled row of the player is loaded, no registration call is made. */
  lemma NoCallWhenRegistered(game: Game, table: seq<Registration>, user: UserId, profile: Option<Profile>, now: int, x: Registration)
    requires x in table && x.gameId == game.id && x.userId == user && x.status != RegistrationStatus.Cancelled
    ensures !RegisterDecision(Some(game), Some(user), profile, now, FirstOfUser(LoadedRows(table, game.id), user)).CallRegister?
  {
    assert x in LoadedRows(table, game.id);
  }

  datatype RegisterToast = Joined | Waitlisted | RegisterFailed(message: string)

  /** `result?.status ?? 'active'`: a missing result row reads as joining the game. */
  function RegisterOutcome(response: Result<seq<RegisterResult>, string>): (t: RegisterToast)
    ensures response.Failure? <==> t.RegisterFailed?
    ensures response.Success? && response.value == [] ==> t == Joined
    ensures response.Success? && response.value != [] ==>
      (t == Joined <==> response.value[0].status == Active)
  {
    match response
    case Failure(msg) => RegisterFailed(msg)
    case Success(rows) => if rows == [] || rows[0].status == Active then Joined else Waitlisted
  }

  datatype CancelToast = RegistrationCancelled | CancelFailed(message: string)

  /** The toast after the cancellation call: success, or the error's message. */
  function CancelOutcome(error: Option<string>): (t: CancelToast)
    ensures t == RegistrationCancelled <==> error.None?
    ensures t.CancelFailed? ==> t.message == error.value
  {
    if error.None? then RegistrationCancelled else CancelFailed(error.value)
  }

  /** The panel's state for the current game. */
  class RegistrationPanel {
    var currentGame: Option<Game>
    var registrations: seq<Registration>
    var userRegistration: Option<Registration>
    var registering: bool

    /** Every loaded row belongs to the current game and is not cancelled; the
        player's own row, when known, is one of them. */
    ghost predicate Valid()
      reads this
    {
      (registrations != [] ==> currentGame.Some?)
      && (forall x :: x in registrations ==>
            currentGame.Some? && x.gameId == currentGame.value.id && x.status != RegistrationStatus.Cancelled)
      && (userRegistration.Some? ==> userRegistration.value in registrations)
    }

    /** The panel after the next game was looked up (`maybeSingle` may find none). */
    constructor (game: Option<Game>)
      ensures Valid()
      ensures currentGame == game && registrations == [] && userRegistration.None? && !registering
    {
      currentGame := game;
      registrations := [];
      userRegistration := None;
      registering := false;
    }

    /** fetchRegistrations: reload the rows of the current game; a failed query changes nothing. */
    method Refresh(table: seq<Registration>, user: Option<UserId>, queryFailed: bool)
      requires Valid()
      modifies this
      ensures Valid()
      ensures currentGame == old(currentGame) && registering == old(registering)
      ensures old(currentGame).None? || queryFailed ==>
        registrations == old(registrations) && userRegistration == old(userRegistration)
      ensures old(currentGame).Some? && !queryFailed ==>
        registrations == LoadedRows(table, currentGame.value.id)
        && userRegistration == (if user.Some? then FirstOfUser(registrations, user.value) else None)
    {
      if currentGame.None? || queryFailed {
        return;
      }
      var rows := LoadedRows(table, currentGame.value.id);
      registrations := rows;
      if user.Some? {
        userRegistration := FirstOfUser(rows, user.value);
      } else {
        userRegistration := None;
      }
    }

    /** handleRegister up to the procedure call: `registering` is set only when the call is made. */
    method BeginRegister(user: Option<UserId>, profile: Option<Profile>, now: int) returns (action: RegisterAction)
      requires Valid()
      modifies this`registering
      ensures Valid()
      ensures action == RegisterDecision(currentGame, user, profile, now, userRegistration)
      ensures registering == (action.CallRegister? || old(registering))
    {
      action := RegisterDecision(currentGame, user, profile, now, userRegistration);
      if action.CallRegister? {
        registering := true;
      }
    }

    /** handleRegister after the call returned; the caller then refreshes on success. */
    method FinishRegister(response: Result<seq<RegisterResult>, string>) returns (toast: RegisterToast)
      requires Valid()
      modifies this`registering
      ensures Valid() && !registering
      ensures toast == RegisterOutcome(response)
    {
      toast := RegisterOutcome(response);
      registering := false;
    }

    /** handleCancelRegistration's guard: the game whose registration is cancelled, if any. */
    method BeginCancel(user: Option<UserId>) returns (call: Option<GameId>)
      requires Valid()
      modifies this`registering
      ensures Valid()
      ensures call.Some? <==> old(userRegistration).Some? && user.Some? && currentGame.Some?
      ensures call.Some? ==> call.value == currentGame.value.id && registering
      ensures call.None? ==> registering == old(registering)
    {
      if userRegistration.None? || user.None? || currentGame.None? {
        return None;
      }
      registering := true;
      call := Some(currentGame.value.id);
    }

    /** handleCancelRegistration after the call returned; the caller then refreshes on success. */
    method FinishCancel(error: Option<string>) returns (toast: CancelToast)
      requires Valid()
      modifies this`registering
      ensures Valid() && !registering
      ensures toast == CancelOutcome(error)
    {
      toast := CancelOutcome(error);
      registering := false;
    }

    /** The register button is shown to unregistered players and enabled when eligible and idle. */
    predicate RegisterButtonEnabled(profile: Option<Profile>, now: int)
      reads this
    {
      userRegistration.None? && !registering && CanRegister(currentGame, profile, now)
    }

    /** Pressing the enabled register button makes the procedure call for the current game. */
    lemma EnabledButtonCalls(user: UserId, profile: Option<Profile>, now: int)
      requires RegisterButtonEnabled(profile, now)
      ensures currentGame.Some?
      ensures RegisterDecision(currentGame, Some(user), profile, now, userRegistration) == CallRegister(currentGame.value.id)
    {
    }

    /** The register button's label, `getRegistrationStatusText()` as written: sign-up is offered only to
        an eligible player, "closed" never to one, and "residents only" never to a resident. */
    function ButtonLabel(profile: Option<Profile>, now: int): (l: RegistrationLabel)
      reads this
      ensures l == SignUp ==> CanRegister(currentGame, profile, now)
      ensures l == RegistrationClosed ==> !CanRegister(currentGame, profile, now)
      ensures l == ResidentsOnly ==> !IsResident(profile)
    {
      RegistrationStatusText(currentGame, profile, now)
    }

    /** The check-in scanner is offered to an active, not yet checked-in player inside the window. */
    predicate ShowsScanner(now: int, tz: int)
      reads this
    {
      userRegistration.Some?
      && userRegistration.value.status == Active
      && userRegistration.value.checkInStatus != CheckedIn
      && CanCheckIn(currentGame, now, tz) == CheckInAllowed
    }

    /** The waiting list shown: the loaded standby rows, each as often as loaded, in queue order. */
    function Waiting(): (w: seq<Registration>)
      reads this
      ensures multiset(w) == multiset(StandbyRows(registrations))
      ensures forall x :: x in w <==> x in registrations && x.status == Standby
      ensures QueueOrdered(w)
    {
      StandbyQueueIsSortedPermutation(registrations);
      StandbyQueue(registrations)
    }
  }
}
