// The admin games screen: the late-swap summary kept per game, the test-game
// configuration form and its client-side validation, and the small formatters
// used to display times and user ids.
module GameManagement {
  import opened Wrappers
  import opened Text
  import opened Clock
  import opened DbTypes
  import TestGameCreate

  // ---- JavaScript numbers as the form produces them ----

  /** A form number: an integer or NaN (non-integer numerals are not modelled). */
  datatype JsNum = NaN | Num(v: int)

  /** `Number(text)` for the integer numerals a number input yields. */
  function ToNumber(text: string): (n: JsNum)
    ensures Trim(text) == "" ==> n == Num(0)
    ensures AllDigits(Trim(text)) && Trim(text) != "" ==> n == Num(ParseNat(Trim(text)))
  {
    var t := Trim(text);
    if t == "" then Num(0)
    else if AllDigits(t) then Num(ParseNat(t))
    else if |t| > 1 && t[0] == '+' && AllDigits(t[1..]) then Num(ParseNat(t[1..]))
    else if |t| > 1 && t[0] == '-' && AllDigits(t[1..]) then Num(-(ParseNat(t[1..]) as int))
    else NaN
  }

  lemma ToNumberOfDecimal(n: nat)
    ensures ToNumber(NatToString(n)) == Num(n)
  {
    var s := NatToString(n);
    assert s[0] != ' ' && s[|s| - 1] != ' ';
    TrimOfNonWhitespaceEnds(s);
    ParseNatToString(n);
  }

  /** Comparisons with NaN are false. */
  predicate AtMost(a: JsNum, b: int) { a.Num? && a.v <= b }
  predicate Below(a: JsNum, b: int) { a.Num? && a.v < b }
  predicate Exceeds(a: JsNum, b: JsNum) { a.Num? && b.Num? && a.v > b.v }

  // ---- the test-game form ----

  datatype TestConfig = TestConfig(
    maxPlayers: JsNum,
    maxStandby: JsNum,
    activeCount: JsNum,
    standbyCount: JsNum,
    kickoffTime: string,
    deadlineTime: string)

  datatype ConfigKey = MaxPlayersKey | MaxStandbyKey | ActiveCountKey | StandbyCountKey | KickoffTimeKey | DeadlineTimeKey

  /** The property name of each form key. */
  function KeyName(k: ConfigKey): string
  {
    match k
    case MaxPlayersKey => "maxPlayers"
    case MaxStandbyKey => "maxStandby"
    case ActiveCountKey => "activeCount"
    case StandbyCountKey => "standbyCount"
    case KickoffTimeKey => "kickoffTime"
    case DeadlineTimeKey => "deadlineTime"
  }

  /** updateTestConfig: keys whose name contains "Time" keep the text, the others store Number(text). */
  function UpdateTestConfig(c: TestConfig, key: ConfigKey, value: string): TestConfig
  {
    if Contains(KeyName(key), "Time") then
      (if key == KickoffTimeKey then c.(kickoffTime := value) else c.(deadlineTime := value))
    else
      match key
      case MaxPlayersKey => c.(maxPlayers := ToNumber(value))
      case MaxStandbyKey => c.(maxStandby := ToNumber(value))
      case ActiveCountKey => c.(activeCount := ToNumber(value))
      case _ => c.(standbyCount := ToNumber(value))
  }

  lemma TimeKeysAreTheTimeFields(key: ConfigKey)
    ensures Contains(KeyName(key), "Time") <==> key == KickoffTimeKey || key == DeadlineTimeKey
  {
    match key
    case KickoffTimeKey => TimeAt("kickoffTime", 7);
    case DeadlineTimeKey => TimeAt("deadlineTime", 8);
    case _ =>
      NotContainedWithoutFirstChar(KeyName(key), "Time");
  }

  lemma TimeAt(name: string, i: nat)
    requires i + 4 <= |name| && name[i] == 'T' && name[i + 1] == 'i' && name[i + 2] == 'm' && name[i + 3] == 'e'
    ensures Contains(name, "Time")
  {
    assert name[i..i + 4] == "Time";
    ContainsAt(name, "Time", i);
  }

  /** Editing one field leaves every other field as it was; times keep the text, numbers are converted. */
  lemma UpdateTestConfigChangesOneField(c: TestConfig, key: ConfigKey, value: string)
    ensures var d := UpdateTestConfig(c, key, value);
      d.kickoffTime == (if key == KickoffTimeKey then value else c.kickoffTime)
      && d.deadlineTime == (if key == DeadlineTimeKey then value else c.deadlineTime)
      && d.maxPlayers == (if key == MaxPlayersKey then ToNumber(value) else c.maxPlayers)
      && d.maxStandby == (if key == MaxStandbyKey then ToNumber(value) else c.maxStandby)
      && d.activeCount == (if key == ActiveCountKey then ToNumber(value) else c.activeCount)
      && d.standbyCount == (if key == StandbyCountKey then ToNumber(value) else c.standbyCount)
  {
    TimeKeysAreTheTimeFields(key);
  }

  datatype ClientError = BadMaxima | NegativeCounts | ActiveOverMax | StandbyOverMax | BadTimes | KickoffNotBefore

  /** createTestGame's checks, in order; the times are the parsed form values. */
  function ClientValidate(c: TestConfig, kickoff: Instant, deadline: Instant): Option<ClientError>
  {
    if AtMost(c.maxPlayers, 0) || Below(c.maxStandby, 0) then Some(BadMaxima)
    else if Below(c.activeCount, 0) || Below(c.standbyCount, 0) then Some(NegativeCounts)
    else if Exceeds(c.activeCount, c.maxPlayers) then Some(ActiveOverMax)
    else if Exceeds(c.standbyCount, c.maxStandby) then Some(StandbyOverMax)
    else if kickoff.InvalidDate? || deadline.InvalidDate? then Some(BadTimes)
    else if kickoff.ms >= deadline.ms then Some(KickoffNotBefore)
    else None
  }

  predicate AllNumbers(c: TestConfig)
  {
    c.maxPlayers.Num? && c.maxStandby.Num? && c.activeCount.Num? && c.standbyCount.Num?
  }

  /** The request body the form sends; the batch id is the first 8 characters of a UUID. */
  function TestGameRequest(c: TestConfig, kickoff: Instant, deadline: Instant, uuid: string): TestGameCreate.Payload
    requires AllNumbers(c)
  {
    TestGameCreate.Payload(kickoff, deadline, c.maxPlayers.v, c.maxStandby.v, c.activeCount.v, c.standbyCount.v,
                           Some(Prefix(uuid, 8)))
  }

  /** With numeric fields and a non-blank batch id, the form accepts exactly what the edge function accepts. */
  lemma ClientAgreesWithServer(c: TestConfig, kickoff: Instant, deadline: Instant, uuid: string)
    requires AllNumbers(c)
    requires Trim(Prefix(uuid, 8)) != ""
    ensures ClientValidate(c, kickoff, deadline).None? <==>
            TestGameCreate.ValidatePayload(TestGameRequest(c, kickoff, deadline, uuid)).None?
  {
    var p := TestGameRequest(c, kickoff, deadline, uuid);
    assert !TestGameCreate.BlankBatchId(p.batchId);
    TestGameCreate.ValidatePayloadAcceptsExactlyValid(p);
    ClientValidateAccepts(c, kickoff, deadline);
  }

  lemma ClientValidateAccepts(c: TestConfig, kickoff: Instant, deadline: Instant)
    requires AllNumbers(c)
    ensures ClientValidate(c, kickoff, deadline).None? <==> ClientAccepts(c, kickoff, deadline)
  {
  }

  /** What the form's checks accept, for numeric fields. */
  predicate ClientAccepts(c: TestConfig, kickoff: Instant, deadline: Instant)
    requires AllNumbers(c)
  {
    c.maxPlayers.v > 0 && c.maxStandby.v >= 0 && c.activeCount.v >= 0 && c.standbyCount.v >= 0
    && c.activeCount.v <= c.maxPlayers.v && c.standbyCount.v <= c.maxStandby.v
    && kickoff.At? && deadline.At? && kickoff.ms < deadline.ms
  }

  /** The form checks the times last, the edge function first: with bad maxima and a bad time
      the form reports the maxima and the edge function the times, whatever the batch id. */
  lemma TimesCheckedInOppositeOrder(c: TestConfig, kickoff: Instant, deadline: Instant, uuid: string)
    requires AllNumbers(c) && (AtMost(c.maxPlayers, 0) || Below(c.maxStandby, 0))
    requires kickoff.InvalidDate? || deadline.InvalidDate?
    ensures ClientValidate(c, kickoff, deadline) == Some(BadMaxima)
    ensures TestGameCreate.ValidatePayload(TestGameRequest(c, kickoff, deadline, uuid)) == Some(TestGameCreate.InvalidTimes)
  {
  }

  /** A NaN maximum is not caught by the form, because every comparison with NaN is false. The
      `type="number"` inputs never yield NaN (an empty field is `Number("") == 0`), so this case
      arises only for text those inputs do not produce. */
  lemma NaNMaximumPassesForm(k: int, d: int)
    requires k < d
    ensures ClientValidate(TestConfig(NaN, NaN, Num(3), Num(2), "", ""), At(k), At(d)).None?
  {
  }

  /** The moment the app runs in the browser's local calendar. */
  datatype CalendarTime = CalendarTime(year: nat, monthIndex: nat, day: nat, hours: nat, minutes: nat)

  /** `String(v).padStart(2, '0')` */
  function Pad(v: nat): string
  {
    var s := NatToString(v);
    if |s| < 2 then "0" + s else s
  }

  lemma {:induction false} PadTwoDigits(v: nat)
    requires v < 100
    ensures |Pad(v)| == 2 && AllDigits(Pad(v)) && ParseNat(Pad(v)) == v
  {
    ParseNatToString(v);
    if v >= 10 {
      NatToStringOneDigit(v / 10);
    } else {
      var s := NatToString(v);
      assert Pad(v) == "0" + s;
      assert ("0" + s)[..1] == "0";
    }
  }

  /** `YYYY-MM-DDTHH:MM`, the value of a datetime-local input. */
  function ToLocalInputValue(t: CalendarTime): string
  {
    NatToString(t.year) + "-" + Pad(t.monthIndex + 1) + "-" + Pad(t.day) + "T" + Pad(t.hours) + ":" + Pad(t.minutes)
  }

  lemma FourDigitYear(y: nat)
    requires 1000 <= y <= 9999
    ensures |NatToString(y)| == 4
  {
    NatToStringOneDigit(y / 1000);
    assert NatToString(y / 100) == NatToString(y / 1000) + [DigitChar((y / 100) % 10)];
    assert NatToString(y / 10) == NatToString(y / 100) + [DigitChar((y / 10) % 10)];
  }

  lemma {:induction false} ToLocalInputValueShape(t: CalendarTime)
    requires 1000 <= t.year <= 9999 && t.monthIndex < 12 && 1 <= t.day <= 31 && t.hours < 24 && t.minutes < 60
    ensures var s := ToLocalInputValue(t);
      |s| == 16 && s[4] == '-' && s[7] == '-' && s[10] == 'T' && s[13] == ':'
      && s[..4] == NatToString(t.year) && s[5..7] == Pad(t.monthIndex + 1) && s[8..10] == Pad(t.day)
      && s[11..13] == Pad(t.hours) && s[14..] == Pad(t.minutes)
  {
    FourDigitYear(t.year);
    PadTwoDigits(t.monthIndex + 1);
    PadTwoDigits(t.day);
    PadTwoDigits(t.hours);
    PadTwoDigits(t.minutes);
    FieldPositions(NatToString(t.year), Pad(t.monthIndex + 1), Pad(t.day), Pad(t.hours), Pad(t.minutes));
  }

  /** Where the five fields and the separators sit in `y-mo-dTh:mi`. */
  lemma FieldPositions(y: string, mo: string, d: string, h: string, mi: string)
    requires |y| == 4 && |mo| == 2 && |d| == 2 && |h| == 2 && |mi| == 2
    ensures var s := y + "-" + mo + "-" + d + "T" + h + ":" + mi;
      |s| == 16 && s[4] == '-' && s[7] == '-' && s[10] == 'T' && s[13] == ':'
      && s[..4] == y && s[5..7] == mo && s[8..10] == d && s[11..13] == h && s[14..] == mi
  {
    var a := y + "-" + mo;
    var b := a + "-" + d;
    var c := b + "T" + h;
    var s := c + ":" + mi;
    assert a[..4] == y && a[5..7] == mo;
    assert b[..7] == a && b[8..10] == d;
    assert c[..10] == b && c[11..13] == h;
    assert s[..13] == c && s[14..] == mi;
    assert s[..4] == c[..10][..7][..4];
    assert s[5..7] == c[..10][..7][5..7];
    assert s[8..10] == c[..10][8..10];
  }

  /** The initial form: 20 players, 5 standby, 15 active, 5 waiting, kickoff in one minute, deadline in two. */
  function InitialTestConfig(kickoffLocal: CalendarTime, deadlineLocal: CalendarTime): TestConfig
  {
    TestConfig(Num(20), Num(5), Num(15), Num(5), ToLocalInputValue(kickoffLocal), ToLocalInputValue(deadlineLocal))
  }

  lemma InitialCountsPass(kickoffLocal: CalendarTime, deadlineLocal: CalendarTime, k: int, d: int)
    requires k < d
    ensures ClientValidate(InitialTestConfig(kickoffLocal, deadlineLocal), At(k), At(d)).None?
  {
  }

  // ---- formatters ----

  /** formatTime: '' stays '', a timestamp is rendered by the locale, a time of day is cut to HH:MM. */
  function FormatTime(value: string, localize: string -> string): (r: string)
    ensures value == "" ==> r == ""
    ensures value != "" && !Contains(value, "T") ==> r == Prefix(value, 5)
    ensures value != "" && Contains(value, "T") ==> r == localize(value)
  {
    if value == "" then ""
    else if Contains(value, "T") then localize(value)
    else Prefix(value, 5)
  }

  // ---- the late-swap summary ----

  /** The value of `obj.key`; None is `undefined`. A repeated key takes its last value, as JSON.parse does. */
  function Field(obj: Json, key: string): Option<Json>
  {
    if obj.JObject? then FindLast(obj.fields, key) else None
  }

  function FindLast(fields: seq<(string, Json)>, key: string): Option<Json>
  {
    if fields == [] then None
    else if fields[|fields| - 1].0 == key then Some(fields[|fields| - 1].1)
    else FindLast(fields[..|fields| - 1], key)
  }

  /** `Boolean(v)` for a JSON value or undefined. */
  predicate Truthy(v: Option<Json>)
  {
    v.Some? &&
    match v.value
    case JNull => false
    case JBool(b) => b
    case JNumber(n) => n != 0
    case JString(s) => s != ""
    case _ => true
  }

  /** `[swap.promoted_user_id, swap.demoted_user_id]` for each swap, dropping falsy ids;
      None when some swap is null, where the property read throws. */
  function SwapUsers(swaps: seq<Json>): (r: Option<seq<Json>>)
    ensures r.Some? <==> forall k :: 0 <= k < |swaps| ==> swaps[k] != JNull
  {
    if swaps == [] then Some([])
    else if swaps[0] == JNull then None
    else
      match SwapUsers(swaps[1..])
      case None => None
      case Some(rest) =>
        var p := Field(swaps[0], "promoted_user_id");
        var d := Field(swaps[0], "demoted_user_id");
        Some((if Truthy(p) then [p.value] else []) + (if Truthy(d) then [d.value] else []) + rest)
  }

  /** `Array.from(new Set(xs))`: each value once, at its first occurrence. */
  function FirstOccurrences<T(==)>(xs: seq<T>): (r: seq<T>)
  {
    if xs == [] then []
    else
      var init := xs[..|xs| - 1];
      var last := xs[|xs| - 1];
      FirstOccurrences(init) + (if last in init then [] else [last])
  }

  function FirstIndex<T(==)>(xs: seq<T>, x: T): (i: nat)
    requires x in xs
    ensures i < |xs| && xs[i] == x && x !in xs[..i]
  {
    if xs[0] == x then 0 else 1 + FirstIndex(xs[1..], x)
  }

  lemma FirstIndexOfPrefix<T>(xs: seq<T>, y: T, x: T)
    requires x in xs
    ensures FirstIndex(xs + [y], x) == FirstIndex(xs, x)
  {
    var i := FirstIndex(xs, x);
    var j := FirstIndex(xs + [y], x);
    assert (xs + [y])[i] == x;
    assert xs[..i] == (xs + [y])[..i];
  }

  /** The summary list holds every id once, exactly the ids of the input, in order of first occurrence. */
  lemma {:induction false} FirstOccurrencesSpec<T>(xs: seq<T>)
    ensures forall x :: x in FirstOccurrences(xs) <==> x in xs
    ensures forall i, j :: 0 <= i < j < |FirstOccurrences(xs)| ==> FirstOccurrences(xs)[i] != FirstOccurrences(xs)[j]
    ensures forall i, j :: 0 <= i < j < |FirstOccurrences(xs)| ==>
      FirstIndex(xs, FirstOccurrences(xs)[i]) < FirstIndex(xs, FirstOccurrences(xs)[j])
  {
    if xs != [] {
      var init := xs[..|xs| - 1];
      var last := xs[|xs| - 1];
      assert xs == init + [last];
      FirstOccurrencesSpec(init);
      var f := FirstOccurrences(init);
      var r := FirstOccurrences(xs);
      forall x | x in init ensures FirstIndex(xs, x) == FirstIndex(init, x) {
        FirstIndexOfPrefix(init, last, x);
      }
      if last !in init {
        assert r == f + [last];
        assert FirstIndex(xs, last) == |init|;
        forall i, j | 0 <= i < j < |r| ensures FirstIndex(xs, r[i]) < FirstIndex(xs, r[j]) {
          if j == |r| - 1 {
            assert r[i] == f[i] && f[i] in f;
          } else {
            assert r[i] == f[i] && r[j] == f[j];
          }
        }
        forall i, j | 0 <= i < j < |r| ensures r[i] != r[j] {
          if j == |r| - 1 {
            assert r[i] in f;
          } else {
            assert r[i] == f[i] && r[j] == f[j];
          }
        }
      } else {
        assert r == f;
      }
    }
  }

  datatype SwapSummary = SwapSummary(count: int, users: seq<Json>)

  /** The summary of a `process_late_swaps` response; None when reading the swaps throws. */
  function Summarise(rows: seq<LateSwapResult>): (s: Option<SwapSummary>)
    ensures rows == [] ==> s == Some(SwapSummary(0, []))
    ensures rows != [] && !rows[0].swaps.JArray? ==> s == Some(SwapSummary(rows[0].swapsCount, []))
    ensures s.Some? && rows != [] ==> s.value.count == rows[0].swapsCount
  {
    if rows == [] then Some(SwapSummary(0, []))
    else
      var swaps := if rows[0].swaps.JArray? then rows[0].swaps.items else [];
      match SwapUsers(swaps)
      case None => None
      case Some(users) => Some(SwapSummary(rows[0].swapsCount, FirstOccurrences(users)))
  }

  /** Each summarised id is a truthy promoted or demoted id of some swap, and appears once. */
  lemma {:induction false} SwapUsersAreSwapIds(swaps: seq<Json>, u: Json)
    requires SwapUsers(swaps).Some? && u in SwapUsers(swaps).value
    ensures exists k :: (0 <= k < |swaps| &&
      ((Truthy(Field(swaps[k], "promoted_user_id")) && Field(swaps[k], "promoted_user_id") == Some(u))
       || (Truthy(Field(swaps[k], "demoted_user_id")) && Field(swaps[k], "demoted_user_id") == Some(u))))
  {
    var p := Field(swaps[0], "promoted_user_id");
    var d := Field(swaps[0], "demoted_user_id");
    var rest := SwapUsers(swaps[1..]).value;
    if !((Truthy(p) && p == Some(u)) || (Truthy(d) && d == Some(u))) {
      assert u in rest;
      SwapUsersAreSwapIds(swaps[1..], u);
      var k :| 0 <= k < |swaps[1..]| &&
        ((Truthy(Field(swaps[1..][k], "promoted_user_id")) && Field(swaps[1..][k], "promoted_user_id") == Some(u))
         || (Truthy(Field(swaps[1..][k], "demoted_user_id")) && Field(swaps[1..][k], "demoted_user_id") == Some(u)));
      assert swaps[1..][k] == swaps[k + 1];
    }
  }

  /** The summary line's id part: the first three ids cut to 8 characters, and how many more there are.
      None when one of the shown ids is not a string (formatting it would throw). */
  datatype UsersLine = UsersLine(shown: seq<string>, more: Option<nat>)

  function SwapUsersLine(users: seq<Json>): (r: Option<UsersLine>)
    ensures r.Some? ==> |r.value.shown| == if |users| < 3 then |users| else 3
    ensures r.Some? ==> (r.value.more.Some? <==> |users| > 3)
    ensures r.Some? && |users| > 3 ==> r.value.more.value == |users| - 3
    ensures r.Some? ==> forall k :: 0 <= k < |r.value.shown| ==>
      users[k].JString? && r.value.shown[k] == Prefix(users[k].s, 8)
  {
    var first := if |users| < 3 then users else users[..3];
    if forall k :: 0 <= k < |first| ==> first[k].JString? then
      Some(UsersLine(seq(|first|, k requires 0 <= k < |first| => Prefix(first[k].s, 8)),
                     if |users| > 3 then Some(|users| - 3) else None))
    else None
  }

  // ---- the screen's state ----

  datatype CreateResponse = CreateResponse(gameId: Option<string>, userIds: Option<seq<string>>)

  class GameManagementScreen {
    var swapResults: map<GameId, SwapSummary>
    var swapRunningId: Option<GameId>
    var testConfig: TestConfig
    var testGameId: Option<string>
    var testUserIds: seq<string>
    var testBatchId: Option<string>
    var testCreating: bool

    constructor (kickoffLocal: CalendarTime, deadlineLocal: CalendarTime)
      ensures swapResults == map[] && swapRunningId.None? && !testCreating
      ensures testConfig == InitialTestConfig(kickoffLocal, deadlineLocal)
      ensures testGameId.None? && testUserIds == [] && testBatchId.None?
    {
      swapResults := map[];
      swapRunningId := None;
      testConfig := InitialTestConfig(kickoffLocal, deadlineLocal);
      testGameId := None;
      testUserIds := [];
      testBatchId := None;
      testCreating := false;
    }

    /** runLateSwaps: only the entry of this game changes, and only when the response could be read. */
    method RunLateSwaps(gameId: GameId, response: Result<seq<LateSwapResult>, string>) returns (ok: bool)
      modifies this`swapResults, this`swapRunningId
      ensures swapRunningId.None?
      ensures ok <==> response.Success? && Summarise(response.value).Some?
      ensures ok ==> swapResults == old(swapResults)[gameId := Summarise(response.value).value]
      ensures !ok ==> swapResults == old(swapResults)
      ensures forall g :: g != gameId ==> (g in swapResults <==> g in old(swapResults))
      ensures forall g :: g != gameId && g in swapResults ==> swapResults[g] == old(swapResults)[g]
    {
      swapRunningId := Some(gameId);
      ok := false;
      if response.Success? {
        var summary := Summarise(response.value);
        if summary.Some? {
          swapResults := swapResults[gameId := summary.value];
          ok := true;
        }
      }
      swapRunningId := None;
    }

    method EditTestConfig(key: ConfigKey, value: string)
      modifies this`testConfig
      ensures testConfig == UpdateTestConfig(old(testConfig), key, value)
    {
      testConfig := UpdateTestConfig(testConfig, key, value);
    }

    /** createTestGame: validation, the request (when made) and the stored result. */
    method CreateTestGame(kickoff: Instant, deadline: Instant, uuid: string, response: Result<CreateResponse, string>)
      returns (request: Option<TestGameCreate.Payload>)
      modifies this`testGameId, this`testUserIds, this`testBatchId, this`testCreating
      ensures !testCreating
      ensures request.Some? <==> ClientValidate(old(testConfig), kickoff, deadline).None? && AllNumbers(old(testConfig))
      ensures request.Some? ==> request.value == TestGameRequest(testConfig, kickoff, deadline, uuid)
      ensures request.Some? && response.Success? && response.value.gameId.Some? && response.value.gameId.value != "" ==>
        testGameId == response.value.gameId && testBatchId == Some(Prefix(uuid, 8))
        && testUserIds == (if response.value.userIds.Some? then response.value.userIds.value else [])
      ensures !(request.Some? && response.Success? && response.value.gameId.Some? && response.value.gameId.value != "") ==>
        testGameId == old(testGameId) && testUserIds == old(testUserIds) && testBatchId == old(testBatchId)
    {
      if ClientValidate(testConfig, kickoff, deadline).Some? || !AllNumbers(testConfig) {
        testCreating := false;
        return None;
      }
      testCreating := true;
      request := Some(TestGameRequest(testConfig, kickoff, deadline, uuid));
      if response.Success? && response.value.gameId.Some? && response.value.gameId.value != "" {
        testGameId := response.value.gameId;
        testUserIds := if response.value.userIds.Some? then response.value.userIds.value else [];
        testBatchId := Some(Prefix(uuid, 8));
      }
      testCreating := false;
    }
  }
}
