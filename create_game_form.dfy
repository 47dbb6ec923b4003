// The admin form for creating a game by hand. Date inputs hold a day number or
// nothing (the empty string); time inputs hold a minute of the day or nothing.
module CreateGameForm {
  import opened Wrappers
  import opened Text
  import opened Clock
  import opened DbTypes

  /** The longest run of digits at the start of `s`. */
  function DigitRun(s: string): (r: string)
    ensures AllDigits(r) && StartsWith(s, r)
    ensures |r| < |s| ==> !IsDigit(s[|r|])
  {
    if s == [] || !IsDigit(s[0]) then ""
    else [s[0]] + DigitRun(s[1..])
  }

  /** `parseInt(text)` in base 10: leading whitespace, an optional sign, then digits; None is NaN. */
  function ParseInt(text: string): (r: Option<int>)
    ensures r.None? <==> var t := TrimStart(text);
      DigitRun(if t != [] && (t[0] == '+' || t[0] == '-') then t[1..] else t) == ""
  {
    var t := TrimStart(text);
    var negative := t != [] && t[0] == '-';
    var rest := if t != [] && (t[0] == '+' || t[0] == '-') then t[1..] else t;
    var run := DigitRun(rest);
    if run == "" then None
    else if negative then Some(-(ParseNat(run) as int))
    else Some(ParseNat(run))
  }

  lemma {:induction false} DigitRunOfDigits(s: string)
    requires AllDigits(s)
    ensures DigitRun(s) == s
  {
    if s != [] {
      DigitRunOfDigits(s[1..]);
    }
  }

  /** A number typed as decimal digits parses back to itself. */
  lemma ParseIntOfDecimal(n: nat)
    ensures ParseInt(NatToString(n)) == Some(n)
  {
    var s := NatToString(n);
    assert !IsWhitespace(s[0]);
    DigitRunOfDigits(s);
    ParseNatToString(n);
  }

  /** `parseInt(text) || fallback`: NaN and 0 both give the fallback. */
  function OrFallback(parsed: Option<int>, fallback: int): (r: int)
    ensures fallback != 0 ==> r != 0
    ensures parsed.Some? && parsed.value != 0 ==> r == parsed.value
    ensures (parsed.None? || parsed.value == 0) ==> r == fallback
  {
    if parsed.None? || parsed.value == 0 then fallback else parsed.value
  }

  /** A standby maximum of 0 cannot be entered: typing 0 stores 10. */
  lemma StandbyZeroCannotBeEntered(text: string)
    ensures OrFallback(ParseInt(text), 10) != 0
    ensures OrFallback(ParseInt("0"), 10) == 10
  {
    ParseIntOfDecimal(0);
    assert NatToString(0) == "0";
  }

  datatype SubmitOutcome = Refused | Created(insert: GameInsert) | InsertFailed(insert: GameInsert, message: string)

  class GameForm {
    var creating: bool
    var gameDate: Option<int>
    var kickoffTime: Option<int>
    var deadlineDate: Option<int>
    var deadlineTime: Option<int>
    var wave1Date: Option<int>
    var wave1Time: Option<int>
    var wave2Date: Option<int>
    var wave2Time: Option<int>
    var maxPlayers: int
    var maxStandby: int
    var status: GameStatus

    /** Kickoff 18:45, deadline 19:00, wave 1 at 12:00, wave 2 at 15:30, 15 players, 10 standby, scheduled. */
    constructor ()
      ensures !creating && gameDate.None? && deadlineDate.None? && wave1Date.None? && wave2Date.None?
      ensures kickoffTime == Some(18 * 60 + 45) && deadlineTime == Some(19 * 60)
      ensures wave1Time == Some(12 * 60) && wave2Time == Some(15 * 60 + 30)
      ensures maxPlayers == 15 && maxStandby == 10 && status == Scheduled
    {
      creating := false;
      gameDate := None;
      kickoffTime := Some(18 * 60 + 45);
      deadlineDate := None;
      deadlineTime := Some(19 * 60);
      wave1Date := None;
      wave1Time := Some(12 * 60);
      wave2Date := None;
      wave2Time := Some(15 * 60 + 30);
      maxPlayers := 15;
      maxStandby := 10;
      status := Scheduled;
    }

    /** handleGameDateChange: a chosen date becomes the deadline date, and the day before it both wave dates. */
    method GameDateChanged(date: Option<int>)
      modifies this`gameDate, this`deadlineDate, this`wave1Date, this`wave2Date
      ensures gameDate == date
      ensures date.Some? ==> deadlineDate == date && wave1Date == Some(date.value - 1) && wave2Date == Some(date.value - 1)
      ensures date.None? ==> deadlineDate == old(deadlineDate) && wave1Date == old(wave1Date) && wave2Date == old(wave2Date)
    {
      gameDate := date;
      if date.Some? {
        deadlineDate := date;
        // new Date(date) is UTC midnight; one local day earlier is UTC midnight of the day before
        var friday := UtcMidnight(date.value) - MsPerDay;
        wave1Date := Some(UtcDay(friday));
        wave2Date := Some(UtcDay(friday));
      }
    }

    method MaxPlayersEdited(text: string)
      modifies this`maxPlayers
      ensures maxPlayers == OrFallback(ParseInt(text), 15)
    {
      maxPlayers := OrFallback(ParseInt(text), 15);
    }

    method MaxStandbyEdited(text: string)
      modifies this`maxStandby
      ensures maxStandby == OrFallback(ParseInt(text), 10)
    {
      maxStandby := OrFallback(ParseInt(text), 10);
    }

    method StatusChosen(s: GameStatus)
      modifies this`status
      ensures status == s
    {
      status := s;
    }

    /** Submission is refused unless the game date, kickoff time, deadline date and deadline time are set. */
    predicate RequiredFilled()
      reads this
    {
      gameDate.Some? && kickoffTime.Some? && deadlineDate.Some? && deadlineTime.Some?
    }

    /** The row handleSubmit inserts, in a zone `tz` milliseconds east of UTC. */
    function Insert(tz: int): (g: GameInsert)
      reads this
      requires RequiredFilled()
      ensures g.date == gameDate.value && !g.isAutoGenerated && g.status == status
      ensures g.maxPlayers == maxPlayers && g.maxStandby == maxStandby
      ensures g.kickoffTime + tz == gameDate.value * MsPerDay + kickoffTime.value * MsPerMinute
      ensures g.deadlineTime + tz == deadlineDate.value * MsPerDay + deadlineTime.value * MsPerMinute
      ensures g.wave1RegistrationOpensAt.Some? <==> wave1Date.Some? && wave1Time.Some?
      ensures g.registrationOpensAt.Some? <==> wave2Date.Some? && wave2Time.Some?
      ensures g.wave1RegistrationOpensAt.Some? ==>
        g.wave1RegistrationOpensAt.value + tz == wave1Date.value * MsPerDay + wave1Time.value * MsPerMinute
      ensures g.registrationOpensAt.Some? ==>
        g.registrationOpensAt.value + tz == wave2Date.value * MsPerDay + wave2Time.value * MsPerMinute
    {
      var wave1 := if wave1Date.Some? && wave1Time.Some? then Some(LocalDateTime(wave1Date.value, wave1Time.value, tz)) else None;
      var wave2 := if wave2Date.Some? && wave2Time.Some? then Some(LocalDateTime(wave2Date.value, wave2Time.value, tz)) else None;
      GameInsert(gameDate.value, LocalDateTime(deadlineDate.value, deadlineTime.value, tz),
                 LocalDateTime(gameDate.value, kickoffTime.value, tz), status, false,
                 maxPlayers, maxStandby, wave2, wave1)
    }

    /** handleSubmit; `insertError` is what the insert returns. */
    method Submit(tz: int, insertError: Option<string>) returns (outcome: SubmitOutcome)
      modifies this`creating
      ensures !RequiredFilled() <==> outcome == Refused
      ensures creating == (if outcome == Refused then old(creating) else false)
      ensures RequiredFilled() && insertError.None? ==> outcome == Created(Insert(tz))
      ensures RequiredFilled() && insertError.Some? ==> outcome == InsertFailed(Insert(tz), insertError.value)
    {
      if !RequiredFilled() {
        return Refused;
      }
      creating := true;
      var insert := Insert(tz);
      if insertError.Some? {
        outcome := InsertFailed(insert, insertError.value);
      } else {
        outcome := Created(insert);
      }
      creating := false;
    }
  }
}
