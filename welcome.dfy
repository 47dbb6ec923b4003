// The first-time profile screen. Unlike the other screens it normalises a
// number given with the 972 country code back to its local form before
// validating, so `+972 50-123-4567` is accepted here.
module Welcome {
  import opened Wrappers
  import opened Text
  import opened Phone
  import opened DbTypes

  /** normalizeToLocalDigits: strip non-digits; twelve digits starting 972 become 0 and the rest. */
  function NormalizeToLocalDigits(phone: string): (r: string)
    ensures AllDigits(r)
    ensures var d := Digits(phone);
      (StartsWith(d, "972") && |d| == 12 ==> r == "0" + d[3..] && |r| == 10)
      && (!(StartsWith(d, "972") && |d| == 12) ==> r == d)
  {
    var digits := Digits(phone);
    if StartsWith(digits, "972") && |digits| == 12 then "0" + digits[3..] else digits
  }

  lemma NormalizeIdempotent(phone: string)
    ensures NormalizeToLocalDigits(NormalizeToLocalDigits(phone)) == NormalizeToLocalDigits(phone)
  {
    var n := NormalizeToLocalDigits(phone);
    DigitsOfDigits(n);
    if |n| == 12 {
      // n is the plain digit string, which does not start with 972 (it would have been rewritten)
      assert n == Digits(phone);
    }
  }

  /** validatePhoneNumber on the normalised digits. */
  function ValidateWelcomePhone(phone: string): (c: PhoneCheck)
    ensures c == PhoneValid ==> |NormalizeToLocalDigits(phone)| == 10 && StartsWith(NormalizeToLocalDigits(phone), "05")
  {
    CheckLocalDigits(NormalizeToLocalDigits(phone))
  }

  /** Any number given as +972 and nine digits starting 5 is accepted. */
  lemma InternationalInputAccepted(rest: string)
    requires |rest| == 9 && AllDigits(rest) && rest[0] == '5'
    ensures ValidateWelcomePhone("+972" + rest) == PhoneValid
    ensures NormalizeToLocalDigits("+972" + rest) == "0" + rest
  {
    DigitsOfInternational(rest);
    var d := Digits("+972" + rest);
    assert d[..3] == "972";
    assert d[3..] == rest;
    assert ("0" + rest)[..2] == "05";
  }

  /** formatToInternational on the normalised digits; a number not starting 0 gets only a `+`. */
  function FormatToInternationalWelcome(phone: string): (r: string)
    ensures var d := NormalizeToLocalDigits(phone);
      (StartsWith(d, "0") ==> r == "+972" + d[1..]) && (!StartsWith(d, "0") ==> r == "+" + d)
  {
    var digits := NormalizeToLocalDigits(phone);
    if !StartsWith(digits, "0") then "+" + digits else "+972" + digits[1..]
  }

  /** For a valid number: thirteen characters, and formatToLocal undoes it to the normalised digits. */
  lemma {:induction false} WelcomeRoundTrip(phone: string)
    requires ValidateWelcomePhone(phone) == PhoneValid
    ensures |FormatToInternationalWelcome(phone)| == 13
    ensures FormatToLocal(FormatToInternationalWelcome(phone)) == NormalizeToLocalDigits(phone)
  {
    var d := NormalizeToLocalDigits(phone);
    assert d[..2][0] == '0';
    assert StartsWith(d, "0") by {
      assert d[..1] == [d[0]];
    }
    var r := FormatToInternationalWelcome(phone);
    assert r == "+972" + d[1..];
    assert r[..4] == "+972";
    assert r[4..] == d[1..];
    assert d == [d[0]] + d[1..];
  }

  datatype PhoneStep = EnterPhone | EnterOtp

  /** The profile update handleSave writes. */
  datatype WelcomeUpdate = WelcomeUpdate(fullName: string, phoneNumber: string, isResident: bool)

  datatype SaveRefusal = NameMissing | PhoneNotVerified

  class WelcomeForm {
    var fullName: string
    var phoneInput: string
    var otp: string
    var phoneStep: PhoneStep
    var pendingPhone: Option<string>
    var isResident: bool
    var sendingOtp: bool
    var verifyingOtp: bool
    var saving: bool

    constructor ()
      ensures fullName == "" && phoneInput == "" && otp == "" && phoneStep == EnterPhone && pendingPhone.None?
      ensures !isResident && !sendingOtp && !verifyingOtp && !saving
    {
      fullName := "";
      phoneInput := "";
      otp := "";
      phoneStep := EnterPhone;
      pendingPhone := None;
      isResident := false;
      sendingOtp := false;
      verifyingOtp := false;
      saving := false;
    }

    /** A phone is verified when the auth user has a non-empty phone. */
    predicate CanSendOtp(authPhone: string)
      reads this
    {
      authPhone == "" && ValidateWelcomePhone(phoneInput) == PhoneValid && !sendingOtp && !verifyingOtp
    }

    predicate CanVerifyOtp(authPhone: string)
      reads this
    {
      authPhone == "" && pendingPhone.Some? && pendingPhone.value != "" && |otp| == 6
    }

    predicate CanSave(authPhone: string)
      reads this
    {
      Trim(fullName) != "" && authPhone != "" && !saving && !sendingOtp && !verifyingOtp
    }

    /** The error shown under the phone field. */
    predicate ShowsPhoneError(authPhone: string)
      reads this
    {
      authPhone == "" && |phoneInput| > 0 && ShowsError(ValidateWelcomePhone(phoneInput))
    }

    /** Editing the phone to different digits drops the pending verification and the code typed so far. */
    method PhoneEdited(next: string)
      modifies this`phoneInput, this`pendingPhone, this`phoneStep, this`otp
      ensures phoneInput == next
      ensures old(pendingPhone).Some? && old(pendingPhone).value != ""
              && NormalizeToLocalDigits(next) != NormalizeToLocalDigits(FormatToLocal(old(pendingPhone).value))
              ==> pendingPhone.None? && phoneStep == EnterPhone && otp == ""
      ensures !(old(pendingPhone).Some? && old(pendingPhone).value != ""
                && NormalizeToLocalDigits(next) != NormalizeToLocalDigits(FormatToLocal(old(pendingPhone).value)))
              ==> pendingPhone == old(pendingPhone) && phoneStep == old(phoneStep) && otp == old(otp)
    {
      phoneInput := next;
      if pendingPhone.Some? && pendingPhone.value != "" {
        var nextDigits := NormalizeToLocalDigits(next);
        var pendingDigits := NormalizeToLocalDigits(FormatToLocal(pendingPhone.value));
        if nextDigits != pendingDigits {
          pendingPhone := None;
          phoneStep := EnterPhone;
          otp := "";
        }
      }
    }

    /** The code field keeps digits only. */
    method OtpEdited(value: string)
      modifies this`otp
      ensures otp == Digits(value)
    {
      otp := Digits(value);
    }

    /** sendPhoneOtp: the number the code is sent to, or None when nothing is sent. */
    method SendOtp(authPhone: string, sendError: Option<string>) returns (target: Option<string>)
      modifies this`pendingPhone, this`phoneStep, this`otp, this`sendingOtp
      ensures (ValidateWelcomePhone(phoneInput) == PhoneValid && authPhone == "") <==> target.Some?
      ensures target.Some? ==> target.value == FormatToInternationalWelcome(phoneInput) && !sendingOtp
      ensures target.Some? && sendError.None? ==>
        pendingPhone == target && phoneStep == EnterOtp && otp == ""
      ensures target.None? || sendError.Some? ==>
        pendingPhone == old(pendingPhone) && phoneStep == old(phoneStep) && otp == old(otp)
      ensures target.None? ==> sendingOtp == old(sendingOtp)
    {
      if ValidateWelcomePhone(phoneInput) != PhoneValid || authPhone != "" {
        return None;
      }
      sendingOtp := true;
      target := Some(FormatToInternationalWelcome(phoneInput));
      if sendError.None? {
        pendingPhone := target;
        phoneStep := EnterOtp;
        otp := "";
      }
      sendingOtp := false;
    }

    /** handleVerifyOtp: the pending number is verified and then written to the profile as `phone_number`. */
    method VerifyOtp(signedIn: bool, authPhone: string, verifyError: Option<string>, updateError: Option<string>)
      returns (profilePhone: Option<string>)
      modifies this`pendingPhone, this`phoneStep, this`otp, this`verifyingOtp
      ensures profilePhone.Some? <==>
        signedIn && old(pendingPhone).Some? && old(pendingPhone).value != "" && authPhone == "" && verifyError.None?
      ensures profilePhone.Some? ==> profilePhone == old(pendingPhone)
      ensures profilePhone.Some? && updateError.None? ==> pendingPhone.None? && phoneStep == EnterPhone && otp == ""
      ensures !(profilePhone.Some? && updateError.None?) ==>
        pendingPhone == old(pendingPhone) && phoneStep == old(phoneStep) && otp == old(otp)
      ensures verifyingOtp == (if signedIn && old(pendingPhone).Some? && old(pendingPhone).value != "" && authPhone == ""
                               then false else old(verifyingOtp))
    {
      if !signedIn || pendingPhone.None? || pendingPhone.value == "" || authPhone != "" {
        return None;
      }
      verifyingOtp := true;
      if verifyError.Some? {
        verifyingOtp := false;
        return None;
      }
      profilePhone := pendingPhone;
      if updateError.None? {
        pendingPhone := None;
        phoneStep := EnterPhone;
        otp := "";
      }
      verifyingOtp := false;
    }

    /** handleSave's checks and the update it writes; None when there is no signed-in user. */
    function SaveRequest(signedIn: bool, authPhone: string): (r: Option<Result<WelcomeUpdate, SaveRefusal>>)
      reads this
      ensures r.None? <==> !signedIn
      ensures r.Some? && r.value.Success? ==>
        Trim(fullName) != "" && authPhone != ""
        && r.value.value == WelcomeUpdate(Trim(fullName), authPhone, isResident)
      ensures r.Some? && Trim(fullName) == "" ==> r.value == Failure(NameMissing)
      ensures r.Some? && Trim(fullName) != "" && authPhone == "" ==> r.value == Failure(PhoneNotVerified)
      ensures signedIn && Trim(fullName) != "" && authPhone != "" ==>
        r == Some(Success(WelcomeUpdate(Trim(fullName), authPhone, isResident)))
    {
      if !signedIn then None
      else if Trim(fullName) == "" then Some(Failure(NameMissing))
      else if authPhone == "" then Some(Failure(PhoneNotVerified))
      else Some(Success(WelcomeUpdate(Trim(fullName), authPhone, isResident)))
    }
  }

  /** A code sent to a valid number and then verified stores that number, which reads back as the digits typed. */
  method SendThenVerify(f: WelcomeForm, code: string) returns (stored: Option<string>)
    modifies f
    ensures ValidateWelcomePhone(old(f.phoneInput)) == PhoneValid ==>
      stored == Some(FormatToInternationalWelcome(old(f.phoneInput)))
    ensures ValidateWelcomePhone(old(f.phoneInput)) != PhoneValid && old(f.pendingPhone).None? ==> stored.None?
    ensures ValidateWelcomePhone(old(f.phoneInput)) == PhoneValid ==>
      |stored.value| == 13 && FormatToLocal(stored.value) == NormalizeToLocalDigits(old(f.phoneInput))
  {
    var sent := f.SendOtp("", None);
    f.OtpEdited(code);
    stored := f.VerifyOtp(true, "", None, None);
    if sent.Some? {
      assert stored == sent;
      WelcomeRoundTrip(f.phoneInput);
    }
  }

  /** The save button is enabled only when handleSave would write. */
  lemma SaveButtonMatchesSave(f: WelcomeForm, authPhone: string)
    requires f.CanSave(authPhone)
    ensures f.SaveRequest(true, authPhone).Some? && f.SaveRequest(true, authPhone).value.Success?
  {
  }
}
