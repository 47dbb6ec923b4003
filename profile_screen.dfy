// The profile screen: phone verification state, the profile save and the
// avatar upload checks. Phone numbers use the raw-digit rules of module Phone.
module ProfileScreen {
  import opened Wrappers
  import opened Text
  import opened Phone
  import opened DbTypes

  /** `formattedPhone`: the international form of a valid input, '' otherwise. */
  function FormattedPhone(input: string): (r: string)
    ensures r != "" <==> ValidatePhone(input) == PhoneValid
    ensures r != "" ==> r == FormatToInternational(input)
  {
    if ValidatePhone(input) == PhoneValid then FormatToInternational(input) else ""
  }

  /** The input is valid and already the number of the signed-in account. */
  predicate PhoneMatchesAuth(input: string, authPhone: Option<string>)
  {
    FormattedPhone(input) != "" && authPhone == Some(FormattedPhone(input))
  }

  /** The input is valid and differs from the number of the account, so it must be verified first. */
  predicate NeedsVerification(input: string, authPhone: Option<string>)
  {
    FormattedPhone(input) != "" && authPhone != Some(FormattedPhone(input))
  }

  /** Exactly one of the two holds for a valid input, and neither for an invalid one. */
  lemma VerificationStates(input: string, authPhone: Option<string>)
    ensures !(PhoneMatchesAuth(input, authPhone) && NeedsVerification(input, authPhone))
    ensures ValidatePhone(input) == PhoneValid <==>
      (PhoneMatchesAuth(input, authPhone) || NeedsVerification(input, authPhone))
    ensures NeedsVerification(input, authPhone) <==>
      ValidatePhone(input) == PhoneValid && authPhone != Some(FormatToInternational(input))
  {
  }

  /** The error text under the phone field. */
  predicate ShowsPhoneError(input: string)
  {
    |input| > 0 && ShowsError(ValidatePhone(input))
  }

  /** The columns handleSave upserts; `isResident` is None when the column is left out. */
  datatype ProfileUpsert = ProfileUpsert(id: UserId, fullName: string, isResident: Option<bool>)

  /** First-time setup: the loaded profile has no name yet. */
  predicate IsFirstTimeSetup(profile: Option<Profile>)
  {
    profile.None? || profile.value.fullName.None? || profile.value.fullName.value == ""
  }

  /** handleSave: a blank name is refused, and residency is written only on first-time setup. */
  function SaveRequest(userId: UserId, fullName: string, isResident: bool, profile: Option<Profile>): (r: Option<ProfileUpsert>)
    ensures r.None? <==> Trim(fullName) == ""
    ensures r.Some? ==> r.value.id == userId && r.value.fullName == Trim(fullName)
    ensures r.Some? ==> (r.value.isResident.Some? <==> IsFirstTimeSetup(profile))
    ensures r.Some? && r.value.isResident.Some? ==> r.value.isResident.value == isResident
  {
    if Trim(fullName) == "" then None
    else Some(ProfileUpsert(userId, Trim(fullName), if IsFirstTimeSetup(profile) then Some(isResident) else None))
  }

  /** A returning user's save never touches the residency flag. */
  lemma ReturningUserKeepsResidency(userId: UserId, fullName: string, isResident: bool, p: Profile)
    requires p.fullName.Some? && p.fullName.value != ""
    requires Trim(fullName) != ""
    ensures SaveRequest(userId, fullName, isResident, Some(p)).value.isResident.None?
  {
  }

  // ---- avatar upload ----

  const MaxAvatarBytes := 5 * 1024 * 1024

  datatype UploadRefusal = NotAnImage | TooLarge

  /** uploadAvatar's checks: an image type, at most 5 MiB. */
  function CheckAvatar(mimeType: string, size: nat): (r: Option<UploadRefusal>)
    ensures r.None? <==> StartsWith(mimeType, "image/") && size <= 5242880
    ensures r == Some(NotAnImage) <==> !StartsWith(mimeType, "image/")
  {
    if !StartsWith(mimeType, "image/") then Some(NotAnImage)
    else if size > MaxAvatarBytes then Some(TooLarge)
    else None
  }

  /** The storage path `{userId}/{Date.now()}.{extension}`; the extension follows the last dot. */
  function AvatarPath(userId: UserId, nowMs: nat, fileName: string): (r: string)
    ensures r == userId + "/" + NatToString(nowMs) + "." + LastPiece(fileName, '.')
    ensures StartsWith(r, userId + "/" + NatToString(nowMs) + ".")
    ensures EndsWith(r, LastPiece(fileName, '.')) && EndsWith(fileName, LastPiece(fileName, '.'))
    ensures '.' !in LastPiece(fileName, '.')
  {
    var prefix := userId + "/" + NatToString(nowMs) + ".";
    var r := prefix + LastPiece(fileName, '.');
    assert r[..|prefix|] == prefix;
    assert r[|r| - |LastPiece(fileName, '.')|..] == LastPiece(fileName, '.');
    r
  }

  /** A name with no dot gives itself as the extension. */
  lemma ExtensionOfDotlessName(fileName: string)
    requires '.' !in fileName
    ensures LastPiece(fileName, '.') == fileName
  {
    SplitCount(fileName, '.');
    JoinSplit(fileName, '.');
    var parts := Split(fileName, '.');
    assert multiset(fileName)['.'] == 0;
    assert |parts| == 1;
  }

  // ---- the OTP flow ----

  datatype PhoneStep = EnterPhone | EnterOtp

  class PhoneVerification {
    var phoneInput: string
    var otp: string
    var phoneStep: PhoneStep
    var pendingPhone: Option<string>
    var phoneLoading: bool
    var otpLoading: bool

    constructor ()
      ensures phoneInput == "" && otp == "" && phoneStep == EnterPhone && pendingPhone.None?
      ensures !phoneLoading && !otpLoading
    {
      phoneInput := "";
      otp := "";
      phoneStep := EnterPhone;
      pendingPhone := None;
      phoneLoading := false;
      otpLoading := false;
    }

    /** sendPhoneOtp: a code goes out only for a valid number that is not yet the account's. */
    method SendOtp(authPhone: Option<string>, sendError: Option<string>) returns (target: Option<string>)
      modifies this`pendingPhone, this`phoneStep, this`otp, this`phoneLoading
      ensures target.Some? <==> NeedsVerification(phoneInput, authPhone)
      ensures target.Some? ==> target.value == FormatToInternational(phoneInput) && !phoneLoading
      ensures target.Some? && sendError.None? ==> pendingPhone == target && phoneStep == EnterOtp && otp == ""
      ensures target.None? || sendError.Some? ==>
        pendingPhone == old(pendingPhone) && phoneStep == old(phoneStep) && otp == old(otp)
      ensures target.None? ==> phoneLoading == old(phoneLoading)
    {
      if ValidatePhone(phoneInput) != PhoneValid || !NeedsVerification(phoneInput, authPhone) {
        return None;
      }
      phoneLoading := true;
      target := Some(FormattedPhone(phoneInput));
      if sendError.None? {
        pendingPhone := target;
        phoneStep := EnterOtp;
        otp := "";
      }
      phoneLoading := false;
    }

    /** Editing the phone to different digits drops the pending verification and the code typed so far. */
    method PhoneEdited(next: string)
      modifies this`phoneInput, this`pendingPhone, this`phoneStep, this`otp
      ensures phoneInput == next
      ensures old(pendingPhone).Some? && old(pendingPhone).value != ""
              && Digits(next) != Digits(FormatToLocal(old(pendingPhone).value))
              ==> pendingPhone.None? && phoneStep == EnterPhone && otp == ""
      ensures !(old(pendingPhone).Some? && old(pendingPhone).value != ""
                && Digits(next) != Digits(FormatToLocal(old(pendingPhone).value)))
              ==> pendingPhone == old(pendingPhone) && phoneStep == old(phoneStep) && otp == old(otp)
    {
      phoneInput := next;
      if pendingPhone.Some? && pendingPhone.value != "" {
        if Digits(next) != Digits(FormatToLocal(pendingPhone.value)) {
          pendingPhone := None;
          phoneStep := EnterPhone;
          otp := "";
        }
      }
    }

    /** The verify button needs six characters in the code field. */
    predicate CanVerify()
      reads this
    {
      !otpLoading && |otp| == 6
    }

    /** The code field keeps digits only. */
    method OtpEdited(value: string)
      modifies this`otp
      ensures otp == Digits(value)
    {
      otp := Digits(value);
    }

    /** handleVerifyOtp: the pending number is verified and then written to the profile. */
    method VerifyOtp(signedIn: bool, verifyError: Option<string>, updateError: Option<string>)
      returns (profilePhone: Option<string>)
      modifies this`pendingPhone, this`phoneStep, this`otp, this`otpLoading
      ensures profilePhone.Some? ==> old(pendingPhone) == profilePhone && signedIn && verifyError.None?
      ensures signedIn && old(pendingPhone).Some? && old(pendingPhone).value != "" && verifyError.None?
              ==> profilePhone == old(pendingPhone)
      ensures profilePhone.Some? && updateError.None? ==> pendingPhone.None? && phoneStep == EnterPhone && otp == ""
      ensures !(profilePhone.Some? && updateError.None?) ==>
        pendingPhone == old(pendingPhone) && phoneStep == old(phoneStep) && otp == old(otp)
      ensures signedIn && old(pendingPhone).Some? && old(pendingPhone).value != "" ==> !otpLoading
      ensures !(signedIn && old(pendingPhone).Some? && old(pendingPhone).value != "") ==> otpLoading == old(otpLoading)
    {
      if !signedIn || pendingPhone.None? || pendingPhone.value == "" {
        return None;
      }
      otpLoading := true;
      if verifyError.Some? {
        otpLoading := false;
        return None;
      }
      profilePhone := pendingPhone;
      if updateError.None? {
        pendingPhone := None;
        phoneStep := EnterPhone;
        otp := "";
      }
      otpLoading := false;
    }
  }
}
