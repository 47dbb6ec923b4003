// The phone-verification step of onboarding: a signed-in user without a phone
// number adds one, verifies it by SMS code and has it written to the profile.
module Onboarding {
  import opened Wrappers
  import opened Text
  import opened Phone

  datatype Redirect = Stay | ToLogin | ToHome

  /** The redirect effect; `profilePhone` is None when there is no profile. */
  function RedirectFor(authLoading: bool, signedIn: bool, profilePhone: Option<string>): (r: Redirect)
    ensures authLoading ==> r == Stay
    ensures !authLoading && !signedIn ==> r == ToLogin
    ensures r == ToHome <==> !authLoading && signedIn && profilePhone.Some? && profilePhone.value != ""
  {
    if authLoading then Stay
    else if !signedIn then ToLogin
    else if profilePhone.Some? && profilePhone.value != "" then ToHome
    else Stay
  }

  datatype Step = EnterPhone | EnterOtp

  /** What a successful verification writes: the verified number goes to the profile. */
  datatype VerifyPlan = VerifyPlan(verifyPhone: string, token: string, profilePhone: Option<string>)

  class OnboardingScreen {
    var phone: string
    var otp: string
    var step: Step
    var loading: bool

    constructor ()
      ensures phone == "" && otp == "" && step == EnterPhone && !loading
    {
      phone := "";
      otp := "";
      step := EnterPhone;
      loading := false;
    }

    predicate CanSend()
      reads this
    {
      !loading && ValidatePhone(phone) == PhoneValid
    }

    predicate CanVerify()
      reads this
    {
      !loading && |otp| == 6
    }

    /** The code field keeps digits only. */
    method OtpEdited(value: string)
      modifies this`otp
      ensures otp == Digits(value) && AllDigits(otp)
    {
      otp := Digits(value);
    }

    /** handleSendOtp: the number the phone change is requested for, or None for an invalid number. */
    method SendOtp(sendError: Option<string>) returns (target: Option<string>)
      modifies this`step, this`loading
      ensures target.Some? <==> ValidatePhone(phone) == PhoneValid
      ensures target.Some? ==> target.value == FormatToInternational(phone) && !loading
      ensures target.Some? && sendError.None? ==> step == EnterOtp
      ensures target.None? || sendError.Some? ==> step == old(step)
      ensures target.None? ==> loading == old(loading)
    {
      if ValidatePhone(phone) != PhoneValid {
        return None;
      }
      loading := true;
      target := Some(FormatToInternational(phone));
      if sendError.None? {
        step := EnterOtp;
      }
      loading := false;
    }

    /** handleVerifyOtp: None without a user; the profile is written only after the code is accepted. */
    method VerifyOtp(signedIn: bool, verifyError: Option<string>) returns (plan: Option<VerifyPlan>)
      modifies this`loading
      ensures plan.Some? <==> signedIn
      ensures plan.Some? ==> plan.value.verifyPhone == FormatToInternational(phone) && plan.value.token == otp
      ensures plan.Some? ==> (plan.value.profilePhone.Some? <==> verifyError.None?)
      ensures plan.Some? && plan.value.profilePhone.Some? ==> plan.value.profilePhone.value == plan.value.verifyPhone
      ensures plan.Some? ==> !loading
      ensures plan.None? ==> loading == old(loading)
    {
      if !signedIn {
        return None;
      }
      loading := true;
      var formatted := FormatToInternational(phone);
      if verifyError.Some? {
        plan := Some(VerifyPlan(formatted, otp, None));
      } else {
        plan := Some(VerifyPlan(formatted, otp, Some(formatted)));
      }
      loading := false;
    }
  }

  /** Once the profile holds the verified number, the redirect effect sends the user home. */
  lemma VerifiedUserGoesHome(phone: string)
    ensures RedirectFor(false, true, Some(FormatToInternational(phone))) == ToHome
  {
    assert FormatToInternational(phone)[..4] == "+972";
  }
}
