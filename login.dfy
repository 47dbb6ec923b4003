// The phone sign-in tab of the login screen: a code is sent by SMS to the
// international form of the typed number and verified against the same number.
module Login {
  import opened Wrappers
  import opened Text
  import opened Phone

  /** Which request is in flight; Idle is `null`. */
  datatype LoadingAction = Idle | Google | PhoneSend | OtpVerify | Email

  datatype PhoneStep = EnterPhone | EnterOtp

  /** The OTP sign-in request: the number and the typed code. */
  datatype VerifyRequest = VerifyRequest(phone: string, token: string)

  class LoginScreen {
    var phone: string
    var otp: string
    var phoneStep: PhoneStep
    var loadingAction: LoadingAction

    constructor ()
      ensures phone == "" && otp == "" && phoneStep == EnterPhone && loadingAction == Idle
    {
      phone := "";
      otp := "";
      phoneStep := EnterPhone;
      loadingAction := Idle;
    }

    /** The send button: enabled only for a valid number with nothing in flight. */
    predicate CanSend()
      reads this
    {
      loadingAction == Idle && ValidatePhone(phone) == PhoneValid
    }

    /** The verify button: enabled only for a six-character code with nothing in flight. */
    predicate CanVerify()
      reads this
    {
      loadingAction == Idle && |otp| == 6
    }

    /** The error text under the phone field. */
    predicate ShowsPhoneError()
      reads this
    {
      |phone| > 0 && ShowsError(ValidatePhone(phone))
    }

    method PhoneEdited(value: string)
      modifies this`phone
      ensures phone == value
    {
      phone := value;
    }

    /** The code field keeps digits only. */
    method OtpEdited(value: string)
      modifies this`otp
      ensures otp == Digits(value) && AllDigits(otp)
    {
      otp := Digits(value);
    }

    /** handleSendOtp: the number the code goes to, or None when the number is invalid. */
    method SendOtp(sendError: Option<string>) returns (target: Option<string>)
      modifies this`phoneStep, this`otp, this`loadingAction
      ensures target.Some? <==> ValidatePhone(phone) == PhoneValid
      ensures target.Some? ==> target.value == FormatToInternational(phone) && loadingAction == Idle
      ensures target.Some? && sendError.None? ==> phoneStep == EnterOtp && otp == ""
      ensures target.None? || sendError.Some? ==> phoneStep == old(phoneStep) && otp == old(otp)
      ensures target.None? ==> loadingAction == old(loadingAction)
    {
      if ValidatePhone(phone) != PhoneValid {
        return None;
      }
      loadingAction := PhoneSend;
      target := Some(FormatToInternational(phone));
      if sendError.None? {
        phoneStep := EnterOtp;
        otp := "";
      }
      loadingAction := Idle;
    }

    /** handleVerifyOtp: the request sent, or None unless the code has six characters. */
    method VerifyOtp(verifyError: Option<string>) returns (request: Option<VerifyRequest>)
      modifies this`loadingAction
      ensures request.Some? <==> |otp| == 6
      ensures request.Some? ==> request.value == VerifyRequest(FormatToInternational(phone), otp) && loadingAction == Idle
      ensures request.None? ==> loadingAction == old(loadingAction)
    {
      if |otp| != 6 {
        return None;
      }
      loadingAction := OtpVerify;
      request := Some(VerifyRequest(FormatToInternational(phone), otp));
      loadingAction := Idle;
    }

    /** "Send a new code" returns to the phone step. */
    method BackToPhone()
      modifies this`phoneStep
      ensures phoneStep == EnterPhone
    {
      phoneStep := EnterPhone;
    }
  }

  /** The number verified is the number the code was sent to when the phone is left unedited. */
  method SendThenVerify(s: LoginScreen, code: string) returns (sent: Option<string>, verified: Option<VerifyRequest>)
    modifies s
    requires s.loadingAction == Idle
    ensures sent.Some? && verified.Some? ==> verified.value.phone == sent.value
    ensures sent.Some? <==> ValidatePhone(old(s.phone)) == PhoneValid
    ensures verified.Some? <==> |Digits(code)| == 6
    ensures sent.Some? ==> |sent.value| == 13 && StartsWith(sent.value, "+972")
  {
    sent := s.SendOtp(None);
    s.OtpEdited(code);
    verified := s.VerifyOtp(None);
    if sent.Some? {
      InternationalFormShape(s.phone);
    }
  }
}
