// Israeli mobile numbers as the profile, login and onboarding screens handle
// them: the input is reduced to its digits, a valid number is ten digits
// starting 05, and it is stored in E.164 form with country code 972.
module Phone {
  import opened Text

  /** The outcome of validatePhoneNumber; only the last two show an error text. */
  datatype PhoneCheck = PhoneValid | PhoneEmpty | NotMobilePrefix | WrongLength

  predicate ShowsError(c: PhoneCheck)
  {
    c == NotMobilePrefix || c == WrongLength
  }

  /** The three checks on a string of digits, in order. */
  function CheckLocalDigits(digits: string): (c: PhoneCheck)
    ensures c == PhoneValid <==> |digits| == 10 && StartsWith(digits, "05")
    ensures c == PhoneEmpty <==> digits == ""
    ensures c == NotMobilePrefix <==> digits != "" && !StartsWith(digits, "05")
  {
    if |digits| == 0 then PhoneEmpty
    else if !StartsWith(digits, "05") then NotMobilePrefix
    else if |digits| != 10 then WrongLength
    else PhoneValid
  }

  /** validatePhoneNumber as the profile, login and onboarding screens write it: on the raw digits. */
  function ValidatePhone(phone: string): (c: PhoneCheck)
    ensures c == PhoneValid ==> |Digits(phone)| == 10 && Digits(phone)[..2] == "05"
  {
    CheckLocalDigits(Digits(phone))
  }

  /** formatToInternational: `+972` then the digits after the first. */
  function FormatToInternational(phone: string): (r: string)
    ensures StartsWith(r, "+972") && AllDigits(r[1..])
    ensures |Digits(phone)| >= 1 ==> |r| == 3 + |Digits(phone)|
  {
    var digits := Digits(phone);
    "+972" + (if digits == [] then [] else digits[1..])
  }

  /** formatToLocal: a `+972` prefix becomes `0`; anything else is left as it is. */
  function FormatToLocal(phone: string): (r: string)
    ensures phone == "" ==> r == ""
    ensures !StartsWith(phone, "+972") ==> r == phone
    ensures StartsWith(phone, "+972") ==> r == "0" + phone[4..]
  {
    if phone == "" then ""
    else if StartsWith(phone, "+972") then "0" + phone[4..]
    else phone
  }

  /** A valid number is `+972` and nine digits in international form: 13 characters. */
  lemma InternationalFormShape(phone: string)
    requires ValidatePhone(phone) == PhoneValid
    ensures var r := FormatToInternational(phone);
      |r| == 13 && r[..4] == "+972" && AllDigits(r[4..]) && r[4..] == Digits(phone)[1..] && r[4] == '5'
  {
    var d := Digits(phone);
    assert d[..2][1] == '5';
  }

  /** Local form of the international form is the input with its non-digits removed. */
  lemma {:induction false} LocalInternationalRoundTrip(phone: string)
    requires ValidatePhone(phone) == PhoneValid
    ensures FormatToLocal(FormatToInternational(phone)) == Digits(phone)
  {
    var d := Digits(phone);
    var r := FormatToInternational(phone);
    assert r == "+972" + d[1..];
    assert r[..4] == "+972";
    assert r[4..] == d[1..];
    assert d[..2][0] == '0';
    assert d == [d[0]] + d[1..];
  }

  /** Local form is the identity on local numbers, so it keeps validity. */
  lemma FormatToLocalKeepsLocal(phone: string)
    requires ValidatePhone(phone) == PhoneValid && AllDigits(phone)
    ensures FormatToLocal(phone) == phone
  {
    DigitsOfDigits(phone);
    assert phone[..2][0] == '0';
    assert phone[..4][0] == '0';
  }

  lemma DigitsCons(c: char, s: string)
    ensures Digits([c] + s) == (if IsDigit(c) then [c] else []) + Digits(s)
  {
    assert ([c] + s)[1..] == s;
  }

  lemma NotMobileUnlessLeadingZero(phone: string)
    requires Digits(phone) != [] && Digits(phone)[0] != '0'
    ensures ValidatePhone(phone) == NotMobilePrefix
  {
    var d := Digits(phone);
    assert |d| >= 2 ==> d[..2][0] == d[0];
  }

  /** The digits of `+972` followed by digits. */
  lemma DigitsOfInternational(rest: string)
    requires AllDigits(rest)
    ensures Digits("+972" + rest) == "972" + rest
  {
    var t := "972" + rest;
    assert AllDigits(t) by {
      forall i | 0 <= i < |t| ensures IsDigit(t[i]) {
        if i >= 3 {
          assert t[i] == rest[i - 3];
        }
      }
    }
    DigitsOfDigits(t);
    assert "+972" + rest == ['+'] + t;
    DigitsCons('+', t);
  }

  /** A number given internationally keeps its 972 and so fails the 05 check. */
  lemma InternationalInputRejected(rest: string)
    ensures ValidatePhone("+972" + rest) == NotMobilePrefix
  {
    var s := "+972" + rest;
    assert s == ['+'] + (['9'] + ("72" + rest));
    DigitsCons('+', ['9'] + ("72" + rest));
    DigitsCons('9', "72" + rest);
    NotMobileUnlessLeadingZero(s);
  }
}
