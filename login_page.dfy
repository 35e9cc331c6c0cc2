/** The login form of src/pages/LoginPage.tsx: the T.C. Kimlik No check-digit
    validator, the digit-only input filters and the submit handler's ordered
    validation ladder. */
module LoginPage {
  import opened Wrappers
  import opened JsValues
  import opened History

  // ----- the validator -----

  /** `Number(ch)` applied to a one-character string: an ASCII digit gives its
      value, a whitespace character gives 0 (it trims to the empty string),
      anything else is NaN. */
  function CharToNumber(c: char): (n: JsNumber)
    ensures n.Num? <==> IsAsciiDigit(c) || IsJsWhitespace(c)
    ensures n.Num? ==> 0 <= n.v <= 9
    ensures IsAsciiDigit(c) ==> n == Num(DigitValue(c))
  {
    if IsAsciiDigit(c) then Num(DigitValue(c))
    else if IsJsWhitespace(c) then Num(0)
    else NaN
  }

  /** `tc.split('').map(Number)`. */
  function CharNumbers(tc: string): (ds: seq<JsNumber>)
    ensures |ds| == |tc|
  {
    seq(|tc|, i requires 0 <= i < |tc| => CharToNumber(tc[i]))
  }

  /** `ds.reduce((a, b) => a + b, 0)`, folding from the left. */
  function SumLeft(ds: seq<JsNumber>): JsNumber {
    if ds == [] then Num(0) else Plus(SumLeft(ds[..|ds| - 1]), ds[|ds| - 1])
  }

  /** `validateTCKimlik` as the component writes it. */
  function ValidateTcKimlik(tc: string): (ok: bool)
    ensures ok ==> |tc| == 11 && tc[0] != '0'
  {
    if |tc| != 11 || tc[0] == '0' then false
    else ChecksPass(CharNumbers(tc))
  }

  /** The validator's two comparisons on `tc.split('').map(Number)`, the
      second made only when the first holds. */
  predicate ChecksPass(digits: seq<JsNumber>)
    requires |digits| == 11
  {
    var sum10 := SumLeft(digits[..10]);
    StrictEq(Rem10(sum10), digits[10])
    && StrictEq(Rem10(Minus(Times(OddSum(digits), Num(7)), EvenSum(digits))), digits[9])
  }

  /** `digits[0] + digits[2] + digits[4] + digits[6] + digits[8]`. */
  function OddSum(ds: seq<JsNumber>): JsNumber
    requires |ds| >= 9
  {
    Plus(Plus(Plus(Plus(ds[0], ds[2]), ds[4]), ds[6]), ds[8])
  }

  /** `digits[1] + digits[3] + digits[5] + digits[7]`. */
  function EvenSum(ds: seq<JsNumber>): JsNumber
    requires |ds| >= 8
  {
    Plus(Plus(Plus(ds[1], ds[3]), ds[5]), ds[7])
  }

  // ----- the check-digit rule, stated arithmetically -----

  /** A character `Number` turns into a number rather than NaN. */
  predicate IsNumberChar(c: char) {
    IsAsciiDigit(c) || IsJsWhitespace(c)
  }

  predicate AllNumberChars(s: string) {
    forall i :: 0 <= i < |s| ==> IsNumberChar(s[i])
  }

  function CharValue(c: char): (v: int)
    requires IsNumberChar(c)
    ensures 0 <= v <= 9
  {
    if IsAsciiDigit(c) then DigitValue(c) else 0
  }

  function Values(s: string): (d: seq<int>)
    requires AllNumberChars(s)
    ensures |d| == |s|
  {
    seq(|s|, i requires 0 <= i < |s| => CharValue(s[i]))
  }

  function Sum(xs: seq<int>): int {
    if xs == [] then 0 else Sum(xs[..|xs| - 1]) + xs[|xs| - 1]
  }

  /** The identity-number rule over digit values: eleven characters, no
      leading '0', the last digit is the sum of the first ten modulo 10, and the
      tenth digit is `7 * (sum at even indices 0..8) - (sum at odd indices 1..7)`
      modulo 10. Because JavaScript's `%` keeps the sign of a negative
      difference, a negative difference is accepted only when the tenth digit
      is 0. Whitespace characters count as the digit 0. */
  predicate TcRule(tc: string) {
    |tc| == 11 && tc[0] != '0' && AllNumberChars(tc) && RuleOnValues(Values(tc))
  }

  /** The two check-digit equations over the eleven digit values. */
  predicate RuleOnValues(d: seq<int>)
    requires |d| == 11
  {
    && d[10] == Sum(d[..10]) % 10
    && var x := 7 * (d[0] + d[2] + d[4] + d[6] + d[8]) - (d[1] + d[3] + d[5] + d[7]);
    && d[9] == x % 10
    && (x >= 0 || d[9] == 0)
  }

  /** Over number characters, `Number` gives each character's value. */
  lemma NumbersAreValues(tc: string)
    requires AllNumberChars(tc)
    ensures forall i :: 0 <= i < |tc| ==> CharNumbers(tc)[i] == Num(Values(tc)[i]) && 0 <= Values(tc)[i] <= 9
  {
    forall i | 0 <= i < |tc| ensures CharNumbers(tc)[i] == Num(Values(tc)[i]) && 0 <= Values(tc)[i] <= 9 {
      assert CharNumbers(tc)[i] == CharToNumber(tc[i]);
      assert Values(tc)[i] == CharValue(tc[i]);
    }
  }

  /** A left fold of numbers none of which is NaN is the sum of their values. */
  lemma {:induction false} SumLeftOfValues(ns: seq<JsNumber>, d: seq<int>)
    requires |ns| == |d| && forall i :: 0 <= i < |ns| ==> ns[i] == Num(d[i])
    ensures SumLeft(ns) == Num(Sum(d))
  {
    if ns != [] {
      SumLeftOfValues(ns[..|ns| - 1], d[..|d| - 1]);
    }
  }

  lemma {:induction false} SumLeftNaN(ds: seq<JsNumber>, i: nat)
    requires i < |ds| && ds[i] == NaN
    ensures SumLeft(ds) == NaN
  {
    if i < |ds| - 1 {
      SumLeftNaN(ds[..|ds| - 1], i);
    }
  }

  /** The validator accepts exactly the strings that satisfy the rule; in
      particular every string holding a character that is neither a digit nor
      whitespace is rejected, since NaN takes part in one of the comparisons. */
  lemma ValidateMatchesRule(tc: string)
    ensures ValidateTcKimlik(tc) <==> TcRule(tc)
  {
    if |tc| == 11 && tc[0] != '0' {
      if AllNumberChars(tc) {
        ValidateOnNumberChars(tc);
      } else {
        ValidateOnForeignChar(tc);
      }
    }
  }

  lemma ValidateOnNumberChars(tc: string)
    requires |tc| == 11 && tc[0] != '0' && AllNumberChars(tc)
    ensures ValidateTcKimlik(tc) <==> TcRule(tc)
  {
    NumbersAreValues(tc);
    ChecksOnValues(CharNumbers(tc), Values(tc));
  }

  /** The two comparisons the validator makes, over numbers none of which is
      NaN, are the two check-digit equations over their values. */
  lemma ChecksOnValues(ns: seq<JsNumber>, d: seq<int>)
    requires |ns| == |d| == 11
    requires forall i :: 0 <= i < |ns| ==> ns[i] == Num(d[i]) && 0 <= d[i] <= 9
    ensures ChecksPass(ns) <==> RuleOnValues(d)
  {
    LastDigitCheck(ns, d);
    var x := 7 * (d[0] + d[2] + d[4] + d[6] + d[8]) - (d[1] + d[3] + d[5] + d[7]);
    PartialSumsOfValues(ns, d);
    TenthDigitCheck(x, d[9]);
  }

  /** The eleventh-digit comparison: the sum of the first ten values, whose
      remainder is the Euclidean one because the sum is not negative. */
  lemma LastDigitCheck(ns: seq<JsNumber>, d: seq<int>)
    requires |ns| == |d| == 11
    requires forall i :: 0 <= i < |ns| ==> ns[i] == Num(d[i]) && 0 <= d[i] <= 9
    ensures StrictEq(Rem10(SumLeft(ns[..10])), ns[10]) <==> d[10] == Sum(d[..10]) % 10
  {
    SumLeftOfValues(ns[..10], d[..10]);
    SumNonNegative(d[..10]);
  }

  /** The tenth-digit difference the validator forms, over numbers none of
      which is NaN, is the same difference of their values. */
  lemma PartialSumsOfValues(ns: seq<JsNumber>, d: seq<int>)
    requires |ns| == |d| == 11 && forall i :: 0 <= i < |ns| ==> ns[i] == Num(d[i])
    ensures Minus(Times(OddSum(ns), Num(7)), EvenSum(ns))
              == Num(7 * (d[0] + d[2] + d[4] + d[6] + d[8]) - (d[1] + d[3] + d[5] + d[7]))
  {
  }

  lemma TenthDigitCheck(x: int, d: int)
    requires 0 <= d <= 9
    ensures TruncRem10(x) == d <==> d == x % 10 && (x >= 0 || d == 0)
  {
  }

  lemma ValidateOnForeignChar(tc: string)
    requires |tc| == 11 && tc[0] != '0' && !AllNumberChars(tc)
    ensures !ValidateTcKimlik(tc)
  {
    var n := CharNumbers(tc);
    var i :| 0 <= i < 11 && !IsNumberChar(tc[i]);
    if i < 10 {
      assert n[..10][i] == NaN;
      SumLeftNaN(n[..10], i);
    } else {
      assert n[10] == NaN;
    }
  }

  lemma SumSnoc(xs: seq<int>, k: nat)
    requires k < |xs|
    ensures Sum(xs[..k + 1]) == Sum(xs[..k]) + xs[k]
  {
    assert xs[..k + 1][..k] == xs[..k];
  }

  lemma {:induction false} SumNonNegative(xs: seq<int>)
    requires forall i :: 0 <= i < |xs| ==> xs[i] >= 0
    ensures Sum(xs) >= 0
  {
    if xs != [] {
      SumNonNegative(xs[..|xs| - 1]);
    }
  }

  lemma SumTen(xs: seq<int>)
    requires |xs| == 10
    ensures Sum(xs) == xs[0] + xs[1] + xs[2] + xs[3] + xs[4] + xs[5] + xs[6] + xs[7] + xs[8] + xs[9]
  {
    assert xs[..0] == [];
    SumSnoc(xs, 0); SumSnoc(xs, 1); SumSnoc(xs, 2); SumSnoc(xs, 3); SumSnoc(xs, 4);
    SumSnoc(xs, 5); SumSnoc(xs, 6); SumSnoc(xs, 7); SumSnoc(xs, 8); SumSnoc(xs, 9);
    assert xs[..10] == xs;
  }

  /** A negative difference with a nonzero remainder is rejected even where
      a mathematical modulo would accept it: 7*1 - 36 = -29, whose Euclidean
      remainder 1 is the tenth digit. */
  lemma NegativeDifferenceRejected()
    ensures !ValidateTcKimlik("19090909018")
    ensures AllNumberChars("19090909018")
    ensures var d := Values("19090909018");
            && d[10] == Sum(d[..10]) % 10
            && d[9] == (7 * (d[0] + d[2] + d[4] + d[6] + d[8]) - (d[1] + d[3] + d[5] + d[7])) % 10
  {
    var tc := "19090909018";
    SumTen(Values(tc)[..10]);
    ValidateMatchesRule(tc);
  }

  /** A negative difference that is a multiple of 10 passes with tenth digit 0:
      7*1 - 17 = -10 and `-10 % 10` is `-0`, which `===` equates with 0. */
  lemma NegativeMultipleOfTenAccepted()
    ensures ValidateTcKimlik("19080000008")
  {
    var tc := "19080000008";
    SumTen(Values(tc)[..10]);
    ValidateMatchesRule(tc);
  }

  /** `Number(' ')` is 0 and `' ' !== '0'`, so a leading space passes the
      leading-zero check and reads as a zero digit. The input handlers strip
      whitespace, so the form never submits such a value. */
  lemma LeadingSpaceAccepted()
    ensures ValidateTcKimlik(" 0000000000")
    ensures !ValidateTcKimlik("00000000000")
  {
    var tc := " 0000000000";
    SumTen(Values(tc)[..10]);
    ValidateMatchesRule(tc);
  }

  /** A number that satisfies both check digits. */
  lemma ValidExample()
    ensures ValidateTcKimlik("10000000146")
  {
    SumTen(Values("10000000146")[..10]);
    ValidateMatchesRule("10000000146");
  }

  /** The familiar placeholder 12345678901 fails the first check digit:
      the first ten digits sum to 45, and 45 % 10 = 5 is not 1. */
  lemma PlaceholderNumberRejected()
    ensures !ValidateTcKimlik("12345678901")
  {
    SumTen(Values("12345678901")[..10]);
    ValidateMatchesRule("12345678901");
  }

  // ----- the submit handler -----

  /** The checks `handleSubmit` makes, in the order it makes them. */
  datatype LoginError = FieldsMissing | TcLength | TcInvalid | PhoneLength

  function ErrorMessage(e: LoginError): string {
    match e
    case FieldsMissing => "Lütfen tüm alanları doldurunuz."
    case TcLength => "T.C. Kimlik No 11 haneli olmalıdır."
    case TcInvalid => "Geçersiz T.C. Kimlik No."
    case PhoneLength => "Telefon numarası 10 haneli olmalıdır."
  }

  /** Whether check `e`, taken on its own, rejects the entered values. */
  predicate Fails(e: LoginError, tc: string, phone: string) {
    match e
    case FieldsMissing => tc == "" || phone == ""
    case TcLength => |tc| != 11
    case TcInvalid => !ValidateTcKimlik(tc)
    case PhoneLength => |phone| != 10
  }

  /** Position of a check in the handler. */
  function Rank(e: LoginError): nat {
    match e
    case FieldsMissing => 0
    case TcLength => 1
    case TcInvalid => 2
    case PhoneLength => 3
  }

  /** The error the handler reports, as its chain of early returns decides it. */
  function FirstError(tc: string, phone: string): (r: Option<LoginError>)
    ensures r.None? <==> tc != "" && phone != "" && |tc| == 11 && ValidateTcKimlik(tc) && |phone| == 10
    ensures r == Some(FieldsMissing) <==> tc == "" || phone == ""
  {
    if tc == "" || phone == "" then Some(FieldsMissing)
    else if |tc| != 11 then Some(TcLength)
    else if !ValidateTcKimlik(tc) then Some(TcInvalid)
    else if |phone| != 10 then Some(PhoneLength)
    else None
  }

  /** Exactly one error is reported, and it is the earliest check that fails;
      no error is reported exactly when every check passes. */
  lemma FirstErrorIsEarliestFailure(tc: string, phone: string)
    ensures FirstError(tc, phone).None? <==> forall e :: !Fails(e, tc, phone)
    ensures forall e :: FirstError(tc, phone) == Some(e) <==> IsEarliestFailure(e, tc, phone)
  {
    forall e ensures FirstError(tc, phone) == Some(e) <==> IsEarliestFailure(e, tc, phone) {
      EarliestFailureCase(e, tc, phone);
    }
  }

  /** `e` fails and no earlier check does. */
  predicate IsEarliestFailure(e: LoginError, tc: string, phone: string) {
    Fails(e, tc, phone) && forall e' :: Rank(e') < Rank(e) ==> !Fails(e', tc, phone)
  }

  lemma EarliestFailureCase(e: LoginError, tc: string, phone: string)
    ensures FirstError(tc, phone) == Some(e) <==> IsEarliestFailure(e, tc, phone)
  {
    var f0, f1, f2 := Fails(FieldsMissing, tc, phone), Fails(TcLength, tc, phone), Fails(TcInvalid, tc, phone);
    match e
    case FieldsMissing =>
    case TcLength =>
      assert IsEarliestFailure(e, tc, phone) <==> !f0 && f1 by {
        assert forall e' :: Rank(e') < 1 ==> e' == FieldsMissing;
      }
    case TcInvalid =>
      assert IsEarliestFailure(e, tc, phone) <==> !f0 && !f1 && f2 by {
        assert forall e' :: Rank(e') < 2 ==> e' == FieldsMissing || e' == TcLength;
      }
    case PhoneLength =>
      assert IsEarliestFailure(e, tc, phone) <==> !f0 && !f1 && !f2 && |phone| != 10 by {
        assert forall e' :: Rank(e') < 3 ==> e' == FieldsMissing || e' == TcLength || e' == TcInvalid;
      }
  }

  /** Input accepted by the form has an ID of 11 characters, each a digit or
      whitespace, satisfying the check-digit rule, and a 10-character phone
      number. */
  lemma AcceptedInput(tc: string, phone: string)
    requires FirstError(tc, phone).None?
    ensures TcRule(tc) && |tc| == 11 && |phone| == 10
  {
    ValidateMatchesRule(tc);
  }

  /** The login form's state: the two fields and the error toast. */
  class LoginForm {
    var tcKimlik: string
    var telefon: string
    var showError: bool
    var errorMessage: string

    constructor ()
      ensures tcKimlik == "" && telefon == "" && !showError && errorMessage == ""
    {
      tcKimlik, telefon, showError, errorMessage := "", "", false, "";
    }

    /** `onChange` of the ID field keeps only the digits typed. */
    method TcInput(value: string)
      modifies this
      ensures tcKimlik == DigitsOnly(value)
      ensures telefon == old(telefon) && showError == old(showError) && errorMessage == old(errorMessage)
    {
      tcKimlik := DigitsOnly(value);
    }

    /** `onChange` of the phone field keeps only the digits typed. */
    method PhoneInput(value: string)
      modifies this
      ensures telefon == DigitsOnly(value)
      ensures tcKimlik == old(tcKimlik) && showError == old(showError) && errorMessage == old(errorMessage)
    {
      telefon := DigitsOnly(value);
    }

    /** `handleSubmit`: on the first failing check shows its message and stops;
        otherwise navigates to the OTP screen carrying both fields. The fields
        themselves are left as they were. */
    method Submit() returns (nav: Option<HistoryOp>)
      modifies this
      ensures tcKimlik == old(tcKimlik) && telefon == old(telefon)
      ensures match FirstError(tcKimlik, telefon)
              case Some(e) => nav.None? && showError && errorMessage == ErrorMessage(e)
              case None =>
                && nav == Some(Push("/otp", map["tcKimlik" := JStr(tcKimlik), "telefon" := JStr(telefon)]))
                && showError == old(showError) && errorMessage == old(errorMessage)
    {
      if tcKimlik == "" || telefon == "" {
        errorMessage := ErrorMessage(FieldsMissing);
        showError := true;
        return None;
      }
      if |tcKimlik| != 11 {
        errorMessage := ErrorMessage(TcLength);
        showError := true;
        return None;
      }
      if !ValidateTcKimlik(tcKimlik) {
        errorMessage := ErrorMessage(TcInvalid);
        showError := true;
        return None;
      }
      if |telefon| != 10 {
        errorMessage := ErrorMessage(PhoneLength);
        showError := true;
        return None;
      }
      nav := Some(Push("/otp", map["tcKimlik" := JStr(tcKimlik), "telefon" := JStr(telefon)]));
    }

    /** The toast's `onDidDismiss`. */
    method DismissError()
      modifies this`showError
      ensures !showError
    {
      showError := false;
    }
  }
}
