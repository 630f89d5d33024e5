/** The M-Pesa deposit drawer (app/src/components/DepositDrawer.tsx): the
    phone field is kept in the form `+254` followed by digits, the amount
    field accepts at most 6 characters and no value above 150000, and the
    deposit is sent only for a plausible phone and a positive amount. The
    deposit request itself belongs to the parent; its outcome is a parameter. */
module DepositDrawer {
  import opened Types
  import opened JsText

  /** The country code every stored phone number starts with. */
  const CountryPrefix: string := "+254"

  /** The largest amount the amount field accepts. */
  const MaxAmount: int := 150000

  /** The quick-amount buttons. */
  const QuickAmounts: seq<nat> := [100, 500, 1000, 5000]

  // ------------------------------------------------------------- phone field

  /** A prefix the pattern `^\+?254?` can match: an optional `+`, then `25`,
      then an optional `4` (or nothing at all). */
  predicate IsCountryCodeMatch(p: string) {
    p == "" || p == "25" || p == "254" || p == "+25" || p == "+254"
  }

  /** `value.replace(/^\+?254?/, '')`. */
  function StripCountryCode(value: string): string {
    if StartsWith(value, "+25") then (if |value| > 3 && value[3] == '4' then value[4..] else value[3..])
    else if StartsWith(value, "25") then (if |value| > 2 && value[2] == '4' then value[3..] else value[2..])
    else value
  }

  /** The pattern removes the longest prefix of the value it can match, and
      leaves the rest as it is. */
  lemma StripCountryCodeIsLongestMatch(value: string)
    ensures var k := |value| - |StripCountryCode(value)|;
      && 0 <= k <= |value|
      && StripCountryCode(value) == value[k..]
      && IsCountryCodeMatch(value[..k])
      && forall j :: k < j <= |value| ==> !IsCountryCodeMatch(value[..j])
  {
    var r := StripCountryCode(value);
    var k := |value| - |r|;
    forall j | k < j <= |value|
      ensures !IsCountryCodeMatch(value[..j])
    {
      if j >= 2 {
        assert value[..j][..2] == value[..2];
      }
      if j >= 3 {
        assert value[..j][..3] == value[..3];
      }
    }
  }

  /** `handlePhoneChange`: a value that starts with `+254` keeps that prefix
      and loses every non-digit after it; any other value first loses one
      leading country-code match, then every non-digit, and gets `+254` put
      in front. */
  function NormalisePhone(value: string): (r: string)
    ensures StartsWith(r, CountryPrefix) && AllDigits(r[|CountryPrefix|..])
  {
    var r := if StartsWith(value, CountryPrefix) then CountryPrefix + KeepDigits(value[4..])
             else CountryPrefix + KeepDigits(StripCountryCode(value));
    assert r[..4] == CountryPrefix && r[4..] == KeepDigits(if StartsWith(value, CountryPrefix) then value[4..] else StripCountryCode(value));
    r
  }

  /** A number already in the form `+254` followed by digits is stored as it
      is, so normalising twice is normalising once. */
  lemma NormalisePhoneIdempotent(value: string)
    requires StartsWith(value, CountryPrefix) && AllDigits(value[4..])
    ensures NormalisePhone(value) == value
    ensures NormalisePhone(NormalisePhone(value)) == NormalisePhone(value)
  {
    KeepDigitsOfDigits(value[4..]);
    assert value == value[..4] + value[4..];
  }

  /** Normalising twice is normalising once, for any input. */
  lemma NormaliseTwice(value: string)
    ensures NormalisePhone(NormalisePhone(value)) == NormalisePhone(value)
  {
    NormalisePhoneIdempotent(NormalisePhone(value));
  }

  /** A value that does not start with `+254` ends as `+254` followed by the
      digits left once the longest country-code match is cut off. */
  lemma NormaliseForeignValue(value: string, k: nat)
    requires !StartsWith(value, CountryPrefix)
    requires k <= |value| && IsCountryCodeMatch(value[..k])
    requires forall j :: k < j <= |value| ==> !IsCountryCodeMatch(value[..j])
    ensures NormalisePhone(value) == CountryPrefix + KeepDigits(value[k..])
  {
    StripCountryCodeIsLongestMatch(value);
    var k' := |value| - |StripCountryCode(value)|;
    assert IsCountryCodeMatch(value[..k']);
    assert k == k';
  }

  // ------------------------------------------------------------ amount field

  /** What the amount field may hold: at most 6 characters, and not an
      integer above 150000. */
  predicate AmountAcceptable(amount: string) {
    |amount| <= 6 && !(ParseInt(amount).Some? && ParseInt(amount).value > MaxAmount)
  }

  /** `handleAmountChange`: an empty value clears the field; a value longer
      than 6 characters or an integer above 150000 is refused and `current`
      kept; anything else is stored as typed. */
  function FilterAmount(current: string, value: string): (r: string)
    ensures value == "" ==> r == ""
    ensures value != "" && AmountAcceptable(value) ==> r == value
    ensures value != "" && !AmountAcceptable(value) ==> r == current
  {
    if value == "" then ""
    else if |value| > 6 then current
    else if ParseInt(value).Some? && ParseInt(value).value > MaxAmount then current
    else value
  }

  /** The filter keeps the field acceptable. */
  lemma FilterAmountKeepsAcceptable(current: string, value: string)
    requires AmountAcceptable(current)
    ensures AmountAcceptable(FilterAmount(current, value))
  {
    ParseEmpty();
  }

  /** The quick amounts are acceptable values of the field, and parse back to
      themselves. */
  lemma QuickAmountsAcceptable(q: nat)
    requires q in QuickAmounts
    ensures AmountAcceptable(NatToString(q))
    ensures ParseFloat(NatToString(q)) == Some(q as real)
  {
    ParseNatToString(q);
    assert Pow10(6) == 1000000;
    NatToStringLength(q, 6);
  }

  // ------------------------------------------------------------------ submit

  /** The guard of `handleSubmit`: a phone of at least 10 characters, and an
      amount that parses to a positive number (`!amountNum` refuses NaN and 0). */
  predicate DepositAllowed(phoneNumber: string, amount: string) {
    phoneNumber != "" && |phoneNumber| >= 10 && ParseFloat(amount).Some? && ParseFloat(amount).value > 0.0
  }

  /** The submit button's `disabled` expression (NaN compares false). */
  predicate SubmitDisabled(isLoading: bool, phoneNumber: string, amount: string) {
    isLoading || phoneNumber == "" || |phoneNumber| < 10 || amount == ""
    || (ParseFloat(amount).Some? && ParseFloat(amount).value <= 0.0)
  }

  /** Whatever the handler accepts, the button offers when not loading; the
      converse fails only for an amount that is not a number. */
  lemma AllowedIsEnabled(isLoading: bool, phoneNumber: string, amount: string)
    ensures DepositAllowed(phoneNumber, amount) && !isLoading ==> !SubmitDisabled(isLoading, phoneNumber, amount)
    ensures !SubmitDisabled(isLoading, phoneNumber, amount) ==>
      (DepositAllowed(phoneNumber, amount) <==> ParseFloat(amount).Some?)
  {
    ParseEmpty();
  }

  /** `parseInt` reads the text `2e5` as 2. */
  lemma ParseIntTwoE5()
    ensures ParseInt("2e5") == Some(2)
  {
    var s := "2e5";
    TrimStartFromDigit(s);
    assert !IsDigit(s[1..][0]);
    assert DigitPrefixLength(s) == 1;
    assert s[..1] == "2" && "2"[..0] == "";
    assert DigitsValue("2") == 2;
  }

  /** The exponent part `e5` is 5. */
  lemma ExponentE5()
    ensures Exponent("e5") == 5
  {
    TrimStartFromDigit("5");
    DigitPrefixOfDigits("5");
    assert "e5"[1..] == "5" && "5"[..1] == "5" && "5"[..0] == "";
    assert DigitsValue("5") == 5;
  }

  /** The unsigned decimal `2e5` is 200000. */
  lemma UnsignedDecimalTwoE5()
    ensures UnsignedDecimal("2e5") == Some(200000.0)
  {
    var s := "2e5";
    assert !IsDigit(s[1..][0]);
    assert DigitPrefixLength(s) == 1;
    assert s[..1] == "2" && "2"[..0] == "" && s[1..] == "e5";
    assert DigitsValue("2") == 2;
    ExponentE5();
    assert Pow10(5) == 100000;
  }

  /** `parseFloat` reads the text `2e5` as 200000. */
  lemma ParseFloatTwoE5()
    ensures ParseFloat("2e5") == Some(200000.0)
  {
    TrimStartFromDigit("2e5");
    UnsignedDecimalTwoE5();
  }

  /** The handler's own guard has no lower bound but 0, so an amount of 5,
      below the input's `min` of 10, is sent; only the browser's check of
      `min`, made before the handler runs, stops it. */
  lemma SmallAmountLeftToBrowser(phoneNumber: string)
    requires |phoneNumber| >= 10
    ensures ParseFloat("5") == Some(5.0) && DepositAllowed(phoneNumber, "5")
  {
    TrimStartFromDigit("5");
    UnsignedDecimalDigits("5");
    assert "5"[..0] == "";
    assert DigitsValue("5") == 5;
  }

  /** The amount filter reads only the leading digits, so `2e5` (200000)
      passes it and is sent; only the browser's check of the input's `max`,
      made before the handler runs, stops it. */
  lemma ExponentAmountLeftToBrowser(phoneNumber: string)
    requires |phoneNumber| >= 10
    ensures FilterAmount("", "2e5") == "2e5"
    ensures ParseFloat("2e5") == Some(200000.0) && ParseFloat("2e5").value > MaxAmount as real
    ensures DepositAllowed(phoneNumber, "2e5")
  {
    ParseIntTwoE5();
    ParseFloatTwoE5();
  }

  /** `user?.phoneNumber || '+254'`. */
  function InitialPhone(user: Option<User>): (p: string)
    ensures user.Some? && user.value.phoneNumber != "" ==> p == user.value.phoneNumber
    ensures user.None? || user.value.phoneNumber == "" ==> p == CountryPrefix
  {
    if user.Some? then OrElse(Some(user.value.phoneNumber), CountryPrefix) else CountryPrefix
  }

  /** The deposit the drawer hands to its parent. */
  datatype Deposit = Deposit(phoneNumber: string, amount: real)

  class Drawer {
    var phoneNumber: string
    var amount: string
    var isLoading: bool
    var isSuccess: bool

    /** The amount field never holds a refused value. */
    predicate Valid()
      reads this
    {
      AmountAcceptable(amount)
    }

    constructor (user: Option<User>)
      ensures phoneNumber == InitialPhone(user) && amount == "" && !isLoading && !isSuccess
      ensures Valid()
    {
      phoneNumber := InitialPhone(user);
      amount := "";
      isLoading := false;
      isSuccess := false;
      ParseEmpty();
    }

    /** Typing in the phone field. */
    method ChangePhone(value: string)
      modifies this`phoneNumber
      ensures phoneNumber == NormalisePhone(value)
      ensures StartsWith(phoneNumber, CountryPrefix) && AllDigits(phoneNumber[4..])
    {
      phoneNumber := NormalisePhone(value);
    }

    /** Typing in the amount field. */
    method ChangeAmount(value: string)
      requires Valid()
      modifies this`amount
      ensures amount == FilterAmount(old(amount), value)
      ensures Valid()
    {
      FilterAmountKeepsAcceptable(amount, value);
      amount := FilterAmount(amount, value);
    }

    /** A click on a quick-amount button. */
    method PickQuickAmount(q: nat)
      requires q in QuickAmounts
      modifies this`amount
      ensures amount == NatToString(q) && ParseFloat(amount) == Some(q as real)
      ensures Valid()
    {
      QuickAmountsAcceptable(q);
      amount := NatToString(q);
    }

    /** `handleSubmit` up to the await: the deposit is handed over, and the
        drawer starts loading, only when the guard holds. */
    method Submit() returns (sent: Option<Deposit>)
      modifies this`isLoading
      ensures DepositAllowed(phoneNumber, amount) ==>
        sent == Some(Deposit(phoneNumber, ParseFloat(amount).value)) && isLoading
      ensures !DepositAllowed(phoneNumber, amount) ==> sent == None && isLoading == old(isLoading)
      ensures sent.Some? ==> |sent.value.phoneNumber| >= 10 && sent.value.amount > 0.0
    {
      var amountNum := ParseFloat(amount);
      if phoneNumber == "" || |phoneNumber| < 10 || amountNum.None? || amountNum.value == 0.0 || amountNum.value <= 0.0 {
        return None;
      }
      isLoading := true;
      sent := Some(Deposit(phoneNumber, amountNum.value));
    }

    /** The rest of `handleSubmit`: a deposit that went through shows the
        success view; loading ends either way. */
    method Settle(deposited: Outcome)
      modifies this`isLoading, this`isSuccess
      ensures !isLoading && isSuccess == (deposited.Pass? || old(isSuccess))
    {
      if deposited.Pass? {
        isSuccess := true;
      }
      isLoading := false;
    }

    /** The timer set after a successful deposit: the fields go back to their
        first values and the drawer closes. */
    method ResetAfterSuccess(user: Option<User>) returns (closes: bool)
      modifies this`isSuccess, this`phoneNumber, this`amount
      ensures !isSuccess && phoneNumber == InitialPhone(user) && amount == "" && closes
      ensures Valid()
    {
      isSuccess := false;
      phoneNumber := InitialPhone(user);
      amount := "";
      closes := true;
      ParseEmpty();
    }
  }
}
