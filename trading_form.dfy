/** The input rules of the trading form: the amount pattern, the manual
    price updaters, the derived prices and amounts, and when the submit
    button is disabled. Amounts are exact decimals. */
module TradingForm {
  import opened Wrappers
  import opened Strings

  predicate IsSeparator(c: char) { c == '.' || c == ',' }

  /** Length of the run of digits that starts `s`. */
  function DigitRun(s: string): (n: nat)
    ensures n <= |s|
    ensures n < |s| ==> !IsDigit(s[n])
    decreases |s|
  {
    if s == [] || !IsDigit(s[0]) then 0 else 1 + DigitRun(s[1..])
  }

  lemma {:induction false} DigitRunDigits(s: string)
    ensures AllDigits(s[..DigitRun(s)])
    decreases |s|
  {
    if s != [] && IsDigit(s[0]) {
      DigitRunDigits(s[1..]);
      var n := DigitRun(s);
      assert s[..n] == [s[0]] + s[1..][..n - 1];
    }
  }

  lemma {:induction false} DigitRunExact(s: string, n: nat)
    requires n <= |s| && AllDigits(s[..n])
    requires n < |s| ==> !IsDigit(s[n])
    ensures DigitRun(s) == n
    decreases |s|
  {
    if n > 0 {
      assert IsDigit(s[..n][0]);
      assert s[1..][..n - 1] == s[..n][1..];
      DigitRunExact(s[1..], n - 1);
    }
  }

  /** `/^[0-9]+([\.,][0-9]+)?$/`, matched left to right: a run of digits,
      then either the end or one separator and a run of digits reaching
      the end. */
  function AmountScan(amount: string): bool {
    var n := DigitRun(amount);
    && n > 0
    && (n == |amount|
        || (IsSeparator(amount[n]) && n + 1 < |amount| && DigitRun(amount[n + 1..]) == |amount| - n - 1))
  }

  /** The language of the pattern: digits, or digits, one separator and
      digits. */
  ghost predicate AmountPattern(amount: string) {
    || (amount != [] && AllDigits(amount))
    || exists k :: 0 < k < |amount| - 1 && IsSeparator(amount[k]) && AllDigits(amount[..k]) && AllDigits(amount[k + 1..])
  }

  /** Where the separator of a valid amount is, if there is one. */
  lemma AmountDecomposition(amount: string) returns (k: nat)
    requires AmountScan(amount)
    ensures 0 < k <= |amount| && AllDigits(amount[..k])
    ensures k < |amount| ==> k < |amount| - 1 && IsSeparator(amount[k]) && AllDigits(amount[k + 1..])
    ensures k == DigitRun(amount)
  {
    k := DigitRun(amount);
    DigitRunDigits(amount);
    if k < |amount| {
      var rest := amount[k + 1..];
      DigitRunDigits(rest);
      assert rest[..|rest|] == rest;
    }
  }

  lemma AmountPatternIsValid(amount: string)
    requires AmountPattern(amount)
    ensures AmountScan(amount)
  {
    if amount != [] && AllDigits(amount) {
      assert amount[..|amount|] == amount;
      DigitRunExact(amount, |amount|);
    } else {
      var k :| 0 < k < |amount| - 1 && IsSeparator(amount[k]) && AllDigits(amount[..k]) && AllDigits(amount[k + 1..]);
      DigitRunExact(amount, k);
      var rest := amount[k + 1..];
      assert rest[..|rest|] == rest;
      DigitRunExact(rest, |rest|);
    }
  }

  /** The recogniser accepts exactly the language of the pattern. */
  lemma AmountScanIsPattern(amount: string)
    ensures AmountScan(amount) <==> AmountPattern(amount)
  {
    if AmountScan(amount) {
      var k := AmountDecomposition(amount);
      if k == |amount| {
        assert amount[..k] == amount;
      }
    }
    if AmountPattern(amount) {
      AmountPatternIsValid(amount);
    }
  }

  /** `isValidAmount`: the strings the pattern accepts, and only those. */
  function IsValidAmount(amount: string): (r: bool)
    ensures r <==> AmountPattern(amount)
  {
    AmountScanIsPattern(amount);
    AmountScan(amount)
  }

  /** A valid amount is non-empty, starts and ends with a digit (so it has
      no sign and no leading or trailing separator), consists of digits and
      separators, and has at most one separator. */
  lemma ValidAmountShape(amount: string)
    requires IsValidAmount(amount)
    ensures amount != [] && IsDigit(amount[0]) && IsDigit(amount[|amount| - 1])
    ensures forall i :: 0 <= i < |amount| ==> IsDigit(amount[i]) || IsSeparator(amount[i])
    ensures forall i, j :: 0 <= i < |amount| && 0 <= j < |amount| && IsSeparator(amount[i]) && IsSeparator(amount[j]) ==> i == j
  {
    var k := AmountDecomposition(amount);
    assert IsDigit(amount[..k][0]);
    forall i | 0 <= i < |amount| ensures (IsDigit(amount[i]) || i == k) {
      if i < k {
        assert amount[i] == amount[..k][i];
      } else if i > k {
        assert amount[i] == amount[k + 1..][i - k - 1];
      }
    }
  }

  lemma EmptyAmountIsInvalid()
    ensures !IsValidAmount("")
  {
  }

  /** Both separators are accepted. */
  lemma BothSeparatorsAreValid()
    ensures IsValidAmount("1.5") && IsValidAmount("1,5")
    ensures !IsValidAmount("1.") && !IsValidAmount(".5") && !IsValidAmount("1.2.3") && !IsValidAmount("-1")
  {
    assert DigitRun("5") == 1;
    assert DigitRun("1.5") == 1 && "1.5"[2..] == "5";
    assert DigitRun("1,5") == 1 && "1,5"[2..] == "5";
    assert DigitRun("1.2.3") == 1 && "1.2.3"[2..] == "2.3";
    assert DigitRun("2.3") == 1;
  }

  // ---------------------------------------------------------------------
  // Parsing with big.js
  // ---------------------------------------------------------------------

  /** `BigNumber(amount)` for a valid amount: big.js reads `.` as the
      decimal point and throws on `,`, which the pattern lets through. */
  function ParseAmount(amount: string): (r: Option<real>)
    requires IsValidAmount(amount)
    ensures r.None? <==> DigitRun(amount) < |amount| && amount[DigitRun(amount)] == ','
    ensures r.Some? ==> r.value >= 0.0
  {
    var n := DigitRun(amount);
    ValueOfDigits(amount, n);
    if n == |amount| then
      Some(DigitsValue(amount[..n]) as real)
    else if amount[n] == ',' then None
    else Some(DecimalValue(amount[..n], amount[n + 1..]))
  }

  /** The number `whole.fraction` denotes. */
  function DecimalValue(whole: string, fraction: string): (r: real)
    requires AllDigits(whole) && AllDigits(fraction)
    ensures r >= 0.0
  {
    DigitsValue(whole) as real + DigitsValue(fraction) as real / Pow10(|fraction|) as real
  }

  /** The facts `ParseAmount` needs to call `DigitsValue`. */
  lemma ValueOfDigits(amount: string, n: nat)
    requires IsValidAmount(amount) && n == DigitRun(amount)
    ensures AllDigits(amount[..n])
    ensures n < |amount| ==> AllDigits(amount[n + 1..])
  {
    var k := AmountDecomposition(amount);
  }

  /** Without a separator the amount is the whole number its digits
      denote. */
  lemma ParseWholeAmount(n: nat)
    ensures IsValidAmount(NatToString(n))
    ensures ParseAmount(NatToString(n)) == Some(n as real)
  {
    var s := NatToString(n);
    assert s[..|s|] == s;
    DigitRunExact(s, |s|);
    NatToStringValue(n);
  }

  /** A run of digits, leading zeros included, is the whole number it
      denotes. */
  lemma ParseDigitsAmount(s: string)
    requires s != [] && AllDigits(s)
    ensures IsValidAmount(s)
    ensures ParseAmount(s) == Some(DigitsValue(s) as real)
  {
    assert s[..|s|] == s;
    DigitRunExact(s, |s|);
  }

  /** Leading zeros do not change the amount. */
  lemma LeadingZerosAreIgnored()
    ensures IsValidAmount("007") && ParseAmount("007") == Some(7.0)
  {
    ParseDigitsAmount("007");
    assert "007"[..2] == "00" && "00"[..1] == "0" && "0"[..0] == "";
  }

  /** With a point, the amount is the digits read without the point,
      divided by ten to the number of fraction digits. */
  lemma ParseDecimalAmount(whole: string, fraction: string)
    requires whole != [] && fraction != [] && AllDigits(whole) && AllDigits(fraction)
    ensures IsValidAmount(whole + "." + fraction)
    ensures AllDigits(whole + fraction)
    ensures var r := ParseAmount(whole + "." + fraction);
      r.Some? && r.value == DigitsValue(whole + fraction) as real / Pow10(|fraction|) as real
  {
    DecimalParts(whole, fraction);
    DecimalValueScaled(whole, fraction);
  }

  lemma DecimalValueScaled(whole: string, fraction: string)
    requires AllDigits(whole) && AllDigits(fraction)
    ensures AllDigits(whole + fraction)
    ensures DecimalValue(whole, fraction) == DigitsValue(whole + fraction) as real / Pow10(|fraction|) as real
  {
    DigitsValueConcat(whole, fraction);
    var w, f, p := DigitsValue(whole), DigitsValue(fraction), Pow10(|fraction|);
    ScaleBack(w, f, p, DecimalValue(whole, fraction), DigitsValue(whole + fraction));
  }

  /** The two parts `ParseAmount` reads in `whole.fraction`. */
  lemma DecimalParts(whole: string, fraction: string)
    requires whole != [] && fraction != [] && AllDigits(whole) && AllDigits(fraction)
    ensures IsValidAmount(whole + "." + fraction)
    ensures ParseAmount(whole + "." + fraction) == Some(DecimalValue(whole, fraction))
  {
    var s := whole + "." + fraction;
    var k := |whole|;
    assert s[..k] == whole && s[k] == '.' && s[k + 1..] == fraction;
    DigitRunExact(s, k);
    assert fraction[..|fraction|] == fraction;
    DigitRunExact(fraction, |fraction|);
  }

  lemma ScaleBack(w: nat, f: nat, p: nat, d: real, n: nat)
    requires p > 0 && d == w as real + f as real / p as real && n == w * p + f
    ensures d == n as real / p as real
  {
    assert (w * p) as real == w as real * p as real;
  }

  // ---------------------------------------------------------------------
  // Manual price
  // ---------------------------------------------------------------------

  /** The manual price state: the text typed so far and the error shown. */
  datatype ManualPrice = ManualPrice(error: Option<string>, value: Option<string>)

  const InvalidPrice := "Invalid price"

  predicate Truthy(s: Option<string>) { s.Some? && s.value != "" }

  /** `updatePrice`: the new text is stored; a valid text clears the error,
      an invalid one keeps whatever error was shown. */
  function UpdatePrice(prev: ManualPrice, newPriceAmount: string): (r: ManualPrice)
    ensures r.value == Some(newPriceAmount)
    ensures IsValidAmount(newPriceAmount) ==> r.error.None?
    ensures !IsValidAmount(newPriceAmount) ==> r.error == prev.error
  {
    ManualPrice(if IsValidAmount(newPriceAmount) then None else prev.error, Some(newPriceAmount))
  }

  /** `validatePrice`: the text is kept; the error is set exactly when the
      text is non-empty and invalid, and cleared otherwise. */
  function ValidatePrice(prev: ManualPrice): (r: ManualPrice)
    ensures r.value == prev.value
    ensures r.error.Some? <==> Truthy(prev.value) && !IsValidAmount(prev.value.value)
    ensures r.error.Some? ==> r.error.value == InvalidPrice
  {
    ManualPrice(
      if Truthy(prev.value) && !IsValidAmount(prev.value.value) then Some(InvalidPrice) else None,
      prev.value)
  }

  lemma ValidatePriceIdempotent(prev: ManualPrice)
    ensures ValidatePrice(ValidatePrice(prev)) == ValidatePrice(prev)
  {
  }

  /** After typing and leaving the field, the error depends only on the
      text typed, not on the earlier state. */
  lemma UpdateThenValidate(prev: ManualPrice, other: ManualPrice, newPriceAmount: string)
    ensures ValidatePrice(UpdatePrice(prev, newPriceAmount)) == ValidatePrice(UpdatePrice(other, newPriceAmount))
    ensures ValidatePrice(UpdatePrice(prev, newPriceAmount)).error.Some? <==>
      newPriceAmount != "" && !IsValidAmount(newPriceAmount)
  {
  }

  /** A price that validates clean stays clean while valid text is typed. */
  lemma UpdateKeepsCleanState(prev: ManualPrice, newPriceAmount: string)
    requires prev.error.None?
    ensures UpdatePrice(prev, newPriceAmount).error.None?
  {
  }

  // ---------------------------------------------------------------------
  // Derived values
  // ---------------------------------------------------------------------

  datatype PriceMode = Primary | Secondary
  datatype TradeAction = Buy | Sell

  /** `price`: the typed price when it is non-empty and valid, in the
      secondary mode its reciprocal, otherwise 0. `None` is a big.js throw:
      a `,` in the text, or a reciprocal of zero. */
  function Price(manualPrice: ManualPrice, priceMode: PriceMode): (r: Option<real>)
    ensures !(Truthy(manualPrice.value) && IsValidAmount(manualPrice.value.value)) ==> r == Some(0.0)
    ensures r.None? <==>
      (&& Truthy(manualPrice.value)
       && IsValidAmount(manualPrice.value.value)
       && (ParseAmount(manualPrice.value.value).None?
           || (priceMode == Secondary && ParseAmount(manualPrice.value.value) == Some(0.0))))
    ensures r.Some? ==> r.value >= 0.0
    ensures r.Some? && Truthy(manualPrice.value) && IsValidAmount(manualPrice.value.value) && priceMode == Primary ==>
      ParseAmount(manualPrice.value.value) == r
    ensures r.Some? && Truthy(manualPrice.value) && IsValidAmount(manualPrice.value.value) && priceMode == Secondary ==>
      var p := ParseAmount(manualPrice.value.value);
      p.Some? && p.value != 0.0 && r.value * p.value == 1.0
  {
    if Truthy(manualPrice.value) && IsValidAmount(manualPrice.value.value) then
      match ParseAmount(manualPrice.value.value)
      case None => None
      case Some(p) =>
        if priceMode == Primary then Some(p)
        else if p == 0.0 then assert priceMode == Secondary; None
        else Some(1.0 / p)
    else Some(0.0)
  }

  /** `primaryAmount`: the typed amount when it is non-empty and valid,
      otherwise 0; `None` when big.js throws on a `,`. */
  function PrimaryAmount(primaryAmountString: string): (r: Option<real>)
    ensures !IsValidAmount(primaryAmountString) ==> r == Some(0.0)
    ensures IsValidAmount(primaryAmountString) ==> r == ParseAmount(primaryAmountString)
    ensures r.Some? ==> r.value >= 0.0
  {
    if primaryAmountString != "" && IsValidAmount(primaryAmountString) then ParseAmount(primaryAmountString)
    else Some(0.0)
  }

  /** A positive typed price wins; otherwise the best matching offer price
      when it is positive; otherwise 0. */
  function EffectivePrice(price: real, worstPriceOfBestMatches: Option<real>): (r: real)
    ensures price > 0.0 ==> r == price
    ensures price <= 0.0 && worstPriceOfBestMatches.Some? && worstPriceOfBestMatches.value > 0.0 ==>
      r == worstPriceOfBestMatches.value
    ensures price <= 0.0 && !(worstPriceOfBestMatches.Some? && worstPriceOfBestMatches.value > 0.0) ==> r == 0.0
  {
    if price > 0.0 then price
    else match worstPriceOfBestMatches
      case Some(best) => if best > 0.0 then best else 0.0
      case None => 0.0
  }

  /** The effective price is positive exactly when one of its sources is. */
  lemma EffectivePricePositive(price: real, worstPriceOfBestMatches: Option<real>)
    ensures EffectivePrice(price, worstPriceOfBestMatches) > 0.0 <==>
      price > 0.0 || (worstPriceOfBestMatches.Some? && worstPriceOfBestMatches.value > 0.0)
    ensures price >= 0.0 ==> EffectivePrice(price, worstPriceOfBestMatches) >= 0.0
  {
  }

  /** The reciprocal price, guarded against division by zero. */
  function InversePrice(effectivePrice: real): (r: real)
    ensures effectivePrice == 0.0 ==> r == 0.0
    ensures effectivePrice != 0.0 ==> r * effectivePrice == 1.0
  {
    if effectivePrice == 0.0 then 0.0 else 1.0 / effectivePrice
  }

  lemma InversePriceInvolution(effectivePrice: real)
    ensures InversePrice(InversePrice(effectivePrice)) == effectivePrice
  {
    if effectivePrice != 0.0 {
      var r := InversePrice(effectivePrice);
      assert r != 0.0;
      assert InversePrice(r) * r == 1.0;
    }
  }

  /** What is sold: the primary amount when selling, its price in the
      secondary asset when buying. */
  function SellingAmount(primaryAction: TradeAction, primaryAmount: real, effectivePrice: real): (r: real)
    ensures primaryAction == Sell ==> r == primaryAmount
    ensures primaryAction == Buy ==> r == primaryAmount * effectivePrice
  {
    if primaryAction == Sell then primaryAmount else primaryAmount * effectivePrice
  }

  /** The balance of the sold asset, 0 when the account holds none. */
  function SellingBalance(primaryAction: TradeAction, primaryBalance: Option<real>, secondaryBalance: Option<real>): (r: real)
    ensures var b := if primaryAction == Sell then primaryBalance else secondaryBalance;
      r == if b.Some? then b.value else 0.0
  {
    match if primaryAction == Sell then primaryBalance else secondaryBalance
    case Some(balance) => balance
    case None => 0.0
  }

  /** `maxPrimaryAmount` as the source computes it: when buying, the
      secondary balance times the effective price; when selling, the
      primary balance; 0 without a balance or, when buying, without a
      positive price. */
  function MaxPrimaryAmountAsWritten(primaryAction: TradeAction, primaryBalance: Option<real>,
                                     secondaryBalance: Option<real>, effectivePrice: real): (r: real)
    ensures primaryAction == Sell ==> r == SellingBalance(Sell, primaryBalance, secondaryBalance)
    ensures primaryAction == Buy && secondaryBalance.Some? && effectivePrice > 0.0 ==>
      r == secondaryBalance.value * effectivePrice
    ensures primaryAction == Buy && !(secondaryBalance.Some? && effectivePrice > 0.0) ==> r == 0.0
  {
    match primaryAction
    case Buy =>
      if secondaryBalance.Some? && effectivePrice > 0.0 then secondaryBalance.value * effectivePrice else 0.0
    case Sell =>
      if primaryBalance.Some? then primaryBalance.value else 0.0
  }

  /** Buying at price 2 with a secondary balance of 10: the advertised
      maximum is 20, and buying 20 costs 40, which disables the form. */
  lemma MaxPrimaryAmountAsWrittenOverstates()
    ensures var max := MaxPrimaryAmountAsWritten(Buy, None, Some(10.0), 2.0);
      && max == 20.0
      && SellingAmount(Buy, max, 2.0) > SellingBalance(Buy, None, Some(10.0))
  {
  }

  /** The largest primary amount the balance of the sold asset pays for:
      when buying, the secondary balance divided by the effective price. */
  function MaxPrimaryAmount(primaryAction: TradeAction, primaryBalance: Option<real>,
                            secondaryBalance: Option<real>, effectivePrice: real): (r: real)
    ensures primaryAction == Sell ==> r == SellingBalance(Sell, primaryBalance, secondaryBalance)
    ensures primaryAction == Buy && secondaryBalance.Some? && effectivePrice > 0.0 ==>
      r * effectivePrice == secondaryBalance.value
    ensures primaryAction == Buy && !(secondaryBalance.Some? && effectivePrice > 0.0) ==> r == 0.0
  {
    match primaryAction
    case Buy =>
      if secondaryBalance.Some? && effectivePrice > 0.0 then secondaryBalance.value / effectivePrice else 0.0
    case Sell =>
      if primaryBalance.Some? then primaryBalance.value else 0.0
  }

  lemma ScaledBound(amount: real, max: real, price: real, balance: real)
    requires price > 0.0 && max * price == balance
    ensures amount <= max <==> amount * price <= balance
  {
    if amount <= max {
      assert amount * price <= max * price;
    } else {
      assert amount * price > max * price;
    }
  }

  /** A non-negative amount is at most the maximum exactly when the balance
      of the sold asset covers what the amount sells. */
  lemma MaxPrimaryAmountCoversSelling(primaryAction: TradeAction, primaryBalance: Option<real>,
                                      secondaryBalance: Option<real>, effectivePrice: real, amount: real)
    requires amount >= 0.0 && effectivePrice > 0.0
    ensures amount <= MaxPrimaryAmount(primaryAction, primaryBalance, secondaryBalance, effectivePrice) <==>
      SellingAmount(primaryAction, amount, effectivePrice)
        <= SellingBalance(primaryAction, primaryBalance, secondaryBalance)
  {
    if primaryAction == Buy {
      var balance := SellingBalance(Buy, primaryBalance, secondaryBalance);
      var max := MaxPrimaryAmount(Buy, primaryBalance, secondaryBalance, effectivePrice);
      assert max * effectivePrice == balance;
      ScaledBound(amount, max, effectivePrice, balance);
    }
  }

  /** Everything the form reads. */
  datatype TradeForm = TradeForm(
    primaryAction: TradeAction,
    primaryAssetSelected: bool,
    primaryAmountString: string,
    manualPrice: ManualPrice,
    priceMode: PriceMode,
    worstPriceOfBestMatches: Option<real>,
    primaryBalance: Option<real>,
    secondaryBalance: Option<real>)

  /** `isDisabled`: whether the submit button is disabled — no asset
      selected, no positive amount, more sold than the balance holds, or no
      positive effective price; `None` when computing the derived values
      throws. */
  function FormDisabled(form: TradeForm): (r: Option<bool>)
    ensures r.None? <==> PrimaryAmount(form.primaryAmountString).None? || Price(form.manualPrice, form.priceMode).None?
    ensures r.Some? ==>
      var amount := PrimaryAmount(form.primaryAmountString).value;
      var effective := EffectivePrice(Price(form.manualPrice, form.priceMode).value, form.worstPriceOfBestMatches);
      (r.value <==>
        || !form.primaryAssetSelected
        || amount <= 0.0
        || SellingAmount(form.primaryAction, amount, effective)
           > SellingBalance(form.primaryAction, form.primaryBalance, form.secondaryBalance)
        || effective <= 0.0)
  {
    match (PrimaryAmount(form.primaryAmountString), Price(form.manualPrice, form.priceMode))
    case (Some(amount), Some(price)) =>
      var effective := EffectivePrice(price, form.worstPriceOfBestMatches);
      Some(
        || !form.primaryAssetSelected
        || amount <= 0.0
        || SellingAmount(form.primaryAction, amount, effective)
           > SellingBalance(form.primaryAction, form.primaryBalance, form.secondaryBalance)
        || effective <= 0.0)
    case (_, _) => None
  }

  /** An enabled form has a selected asset, a positive amount and price,
      and a balance of the sold asset that covers the positive amount
      sold: so that balance exists. */
  lemma EnabledFormIsCovered(form: TradeForm)
    requires FormDisabled(form) == Some(false)
    ensures form.primaryAssetSelected
    ensures PrimaryAmount(form.primaryAmountString).value > 0.0
    ensures var b := if form.primaryAction == Sell then form.primaryBalance else form.secondaryBalance;
      b.Some? && b.value > 0.0
  {
    var amount := PrimaryAmount(form.primaryAmountString).value;
    var effective := EffectivePrice(Price(form.manualPrice, form.priceMode).value, form.worstPriceOfBestMatches);
    var selling := SellingAmount(form.primaryAction, amount, effective);
    assert amount > 0.0 && effective > 0.0;
    assert selling > 0.0 by {
      if form.primaryAction == Buy {
        assert amount * effective > 0.0;
      }
    }
  }

  /** An empty or invalid amount disables the form. */
  lemma NoAmountDisables(form: TradeForm)
    requires !IsValidAmount(form.primaryAmountString)
    requires Price(form.manualPrice, form.priceMode).Some?
    ensures FormDisabled(form) == Some(true)
  {
  }
}
