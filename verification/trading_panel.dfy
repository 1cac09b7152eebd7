/** The trading panel: the linked USD and ICP amount fields, the guards on
    the buy and sell buttons, and the toast a settled trade shows.

    The fields hold what `parseFloat` reads from them: nothing for an empty
    field, otherwise a number or NaN. A derived field holds the `toFixed`
    text of the converted amount: six decimals of ICP, two of USD.
 */
module TradingPanel {
  import opened Wrappers
  import opened JsValues
  import opened Text
  import opened TradingActions

  datatype Amount = Blank | Entered(value: Num)

  datatype Fields = Fields(usd: Amount, icp: Amount)

  const EmptyFields: Fields := Fields(Blank, Blank)

  /** `toFixed(6)` for ICP and `toFixed(2)` for USD, as units per whole. */
  const IcpScale: real := 1000000.0
  const UsdScale: real := 100.0

  /** `priceData?.currentPrice || 0`. */
  function PanelPrice(price: Num): (p: real)
    ensures Truthy(price) ==> p == price.value
    ensures !Truthy(price) ==> p == 0.0
  {
    OrElse(price, 0.0)
  }

  /** `handleUsdChange`: the USD field takes the edit; the ICP field becomes
      USD divided by the price, to six decimals, or empty when the edit is
      empty or there is no positive price. */
  function OnUsdChange(f: Fields, value: Amount, price: real): (g: Fields)
    ensures g.usd == value
    ensures value.Entered? && price > 0.0 ==>
      g.icp.Entered? && (g.icp.value.Some? <==> value.value.Some?)
      && (value.value.Some? ==>
            && WholeUnits(g.icp.value.value, IcpScale)
            && -0.5 <= (g.icp.value.value - value.value.value / price) * IcpScale <= 0.5)
    ensures value.Blank? || price <= 0.0 ==> g.icp == Blank
  {
    if value.Entered? && price > 0.0 then Fields(value, Entered(ToFixedNum(DivideBy(value.value, price), IcpScale)))
    else Fields(value, Blank)
  }

  /** `handleIcpChange`: the ICP field takes the edit; the USD field becomes
      ICP times the price, to two decimals, or empty when the edit is empty
      or there is no positive price. */
  function OnIcpChange(f: Fields, value: Amount, price: real): (g: Fields)
    ensures g.icp == value
    ensures value.Entered? && price > 0.0 ==>
      g.usd.Entered? && (g.usd.value.Some? <==> value.value.Some?)
      && (value.value.Some? ==>
            && WholeUnits(g.usd.value.value, UsdScale)
            && -0.5 <= (g.usd.value.value - value.value.value * price) * UsdScale <= 0.5)
    ensures value.Blank? || price <= 0.0 ==> g.usd == Blank
  {
    if value.Entered? && price > 0.0 then Fields(Entered(ToFixedNum(Times(value.value, price), UsdScale)), value)
    else Fields(Blank, value)
  }

  /** The two conversions undo each other up to their rounding: typing a
      USD amount and then the ICP amount it produced gives back the USD
      amount within half a cent plus the price of half a millionth of an
      ICP; typing an ICP amount and then the USD amount it produced gives
      back the ICP amount within half a millionth plus half a cent's worth
      of ICP. */
  lemma ConversionRoundTrip(f: Fields, usd: real, icp: real, price: real)
    requires price > 0.0
    ensures var g := OnUsdChange(f, Entered(Some(usd)), price);
      var back := OnIcpChange(g, g.icp, price).usd;
      back.Entered? && back.value.Some?
      && -0.005 - price * 0.0000005 <= back.value.value - usd <= 0.005 + price * 0.0000005
    ensures var g := OnIcpChange(f, Entered(Some(icp)), price);
      var back := OnUsdChange(g, g.usd, price).icp;
      back.Entered? && back.value.Some?
      && -0.0000005 - 0.005 / price <= back.value.value - icp <= 0.0000005 + 0.005 / price
  {
    UsdRoundTrip(f, usd, price);
    IcpRoundTrip(f, icp, price);
  }

  /** The USD-first half of `ConversionRoundTrip`. */
  lemma UsdRoundTrip(f: Fields, usd: real, price: real)
    requires price > 0.0
    ensures var g := OnUsdChange(f, Entered(Some(usd)), price);
      var back := OnIcpChange(g, g.icp, price).usd;
      back.Entered? && back.value.Some?
      && -0.005 - price * 0.0000005 <= back.value.value - usd <= 0.005 + price * 0.0000005
  {
    var g := OnUsdChange(f, Entered(Some(usd)), price);
    var u := OnIcpChange(g, g.icp, price).usd;
    UsdRoundTripBound(usd, price, g.icp.value.value, u.value.value);
  }

  /** The ICP-first half of `ConversionRoundTrip`. */
  lemma IcpRoundTrip(f: Fields, icp: real, price: real)
    requires price > 0.0
    ensures var g := OnIcpChange(f, Entered(Some(icp)), price);
      var back := OnUsdChange(g, g.usd, price).icp;
      back.Entered? && back.value.Some?
      && -0.0000005 - 0.005 / price <= back.value.value - icp <= 0.0000005 + 0.005 / price
  {
    var h := OnIcpChange(f, Entered(Some(icp)), price);
    var i := OnUsdChange(h, h.usd, price).icp;
    IcpRoundTripBound(icp, price, h.usd.value.value, i.value.value);
  }

  /** USD to ICP to USD: the two roundings add up to at most half a cent and
      the price of half a millionth of an ICP. */
  lemma UsdRoundTripBound(usd: real, price: real, i: real, u: real)
    requires price > 0.0
    requires -0.5 <= (i - usd / price) * IcpScale <= 0.5
    requires -0.5 <= (u - i * price) * UsdScale <= 0.5
    ensures -0.005 - price * 0.0000005 <= u - usd <= 0.005 + price * 0.0000005
  {
    var d := i - usd / price;
    var e := u - i * price;
    MicroBound(d);
    CentBound(e);
    assert d * price == i * price - usd by {
      assert usd / price * price == usd;
    }
    ScaleBound(d, 0.0000005, price);
    assert u - usd == e + d * price;
    AddBounds(e, d * price, 0.005, 0.0000005 * price);
  }

  /** ICP to USD to ICP: the two roundings add up to at most half a
      millionth of an ICP and half a cent's worth of ICP. */
  lemma IcpRoundTripBound(icp: real, price: real, u: real, i: real)
    requires price > 0.0
    requires -0.5 <= (u - icp * price) * UsdScale <= 0.5
    requires -0.5 <= (i - u / price) * IcpScale <= 0.5
    ensures -0.0000005 - 0.005 / price <= i - icp <= 0.0000005 + 0.005 / price
  {
    var d := u - icp * price;
    var e := i - u / price;
    CentBound(d);
    MicroBound(e);
    var q := 1.0 / price;
    assert d * q == u / price - icp by {
      assert price * q == 1.0;
      assert icp * price * q == icp * (price * q);
      assert u / price == u * q;
    }
    ScaleBound(d, 0.005, q);
    assert 0.005 * q == 0.005 / price;
    assert i - icp == e + d * q;
    AddBounds(e, d * q, 0.0000005, 0.005 * q);
  }

  /** Two bounded errors add up to a bounded error. */
  lemma AddBounds(a: real, b: real, ca: real, cb: real)
    requires -ca <= a <= ca && -cb <= b <= cb
    ensures -ca - cb <= a + b <= ca + cb
  {
  }

  /** Within half a unit of `toFixed(2)` is within half a cent. */
  lemma CentBound(x: real)
    requires -0.5 <= x * UsdScale <= 0.5
    ensures -0.005 <= x <= 0.005
  {
  }

  /** Within half a unit of `toFixed(6)` is within half a millionth. */
  lemma MicroBound(x: real)
    requires -0.5 <= x * IcpScale <= 0.5
    ensures -0.0000005 <= x <= 0.0000005
  {
  }

  /** Multiplying by a positive number keeps a symmetric bound. */
  lemma ScaleBound(d: real, c: real, p: real)
    requires p > 0.0 && -c <= d <= c
    ensures -c * p <= d * p <= c * p
  {
    assert (c - d) * p >= 0.0;
    assert (d + c) * p >= 0.0;
  }

  /** Exact inverses they are not: 1.234567 ICP at 8.5 shows 10.49 USD,
      which converts back to 1.234118 ICP, and 0.001 USD shows 0.000118
      ICP, which converts back to 0.00 USD. */
  lemma RoundingBreaksExactRoundTrip()
    ensures var g := OnIcpChange(EmptyFields, Entered(Some(1.234567)), 8.5);
      g.usd == Entered(Some(10.49))
      && OnUsdChange(g, g.usd, 8.5).icp == Entered(Some(1.234118))
    ensures var g := OnUsdChange(EmptyFields, Entered(Some(0.001)), 8.5);
      g.icp == Entered(Some(0.000118))
      && OnIcpChange(g, g.icp, 8.5).usd == Entered(Some(0.0))
  {
    assert (1.234567 * 8.5 * 100.0 + 0.5).Floor == 1049;
    assert (10.49 / 8.5 * 1000000.0 + 0.5).Floor == 1234118;
    assert (0.001 / 8.5 * 1000000.0 + 0.5).Floor == 118;
    assert (0.000118 * 8.5 * 100.0 + 0.5).Floor == 0;
  }

  /** Without a price both conversions only clear the other field. */
  lemma NoPriceNoConversion(f: Fields, value: Amount, price: Num)
    requires !Truthy(price)
    ensures OnUsdChange(f, value, PanelPrice(price)) == Fields(value, Blank)
    ensures OnIcpChange(f, value, PanelPrice(price)) == Fields(Blank, value)
  {
  }

  /** `if (!amount || parseFloat(amount) <= 0) return`: an empty field or a
      number not above 0 is refused. NaN is not `<= 0`, so it is let
      through. */
  function ShouldSubmit(a: Amount): (ok: bool)
    ensures ok ==> a.Entered?
    ensures a.Entered? && a.value.Some? ==> (ok <==> a.value.value > 0.0)
    ensures a.Entered? && a.value.None? ==> ok
  {
    a.Entered? && !(a.value.Some? && a.value.value <= 0.0)
  }

  lemma ShouldSubmitCases(a: Amount)
    ensures a.Blank? ==> !ShouldSubmit(a)
    ensures a.Entered? && a.value.Some? ==> (ShouldSubmit(a) <==> a.value.value > 0.0)
  {
  }

  // ---------------------------------------------------------------------
  // Toasts

  datatype Side = Buy | Sell

  datatype ToastKind = RegistrationRequired | InsufficientBalance | TransactionFailed

  datatype Toast = Succeeded(side: Side) | Failed(kind: ToastKind, description: string)

  const RegistrationKeyword: string := "registration"
  const RegisteredKeyword: string := "registered"

  predicate MentionsRegistration(m: string) {
    Contains(m, RegistrationKeyword) || Contains(m, RegisteredKeyword)
  }

  /** The toast title for a normalised message: a registration problem first,
      then a balance problem, otherwise a generic failure. */
  function Classify(m: string): (k: ToastKind)
    ensures k == RegistrationRequired <==> MentionsRegistration(m)
    ensures k == InsufficientBalance <==> !MentionsRegistration(m) && Contains(m, InsufficientKeyword)
    ensures k == TransactionFailed <==> !MentionsRegistration(m) && !Contains(m, InsufficientKeyword)
  {
    if MentionsRegistration(m) then RegistrationRequired
    else if Contains(m, InsufficientKeyword) then InsufficientBalance
    else TransactionFailed
  }

  /** The state after one press of the buy or sell button. */
  datatype Press = Press(fields: Fields, submitted: Option<Num>, toast: Option<Toast>)

  /** The amount a side trades: USD for a buy, ICP for a sale. */
  function TradedAmount(side: Side, f: Fields): Amount {
    match side
    case Buy => f.usd
    case Sell => f.icp
  }

  /** `handleBuy` / `handleSell`, given how the mutation settles: a refused
      amount changes nothing and calls nothing; a trade that goes through
      clears both fields and shows a success toast; a failed one keeps the
      fields and shows the classified, normalised error. */
  function HandleTrade(side: Side, f: Fields, outcome: Outcome): (p: Press)
    ensures !ShouldSubmit(TradedAmount(side, f)) ==> p == Press(f, None, None)
    ensures ShouldSubmit(TradedAmount(side, f)) ==> p.submitted == Some(TradedAmount(side, f).value)
    ensures ShouldSubmit(TradedAmount(side, f)) && outcome.Done? ==>
      p.fields == EmptyFields && p.toast == Some(Succeeded(side))
    ensures ShouldSubmit(TradedAmount(side, f)) && outcome.Rejected? ==>
      var m := ParseBackendError(outcome.error);
      p.fields == f && p.toast == Some(Failed(Classify(m), m))
  {
    var amount := TradedAmount(side, f);
    if !ShouldSubmit(amount) then Press(f, None, None)
    else match outcome
      case Done => Press(EmptyFields, Some(amount.value), Some(Succeeded(side)))
      case Rejected(e) =>
        var m := ParseBackendError(e);
        Press(f, Some(amount.value), Some(Failed(Classify(m), m)))
  }

  /** A buy and a sale that fail with the same error show the same toast. */
  lemma BuyAndSellClassifyAlike(f: Fields, e: Thrown)
    requires ShouldSubmit(f.usd) && ShouldSubmit(f.icp)
    ensures HandleTrade(Buy, f, Rejected(e)).toast == HandleTrade(Sell, f, Rejected(e)).toast
  {
  }

  /** Messages without a `g` or a capital `I` mention neither registration
      nor a balance. */
  lemma FailedByLetters(m: string)
    requires 'g' !in m && 'I' !in m
    ensures Classify(m) == TransactionFailed
  {
    ExcludesChar(m, RegistrationKeyword, 2);
    ExcludesChar(m, RegisteredKeyword, 2);
    ExcludesChar(m, InsufficientKeyword, 0);
  }

  // Where the fixed messages have a `g`, one fact per lemma as for the
  // capital letters.
  lemma NoActorLacksG() ensures 'g' !in NoActorMessage {}
  lemma CashLacksG() ensures 'g' !in CashMessage {}

  /** The only `g` of the setup message is the one of "again", among its
      last five characters. */
  lemma SetupHeadLacksG()
    ensures 'g' !in "Account setup " + "required. " + "Please wait " + "a moment and " + "try a"
  {
  }

  lemma NoActorMessageClassified()
    ensures Classify(NoActorMessage) == TransactionFailed
  {
    NoActorLacksG();
    NoActorLacksI();
    FailedByLetters(NoActorMessage);
  }

  /** The `g` of "again" comes too late for either registration keyword. */
  lemma SetupMessageClassified()
    ensures Classify(SetupMessage) == TransactionFailed
  {
    var u, f := "Account setup " + "required. " + "Please wait " + "a moment and " + "try a", "gain.";
    assert SetupMessage == u + f;
    SetupHeadLacksG();
    SetupLacksI();
    ExcludesBeforeTail(u, f, RegistrationKeyword, 2);
    ExcludesBeforeTail(u, f, RegisteredKeyword, 2);
    ExcludesChar(SetupMessage, InsufficientKeyword, 0);
  }

  lemma CashMessageClassified()
    ensures Classify(CashMessage) == InsufficientBalance
  {
    CashLacksG();
    ExcludesChar(CashMessage, RegistrationKeyword, 2);
    ExcludesChar(CashMessage, RegisteredKeyword, 2);
    ContainsPrefix(CashMessage, InsufficientKeyword);
  }

  /** Pressing a button before the connection is ready shows a generic
      failure with the connection message. */
  lemma NoActorToast(side: Side, f: Fields, accountFailure: Option<Thrown>, tradeFailure: Option<Thrown>)
    requires ShouldSubmit(TradedAmount(side, f))
    ensures HandleTrade(side, f, TradeMutation(false, accountFailure, tradeFailure)).toast
         == Some(Failed(TransactionFailed, NoActorMessage))
  {
    NoActorMessageIsGeneric();
    NoActorMessageClassified();
  }

  /** An authorisation failure while creating the account shows a generic
      failure with the setup message, never the registration toast: the
      setup message does not mention registration. */
  lemma SetupFailureToast(side: Side, f: Fields, accountFailure: Thrown, tradeFailure: Option<Thrown>)
    requires ShouldSubmit(TradedAmount(side, f))
    requires NeedsSetup(WorkingMessage(accountFailure))
    ensures HandleTrade(side, f, TradeMutation(true, Some(accountFailure), tradeFailure)).toast
         == Some(Failed(TransactionFailed, SetupMessage))
  {
    ParseIdempotent(accountFailure, "Error");
    SetupMessageClassified();
  }

  /** A missing-cash failure while creating the account shows the balance
      toast with the cash message. */
  lemma CashFailureToast(side: Side, f: Fields, accountFailure: Thrown, tradeFailure: Option<Thrown>)
    requires ShouldSubmit(TradedAmount(side, f))
    requires !NeedsSetup(WorkingMessage(accountFailure)) && Contains(WorkingMessage(accountFailure), CashKeyword)
    ensures HandleTrade(side, f, TradeMutation(true, Some(accountFailure), tradeFailure)).toast
         == Some(Failed(InsufficientBalance, CashMessage))
  {
    ParseIdempotent(accountFailure, "Error");
    CashMessageClassified();
  }
}
