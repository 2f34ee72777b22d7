/** Renewal pricing and the coverage quote: money enters as decimal text, and every amount that
    leaves is a whole number of cents. */
module Pricing {
  import opened Results
  import opened Decimals

  const WIDE := 64      // the context the services compute in
  const DEFAULT := 28   // the context the contract validators run in

  datatype PricingInputError = PricingInputError

  datatype Currency = EUR | Other

  /** An untrusted amount, as the decimal constructor reads it. */
  datatype Text = Unreadable | NotFinite | Number(d: Dec)

  // ---------------------------------------------------------------- accepting an amount

  /** `_decimal`. */
  function Accept(t: Text): Result<Dec, PricingInputError> {
    if !t.Number? || (t.d.neg && t.d.coeff > 0) then Err(PricingInputError)
    else if t.d.exp + Digits(t.d.coeff) - 1 > 27 || Digits(t.d.coeff) > 64 then Err(PricingInputError)
    else
      match ToCents(t.d, WIDE)
      case None => Err(PricingInputError)
      case Some(rounded) =>
        if !Same(rounded, t.d) then Err(PricingInputError)
        else Ok(if rounded.coeff == 0 then rounded.(neg := false) else rounded)
  }

  predicate WholeCents(d: Dec) {
    d.exp >= CENT || Remainder(d.coeff, Pow10(CENT - d.exp)) == 0
  }

  function Cents(d: Dec): nat {
    if d.exp >= CENT then d.coeff * Pow10(d.exp - CENT) else Quotient(d.coeff, Pow10(CENT - d.exp))
  }

  /** The amounts the services take: nonnegative, below ten to the 28, at most 64 digits, and a
      whole number of cents. */
  predicate Acceptable(t: Text) {
    && t.Number?
    && (t.d.neg ==> t.d.coeff == 0)
    && t.d.exp + Digits(t.d.coeff) <= 28 && Digits(t.d.coeff) <= 64
    && WholeCents(t.d)
  }

  function Money(cents: nat): Dec {
    Dec(false, cents, CENT)
  }

  lemma HalfUpOfMultiple(n: nat, k: nat)
    requires k > 0
    ensures Product(HalfUp(n, k), Pow10(k)) == n <==> Remainder(n, Pow10(k)) == 0
    ensures Remainder(n, Pow10(k)) == 0 ==> HalfUp(n, k) == Quotient(n, Pow10(k))
  {
    Pow10Even(k);
    hide Pow10;
    var p, q := Pow10(k), Quotient(n, Pow10(k));
    Divided(n, p);
    var r := Remainder(n, p);
    var up := if r + p / 2 >= p then 1 else 0;
    assert Product(q + 1, p) == Product(q, p) + p;
    DivUnique(n + p / 2, p, q + up, r + p / 2 - up * p);
  }

  lemma DivUnique(x: nat, p: nat, q: nat, r: nat)
    requires 0 <= r < p && x == Product(q, p) + r
    ensures Quotient(x, p) == q
  {
    Divided(x, p);
    var q', r' := Quotient(x, p), Remainder(x, p);
    if q > q' {
      MulMonotone(q' + 1, q, p);
    } else if q < q' {
      MulMonotone(q + 1, q', p);
    }
  }

  /** The rounding inside the acceptance test never fails for want of digits. */
  lemma CentsFitTheContext(d: Dec)
    requires d.exp + Digits(d.coeff) <= 28 && Digits(d.coeff) <= 64
    ensures ToCents(d, WIDE).Some?
    ensures d.exp >= CENT ==> d.coeff * Pow10(d.exp - CENT) < Pow10(30)
  {
    hide Digits, Pow10, HalfUp;
    if d.exp >= CENT {
      var n := Digits(d.coeff);
      DigitsBound(d.coeff, n);
      Pow10Adds(n, d.exp - CENT);
      MulLess(d.coeff, Pow10(n), Pow10(d.exp - CENT));
      Pow10Grows(n + (d.exp - CENT), 30);
      Pow10Grows(30, WIDE);
      DigitsBound(d.coeff * Pow10(d.exp - CENT), WIDE);
    } else {
      var k := CENT - d.exp;
      DigitsBound(d.coeff, WIDE);
      HalfUpShrinks(d.coeff, k);
      DigitsBound(HalfUp(d.coeff, k), WIDE);
    }
  }

  lemma MulLess(a: nat, b: nat, p: nat)
    requires a < b && p > 0
    ensures a * p < b * p
  {
  }

  lemma HalfUpShrinks(n: nat, k: nat)
    requires k > 0
    ensures HalfUp(n, k) <= n
  {
    Pow10Even(k);
    assert Pow10(k) == 10 * Pow10(k - 1);
    hide Pow10, Quotient;
    var p := Pow10(k);
    Divided(n + p / 2, p);
    if HalfUp(n, k) > n {
      assert (n + 1) * p == n * p + p;
      MulMonotoneRight(n, 1, p);
      MulMonotone(n + 1, HalfUp(n, k), p);
    }
  }

  /** Exactly the acceptable amounts are accepted, and each as its number of cents. */
  lemma AcceptedExactly(t: Text)
    ensures Accept(t).Ok? <==> t.Number? && Acceptable(t)
    ensures Acceptable(t) ==> Accept(t) == Ok(Money(Cents(t.d))) && Cents(t.d) < Pow10(30)
    ensures Acceptable(t) ==> Same(Money(Cents(t.d)), t.d)
  {
    hide Digits, HalfUp, Quotient, Remainder, Pow10;
    if t.Number? && (t.d.neg ==> t.d.coeff == 0) && t.d.exp + Digits(t.d.coeff) <= 28 && Digits(t.d.coeff) <= 64 {
      var d := t.d;
      CentsFitTheContext(d);
      PowerZero();
      if d.exp < CENT {
        var k := CENT - d.exp;
        HalfUpOfMultiple(d.coeff, k);
        HalfUpShrinks(d.coeff, k);
        if WholeCents(d) {
          SmallCents(d);
        }
      }
    }
  }

  lemma PowerZero()
    ensures Pow10(0) == 1
  {
  }

  lemma SmallCents(d: Dec)
    requires d.exp < CENT && d.exp + Digits(d.coeff) <= 28
    ensures Cents(d) < Pow10(30)
  {
    hide Digits, Pow10, Quotient, Remainder;
    var k, n := CENT - d.exp, Digits(d.coeff);
    DigitsBound(d.coeff, n);
    Pow10Grows(n, 30 + k);
    Pow10Adds(30, k);
    Divided(d.coeff, Pow10(k));
    if Cents(d) >= Pow10(30) {
      MulMonotone(Pow10(30), Cents(d), Pow10(k));
    }
  }

  // ---------------------------------------------------------------- pricing one renewal

  datatype ScenarioRole = AccountManager | OperationsManager

  datatype Price = Price(annual: Dec, discount: Dec, amount: Dec, net: Dec, required: ScenarioRole)

  const HUNDRED := Dec(false, 100, 0)
  const LIMIT := 800    // the account manager's limit, in hundredths of a percent

  function Discount(t: Text): Result<Dec, PricingInputError> {
    match Accept(t)
    case Err(e) => Err(e)
    case Ok(d) => if d.coeff > 10000 then Err(PricingInputError) else Ok(d)
  }

  function RequiredRole(discount: Dec): ScenarioRole {
    if discount.coeff <= LIMIT then AccountManager else OperationsManager
  }

  /** `calculate_pricing`. */
  function CalculatePricing(annualValue: Text, discountPercent: Text, currency: Currency): Result<Price, PricingInputError> {
    if currency != EUR then Err(PricingInputError)
    else
      match Accept(annualValue)
      case Err(e) => Err(e)
      case Ok(annual) =>
        if annual.coeff == 0 then Err(PricingInputError)
        else
          match Discount(discountPercent)
          case Err(e) => Err(e)
          case Ok(discount) =>
            match ToCents(Over(Times(annual, Minus(HUNDRED, discount, WIDE), WIDE), HUNDRED, WIDE), WIDE)
            case None => Err(PricingInputError)
            case Some(net) => Ok(Price(annual, discount, Minus(annual, net, WIDE), net, RequiredRole(discount)))
  }

  /** The net value in cents: `a` cents less `d` hundredths of a percent, rounded once, half up. */
  function RoundedNet(a: nat, d: nat): (net: nat)
    requires d <= 10000
    ensures net <= a
  {
    MulMonotoneRight(a, 10000 - d, 10000);
    (a * (10000 - d) + 5000) / 10000
  }

  /** The half cent goes up: no whole number of cents is nearer to the exact value. */
  lemma NetIsNearest(a: nat, d: nat, other: int)
    requires d <= 10000
    ensures var exact, net := a * (10000 - d), RoundedNet(a, d);
      && exact - 5000 < 10000 * net <= exact + 5000
      && 0 <= net <= a
      && (other != net ==> Abs(10000 * other - exact) >= Abs(10000 * net - exact))
  {
    var exact, net := a * (10000 - d), RoundedNet(a, d);
    assert exact <= a * 10000 by {
      MulMonotoneRight(a, 10000 - d, 10000);
    }
  }

  function Abs(x: int): nat {
    if x < 0 then -x else x
  }

  lemma MulMonotoneRight(a: nat, b: nat, c: nat)
    requires b <= c
    ensures a * b <= a * c
  {
  }

  /** A higher value never nets less, and a deeper discount never nets more. */
  lemma NetIsMonotone(a: nat, b: nat, d: nat, e: nat)
    requires a <= b && d <= e <= 10000
    ensures RoundedNet(a, e) <= RoundedNet(a, d) <= RoundedNet(b, d)
    ensures a - RoundedNet(a, d) <= a - RoundedNet(a, e)
  {
    MulMonotone(a, b, 10000 - d);
    MulMonotoneRight(a, 10000 - e, 10000 - d);
    DivMonotone(a * (10000 - e) + 5000, a * (10000 - d) + 5000);
    DivMonotone(a * (10000 - d) + 5000, b * (10000 - d) + 5000);
  }

  lemma DivMonotone(x: nat, y: nat)
    requires x <= y
    ensures x / 10000 <= y / 10000
  {
  }

  /** Inside the 64-digit context nothing but the final rounding loses a digit. */
  lemma NetIsRoundedOnce(a: nat, d: nat)
    requires a < Pow10(30) && d <= 10000
    ensures ToCents(Over(Times(Money(a), Minus(HUNDRED, Money(d), WIDE), WIDE), HUNDRED, WIDE), WIDE) == Some(Money(RoundedNet(a, d)))
    ensures Minus(Money(a), Money(RoundedNet(a, d)), WIDE) == Money(a - RoundedNet(a, d))
  {
    hide Pow10, Digits, Over, Fix, HalfUp;
    SmallPowers();
    Pow10Adds(30, 5);
    Pow10Grows(35, WIDE);
    Pow10Grows(30, WIDE);
    assert Units(HUNDRED, CENT) == 10000 && Units(Money(d), CENT) == d;
    FixKeepsShort(Money(10000 - d), WIDE);
    assert Minus(HUNDRED, Money(d), WIDE) == Money(10000 - d);

    var product := a * (10000 - d);
    MulMonotoneRight(a, 10000 - d, 100000);
    MulLess(a, Pow10(30), 100000);
    assert Pow10(35) == Pow10(30) * 100000;
    FixKeepsShort(Dec(false, product, -4), WIDE);
    HundredthIsExact(Dec(false, product, -4), WIDE);
    var r := Over(Dec(false, product, -4), HUNDRED, WIDE);
    CentsOfHundredths(r.coeff, r.exp, product);
    NetIsNearest(a, d, 0);
    var net := RoundedNet(a, d);
    DigitsBound(net, WIDE);
    assert Units(Money(a), CENT) == a && Units(Money(net), CENT) == net;
    FixKeepsShort(Money(a - net), WIDE);
  }

  lemma SmallPowers()
    ensures Pow10(0) == 1 && Pow10(1) == 10 && Pow10(2) == 100 && Pow10(3) == 1000 && Pow10(4) == 10000 && Pow10(5) == 100000
  {
  }

  predicate Priceable(annualValue: Text, discountPercent: Text, currency: Currency) {
    && currency == EUR
    && annualValue.Number? && Acceptable(annualValue) && Cents(annualValue.d) > 0
    && discountPercent.Number? && Acceptable(discountPercent) && Cents(discountPercent.d) <= 10000
  }

  /** A renewal is priced exactly when its inputs are acceptable, and then the amounts are the
      exact ones: the net is rounded once, and net and discount add up to the annual value. */
  lemma PricingIsExact(annualValue: Text, discountPercent: Text, currency: Currency)
    ensures CalculatePricing(annualValue, discountPercent, currency).Ok? <==> Priceable(annualValue, discountPercent, currency)
    ensures Priceable(annualValue, discountPercent, currency) ==>
      var a, d := Cents(annualValue.d), Cents(discountPercent.d);
      var net := RoundedNet(a, d);
      && net <= a
      && CalculatePricing(annualValue, discountPercent, currency)
           == Ok(Price(Money(a), Money(d), Money(a - net), Money(net), if d <= 800 then AccountManager else OperationsManager))
  {
    hide Accept, Acceptable, Cents, ToCents, Over, Times, Minus, RoundedNet, Pow10;
    AcceptedExactly(annualValue);
    AcceptedExactly(discountPercent);
    if Priceable(annualValue, discountPercent, currency) {
      var a, d := Cents(annualValue.d), Cents(discountPercent.d);
      NetIsRoundedOnce(a, d);
      NetIsNearest(a, d, 0);
    }
  }

  /** Pricing the amounts a price reports gives that price again. */
  lemma RepricingIsStable(annualValue: Text, discountPercent: Text, currency: Currency)
    requires CalculatePricing(annualValue, discountPercent, currency).Ok?
    ensures var p := CalculatePricing(annualValue, discountPercent, currency).value;
      CalculatePricing(Number(p.annual), Number(p.discount), currency) == Ok(p)
  {
    hide Accept, Acceptable, Cents, CalculatePricing, RoundedNet, Pow10;
    PricingIsExact(annualValue, discountPercent, currency);
    AcceptedExactly(annualValue);
    AcceptedExactly(discountPercent);
    var p := CalculatePricing(annualValue, discountPercent, currency).value;
    PrintedIsAcceptable(p.annual.coeff);
    PrintedIsAcceptable(p.discount.coeff);
    PricingIsExact(Number(p.annual), Number(p.discount), currency);
  }

  lemma PrintedIsAcceptable(cents: nat)
    requires cents < Pow10(30)
    ensures Acceptable(Number(Money(cents))) && Cents(Money(cents)) == cents
  {
    DigitsBound(cents, 30);
    assert Pow10(0) == 1;
  }

  // ---------------------------------------------------------------- discount authority

  datatype Verdict = Authorized | EscalationRequired | Unauthorized

  /** `check_authority`; `actor` is None for a role that is not mapped. */
  function CheckAuthority(discountPercent: Text, actor: Option<ScenarioRole>): Result<Verdict, PricingInputError> {
    match Discount(discountPercent)
    case Err(e) => Err(e)
    case Ok(discount) =>
      if actor.None? then Ok(Unauthorized)
      else if discount.coeff > LIMIT then Ok(EscalationRequired)
      else if actor.value.AccountManager? then Ok(Authorized)
      else Ok(Unauthorized)
  }

  /** Only an account manager is ever authorized, and only up to the limit that pricing itself
      assigns to that role. */
  lemma AuthorityMatchesPricing(annualValue: Text, discountPercent: Text, actor: Option<ScenarioRole>)
    requires CalculatePricing(annualValue, discountPercent, EUR).Ok?
    ensures CheckAuthority(discountPercent, actor).Ok?
    ensures CheckAuthority(discountPercent, actor).value.Authorized?
       <==> actor == Some(AccountManager) && CalculatePricing(annualValue, discountPercent, EUR).value.required.AccountManager?
    ensures CheckAuthority(discountPercent, actor).value.EscalationRequired?
       <==> actor.Some? && CalculatePricing(annualValue, discountPercent, EUR).value.required.OperationsManager?
    ensures CheckAuthority(discountPercent, actor).value.Authorized? ==> Acceptable(discountPercent) && Cents(discountPercent.d) <= 800
  {
    hide Accept, Acceptable, Cents, CalculatePricing, RoundedNet, Pow10;
    PricingIsExact(annualValue, discountPercent, EUR);
    AcceptedExactly(discountPercent);
  }

  // ---------------------------------------------------------------- the coverage quote

  datatype QuoteError = InputRefused | ContractRefused

  datatype Quote = Quote(base: Dec, vat: Dec, total: Dec)

  const VAT_RATE := Dec(false, 2400, CENT)

  /** The quote contract: the sum is taken in the default context. */
  predicate QuoteConsistent(q: Quote) {
    Same(Plus(q.base, q.vat, DEFAULT), q.total)
  }

  /** `calculate_renewal_quote`. */
  function CalculateQuote(baseAmount: Text, currency: Currency): Result<Quote, QuoteError> {
    if currency != EUR then Err(InputRefused)
    else
      match Accept(baseAmount)
      case Err(_) => Err(InputRefused)
      case Ok(base) =>
        if base.coeff == 0 then Err(InputRefused)
        else
          match ToCents(Over(Times(base, VAT_RATE, WIDE), HUNDRED, WIDE), WIDE)
          case None => Err(InputRefused)
          case Some(vat) =>
            var q := Quote(base, vat, Plus(base, vat, WIDE));
            if QuoteConsistent(q) then Ok(q) else Err(ContractRefused)
  }

  function Vat(a: nat): nat {
    (24 * a + 50) / 100
  }

  lemma VatIsRoundedOnce(a: nat)
    requires a < Pow10(30)
    ensures ToCents(Over(Times(Money(a), VAT_RATE, WIDE), HUNDRED, WIDE), WIDE) == Some(Money(Vat(a)))
    ensures Plus(Money(a), Money(Vat(a)), WIDE) == Money(a + Vat(a))
  {
    hide Pow10, Digits, Over, Fix, HalfUp;
    SmallPowers();
    Pow10Adds(30, 5);
    Pow10Grows(35, WIDE);
    assert Pow10(35) == Pow10(30) * 100000;
    var product := a * 2400;
    FixKeepsShort(Dec(false, product, -4), WIDE);
    HundredthIsExact(Dec(false, product, -4), WIDE);
    var r := Over(Dec(false, product, -4), HUNDRED, WIDE);
    CentsOfHundredths(r.coeff, r.exp, product);
    assert (product + 5000) / 10000 == Vat(a);
    DigitsBound(Vat(a), WIDE);
    assert Units(Money(a), CENT) == a && Units(Money(Vat(a)), CENT) == Vat(a);
    FixKeepsShort(Money(a + Vat(a)), WIDE);
  }

  predicate Quotable(baseAmount: Text, currency: Currency) {
    currency == EUR && baseAmount.Number? && Acceptable(baseAmount) && Cents(baseAmount.d) > 0
  }

  /** VAT is 24 per cent, half up, and the total is base plus VAT exactly. The contract then
      refuses the quote exactly when 28 digits cannot hold that total. */
  lemma QuoteIsExact(baseAmount: Text, currency: Currency)
    ensures CalculateQuote(baseAmount, currency) == Err(InputRefused) <==> !Quotable(baseAmount, currency)
    ensures Quotable(baseAmount, currency) ==>
      var a := Cents(baseAmount.d);
      CalculateQuote(baseAmount, currency) ==
        if Fits(a + Vat(a), DEFAULT) then Ok(Quote(Money(a), Money(Vat(a)), Money(a + Vat(a)))) else Err(ContractRefused)
  {
    hide Accept, Acceptable, Cents, ToCents, Over, Times, Plus, Pow10, Vat, Fits, Same;
    AcceptedExactly(baseAmount);
    if Quotable(baseAmount, currency) {
      var a := Cents(baseAmount.d);
      VatIsRoundedOnce(a);
      ContractRounds(a, Vat(a));
    }
  }

  lemma ContractRounds(a: nat, v: nat)
    ensures Plus(Money(a), Money(v), DEFAULT) == Fix(Money(a + v), DEFAULT)
    ensures Same(Plus(Money(a), Money(v), DEFAULT), Money(a + v)) <==> Fits(a + v, DEFAULT)
  {
    assert Pow10(0) == 1;
    assert Units(Money(a), CENT) == a && Units(Money(v), CENT) == v;
    FixIsFaithful(Money(a + v), DEFAULT);
  }

  /** Totals below ten to the 28 cents always fit. */
  lemma ShortTotalsFit(n: nat)
    requires n < Pow10(28)
    ensures Fits(n, DEFAULT)
  {
    DigitsBound(n, 28);
  }

  /** An amount the quote accepts and the contract then refuses. */
  lemma SomeTotalsDoNotFit()
    ensures var t := Number(Money(Pow10(28) + 1));
      Quotable(t, EUR) && CalculateQuote(t, EUR) == Err(ContractRefused)
  {
    hide Pow10, Digits, CalculateQuote, Remainder, Acceptable, Cents, Vat;
    var a := Pow10(28) + 1;
    PowersAround28();
    PrintedIsAcceptable(a);
    QuoteIsExact(Number(Money(a)), EUR);
    VatOfTheAmount();
    var n := a + Vat(a);
    DigitsBound(n, 28);
    DigitsBound(n, 29);
    assert Remainder(n, Pow10(1)) == 1 by {
      LastDigit(n, 124 * Pow10(25));
    }
  }

  lemma PowersAround28()
    ensures Pow10(1) == 10 && Pow10(26) == 10 * Pow10(25) && Pow10(28) == 100 * Pow10(26)
    ensures Pow10(29) == 10 * Pow10(28) && Pow10(30) == 100 * Pow10(28) && Pow10(25) >= 10
  {
  }

  lemma VatOfTheAmount()
    ensures Vat(Pow10(28) + 1) == 24 * Pow10(26)
  {
    PowersAround28();
    hide Pow10;
    assert 24 * (Pow10(28) + 1) + 50 == 100 * (24 * Pow10(26)) + 74;
  }

  lemma LastDigit(n: nat, tens: nat)
    requires n == 10 * tens + 1
    ensures Remainder(n, 10) == 1
  {
  }

  // ---------------------------------------------------------------- the invoice preview

  datatype LineItem = LineItem(quantity: nat, unit: Dec, line: Dec)

  datatype Preview = Preview(lines: seq<LineItem>, subtotal: Dec, vat: Dec, total: Dec)

  predicate LineConsistent(item: LineItem) {
    item.quantity > 0 && Same(Times(item.unit, Dec(false, item.quantity, 0), DEFAULT), item.line)
  }

  function SumLines(lines: seq<LineItem>): Dec {
    if lines == [] then Dec(false, 0, 0)
    else Plus(SumLines(lines[..|lines| - 1]), lines[|lines| - 1].line, DEFAULT)
  }

  predicate PreviewConsistent(p: Preview) {
    && p.lines != []
    && (forall i :: 0 <= i < |p.lines| ==> LineConsistent(p.lines[i]))
    && Same(SumLines(p.lines), p.subtotal)
    && Same(Plus(p.subtotal, p.vat, DEFAULT), p.total)
  }

  /** The preview a package is drafted with. */
  function OneLine(q: Quote): Preview {
    Preview([LineItem(1, q.base, q.base)], q.base, q.vat, q.total)
  }

  /** A quote that was issued makes a preview that is accepted exactly when 28 digits hold its
      base amount as well. */
  lemma PreviewIsExact(baseAmount: Text, currency: Currency)
    requires CalculateQuote(baseAmount, currency).Ok?
    ensures PreviewConsistent(OneLine(CalculateQuote(baseAmount, currency).value)) <==> Fits(Cents(baseAmount.d), DEFAULT)
  {
    QuoteIsExact(baseAmount, currency);
    var q := CalculateQuote(baseAmount, currency).value;
    var a := Cents(baseAmount.d);
    FixIsFaithful(Money(a), DEFAULT);
    assert Pow10(0) == 1;
    var item := LineItem(1, q.base, q.base);
    assert Times(item.unit, Dec(false, 1, 0), DEFAULT) == Fix(Money(a), DEFAULT);
    assert [item][..0] == [];
    assert Pow10(2) == 100 by {
      assert Pow10(1) == 10;
    }
    assert Units(Dec(false, 0, 0), CENT) == 0 && Units(Money(a), CENT) == a;
    assert SumLines([item]) == Fix(Money(a), DEFAULT);
    assert OneLine(q).lines[0] == item;
  }
}
