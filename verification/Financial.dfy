/** Bill arithmetic and payment validation (backend/src/financial.utils.ts), together with the
    discount rules of the orders controller. All amounts are integer cents; rates are basis points. */
module Financial {
  import opened Outcomes

  const BPS: int := 10000
  const DEFAULT_FEE_BPS: int := 1000

  /** Math.round(n / 10000) on exact integers: halves go up. */
  function RoundBps(n: int): int {
    (n + 5000) / 10000
  }

  function Max0(n: int): int {
    if n < 0 then 0 else n
  }

  // ----- calculateBillTotals -----

  datatype Totals = Totals(subtotal: int, discount: int, feeBps: int, fee: int, total: int)

  function CalculateBillTotals(subtotal: int, discount: int, feeBps: int): Result<Totals> {
    var sub, disc, bps := Max0(subtotal), Max0(discount), Max0(feeBps);
    if disc > sub then
      Fail(BadRequest)
    else
      var fee := RoundBps((sub - disc) * bps);
      Ok(Totals(sub, disc, bps, fee, sub - disc + fee))
  }

  /** The fee is the exact charge rounded to the nearest cent, halves up. */
  lemma FeeIsHalfUp(base: int, bps: int)
    ensures -5000 < 10000 * RoundBps(base * bps) - base * bps <= 5000
  {
    var n := base * bps;
    assert n + 5000 == 10000 * ((n + 5000) / 10000) + (n + 5000) % 10000;
  }

  lemma RoundMonotone(m: int, n: int)
    requires m <= n
    ensures RoundBps(m) <= RoundBps(n)
  {
  }

  lemma ProductMonotone(x: int, y: int, u: int, v: int)
    requires 0 <= x <= y && 0 <= u <= v
    ensures x * u <= y * v
  {
    assert x * u <= x * v;
    assert x * v <= y * v;
  }

  /** A larger bill or a higher rate never lowers the fee. */
  lemma FeeIsMonotone(base: int, base': int, bps: int, bps': int)
    requires 0 <= base <= base' && 0 <= bps <= bps'
    ensures RoundBps(base * bps) <= RoundBps(base' * bps')
  {
    ProductMonotone(base, base', bps, bps');
    RoundMonotone(base * bps, base' * bps');
  }

  /** Splitting a bill changes the summed fee by at most one cent. */
  lemma FeeIsAdditiveWithinOneCent(a: int, b: int, bps: int)
    ensures var whole, parts := RoundBps((a + b) * bps), RoundBps(a * bps) + RoundBps(b * bps);
      -1 <= whole - parts <= 1
  {
    assert (a + b) * bps == a * bps + b * bps;
    FeeIsHalfUp(a, bps);
    FeeIsHalfUp(b, bps);
    FeeIsHalfUp(a + b, bps);
  }

  // ----- discounts -----

  datatype DiscountKind = Fixed | Percent

  /** The discount part of a settlement body. `value` is cents for Fixed, basis points for Percent. */
  datatype DiscountBody = DiscountBody(cents: Option<int>, kind: Option<DiscountKind>, value: Option<int>)

  datatype Discount = Discount(kind: Option<DiscountKind>, value: Option<int>, cents: int)

  /** resolveDiscount */
  function ResolveDiscount(subtotal: int, body: DiscountBody): Result<Discount> {
    var kind: Option<DiscountKind> := if body.kind.None? && body.cents.Some? then Some(Fixed) else body.kind;
    if kind == Some(Percent) then
      if body.value.None? || body.value.value < 0 || body.value.value > BPS then
        Fail(BadRequest)
      else
        var calculated := RoundBps(subtotal * body.value.value);
        if body.cents.Some? && body.cents.value != calculated then
          Fail(BadRequest)
        else
          Ok(Discount(kind, body.value, calculated))
    else if kind == Some(Fixed) then
      if body.value.Some? && body.cents.Some? && body.value != body.cents then
        Fail(BadRequest)
      else
        var cents := body.value.GetOr(body.cents.GetOr(0));
        Ok(Discount(kind, Some(cents), cents))
    else
      Ok(Discount(None, body.value, body.cents.GetOr(0)))
  }

  /** The DTO bounds on a settlement body: integers, and not negative where they are validated. */
  predicate ValidDiscountBody(body: DiscountBody) {
    && (body.cents.Some? ==> body.cents.value >= 0)
    && (body.kind.Some? ==> body.value.Some? && body.value.value >= 0)
  }

  /** Whatever a valid body asks for, an accepted discount is never negative, a percentage never
      exceeds the subtotal, and so only a fixed discount can be refused as too large. */
  lemma AcceptedDiscountRange(subtotal: int, body: DiscountBody)
    requires subtotal >= 0 && ValidDiscountBody(body)
    ensures var r := ResolveDiscount(subtotal, body);
      r.Ok? ==>
        && r.value.cents >= 0
        && (r.value.kind == Some(Percent) ==>
              r.value.cents <= subtotal && forall bps :: CalculateBillTotals(subtotal, r.value.cents, bps).Ok?)
  {
    var r := ResolveDiscount(subtotal, body);
    if r.Ok? && r.value.kind == Some(Percent) {
      PercentWithinSubtotal(subtotal, body.value.value);
    }
  }

  lemma PercentWithinSubtotal(subtotal: int, value: int)
    requires 0 <= subtotal && 0 <= value <= BPS
    ensures 0 <= RoundBps(subtotal * value) <= subtotal
  {
    ProductMonotone(subtotal, subtotal, value, BPS);
    ProductMonotone(0, subtotal, 0, value);
    RoundMonotone(subtotal * value, subtotal * BPS);
  }

  datatype Role = Waiter | Kitchen | Cashier | Manager | Owner | Admin

  /** assertDiscountPermission: only a cashier is limited, and only on a bill above zero. */
  predicate DiscountPermitted(role: Role, limit: Option<int>, subtotal: int, discount: int) {
    role == Cashier && subtotal > 0 ==> discount * 10000 <= subtotal * limit.GetOr(BPS)
  }

  /** Exactly when a cashier may give `value` basis points under a limit of `limit`. The rounding
      of the discount decides, so a percentage equal to the limit can still be refused. */
  lemma CashierPercentAccepted(subtotal: int, value: int, limit: int)
    requires subtotal > 0
    ensures DiscountPermitted(Cashier, Some(limit), subtotal, RoundBps(subtotal * value)) <==>
            subtotal * (limit - value) >= 5000 - (subtotal * value + 5000) % 10000
    ensures subtotal * (limit - value) >= 5000 ==>
            DiscountPermitted(Cashier, Some(limit), subtotal, RoundBps(subtotal * value))
  {
    var n := subtotal * value;
    assert n + 5000 == 10000 * RoundBps(n) + (n + 5000) % 10000;
    assert subtotal * (limit - value) == subtotal * limit - n;
  }

  /** The limit itself is refused on a one-cent bill, although half a cent is 50%. */
  lemma LimitItselfCanBeRefused()
    ensures !DiscountPermitted(Cashier, Some(5000), 1, RoundBps(1 * 5000))
  {
    CashierPercentAccepted(1, 5000, 5000);
  }

  // ----- validatePaymentsTotal -----

  datatype Method = Cash | Pix | Credit | Debit | Voucher | UnknownMethod

  datatype PaymentInput = PaymentInput(via: Method, amount: int, tendered: Option<int>)

  datatype Payment = Payment(via: Method, amount: int, tendered: Option<int>, change: int, charge: Option<string>)

  /** One payment passes the checks made inside the loop. */
  predicate AcceptablePayment(p: PaymentInput) {
    && p.amount > 0
    && p.via != UnknownMethod
    && (p.tendered.Some? ==>
          if p.via == Cash then p.tendered.value >= p.amount else p.tendered.value == p.amount)
  }

  /** What is recorded for an acceptable payment: cash defaults to the exact amount. */
  function Recorded(p: PaymentInput): Payment {
    if p.via == Cash then
      var tendered := p.tendered.GetOr(p.amount);
      Payment(Cash, p.amount, Some(tendered), tendered - p.amount, None)
    else
      Payment(p.via, p.amount, p.tendered, 0, None)
  }

  function AllRecorded(inputs: seq<PaymentInput>): (payments: seq<Payment>)
    ensures |payments| == |inputs|
  {
    seq(|inputs|, i requires 0 <= i < |inputs| => Recorded(inputs[i]))
  }

  function AmountOf(payments: seq<Payment>): int {
    if payments == [] then 0 else AmountOf(payments[..|payments| - 1]) + payments[|payments| - 1].amount
  }

  function ChangeOf(payments: seq<Payment>): int {
    if payments == [] then 0 else ChangeOf(payments[..|payments| - 1]) + payments[|payments| - 1].change
  }

  function CashTendered(payments: seq<Payment>): int {
    if payments == [] then
      0
    else
      var p := payments[|payments| - 1];
      CashTendered(payments[..|payments| - 1]) + (if p.via == Cash then p.tendered.GetOr(0) else 0)
  }

  function CashAmount(payments: seq<Payment>): int {
    if payments == [] then
      0
    else
      var p := payments[|payments| - 1];
      CashAmount(payments[..|payments| - 1]) + (if p.via == Cash then p.amount else 0)
  }

  /** The payments liquidate the bill: there is at least one, each is acceptable, they add up. */
  predicate Liquidates(expected: int, inputs: seq<PaymentInput>) {
    && inputs != []
    && (forall i :: 0 <= i < |inputs| ==> AcceptablePayment(inputs[i]))
    && AmountOf(AllRecorded(inputs)) == expected
  }

  datatype PaymentCheck = PaymentCheck(totalPaid: int, totalChange: int, payments: seq<Payment>)

  function CheckPayments(expected: int, inputs: seq<PaymentInput>): Result<PaymentCheck> {
    if Liquidates(expected, inputs) then
      var payments := AllRecorded(inputs);
      Ok(PaymentCheck(expected, ChangeOf(payments), payments))
    else
      Fail(BadRequest)
  }

  /** validatePaymentsTotal: the loop accepts exactly the lists that liquidate the bill. */
  method ValidatePaymentsTotal(expected: int, inputs: seq<PaymentInput>) returns (r: Result<PaymentCheck>)
    ensures r == CheckPayments(expected, inputs)
  {
    if |inputs| == 0 {
      return Fail(BadRequest);
    }
    var totalPaid, totalChange := 0, 0;
    var validated: seq<Payment> := [];
    for i := 0 to |inputs|
      invariant validated == AllRecorded(inputs[..i])
      invariant totalPaid == AmountOf(validated) && totalChange == ChangeOf(validated)
      invariant forall k :: 0 <= k < i ==> AcceptablePayment(inputs[k])
    {
      var p := inputs[i];
      if p.amount <= 0 || p.via == UnknownMethod {
        return Fail(BadRequest);
      }
      var change, tendered := 0, p.tendered;
      if p.via == Cash {
        if tendered.Some? {
          if tendered.value < p.amount {
            return Fail(BadRequest);
          }
          change := tendered.value - p.amount;
        } else {
          tendered := Some(p.amount);
        }
      } else if tendered.Some? && tendered.value != p.amount {
        return Fail(BadRequest);
      }
      totalPaid := totalPaid + p.amount;
      totalChange := totalChange + change;
      var before := validated;
      validated := validated + [Payment(p.via, p.amount, tendered, change, None)];
      assert inputs[..i + 1][..i] == inputs[..i];
      assert validated[..|validated| - 1] == before;
    }
    assert inputs[..|inputs|] == inputs;
    if totalPaid != expected {
      return Fail(BadRequest);
    }
    r := Ok(PaymentCheck(totalPaid, totalChange, validated));
  }

  /** Cash is conserved: what was handed over is what was paid plus the change, and change is
      given for cash alone. */
  lemma {:induction false} CashIsConserved(inputs: seq<PaymentInput>)
    requires forall i :: 0 <= i < |inputs| ==> AcceptablePayment(inputs[i])
    ensures var ps := AllRecorded(inputs);
      CashTendered(ps) == CashAmount(ps) + ChangeOf(ps) && ChangeOf(ps) >= 0
  {
    if inputs != [] {
      var init := inputs[..|inputs| - 1];
      CashIsConserved(init);
      assert AllRecorded(inputs)[..|inputs| - 1] == AllRecorded(init);
    }
  }

  lemma {:induction false} AmountsArePositive(inputs: seq<PaymentInput>)
    requires forall i :: 0 <= i < |inputs| ==> AcceptablePayment(inputs[i])
    ensures inputs != [] ==> AmountOf(AllRecorded(inputs)) > 0
  {
    if |inputs| > 0 {
      var init := inputs[..|inputs| - 1];
      AmountsArePositive(init);
      assert AllRecorded(inputs)[..|inputs| - 1] == AllRecorded(init);
    }
  }
}
