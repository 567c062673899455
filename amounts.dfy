/**
 * How much a payment asks for: the booking's total for the full method,
 * a configured percentage of it for any other method.
 */
module PaymentAmounts {
  import opened Common

  datatype PaymentKind = Full | Prepayment

  /** Configuration the flow reads; an unset setting falls back to its default. */
  datatype Settings = Settings(debug: bool, prepaymentPercent: Option<int>, refundDays: Option<int>)

  const DefaultPrepaymentPercent := 30
  const DefaultRefundDays := 3

  /** The label of the one method that pays everything at once. */
  const FullMethod := "full"

  function PrepaymentPercent(s: Settings): int {
    s.prepaymentPercent.GetOr(DefaultPrepaymentPercent)
  }

  function RefundDays(s: Settings): int {
    s.refundDays.GetOr(DefaultRefundDays)
  }

  /** The kind recorded on a payment: only the exact label "full" is a full payment. */
  function KindFor(choice: string): PaymentKind {
    if choice == FullMethod then Full else Prepayment
  }

  /** `percent` per cent of `total`, exactly. */
  function PercentOf(total: Money, percent: int): (r: Money)
    ensures r * 100.0 == total * percent as real
    ensures percent == 100 ==> r == total
    ensures percent == 0 ==> r == 0.0
  {
    total * percent as real / 100.0
  }

  /** The amount a payment of the given method asks for. */
  function AmountDue(total: Money, choice: string, s: Settings): (r: Money)
    ensures KindFor(choice) == Full ==> r == total
    ensures KindFor(choice) == Prepayment ==> r * 100.0 == total * PrepaymentPercent(s) as real
  {
    if choice == FullMethod then total else PercentOf(total, PrepaymentPercent(s))
  }

  /** The figures shown on the payment page. */
  datatype Summary = Summary(full: Money, prepayment: Money, remaining: Money, percent: int, refundDays: int)

  function Summarize(total: Money, s: Settings): (r: Summary)
    ensures r.full == total
    ensures r.prepayment == AmountDue(total, "prepayment", s)
    ensures r.prepayment + r.remaining == r.full
    ensures r.percent == PrepaymentPercent(s) && r.refundDays == RefundDays(s)
  {
    var prepayment := PercentOf(total, PrepaymentPercent(s));
    Summary(total, prepayment, total - prepayment, PrepaymentPercent(s), RefundDays(s))
  }

  /** A product of two non-negative reals is non-negative. */
  lemma ProductNonNegative(a: real, b: real)
    requires 0.0 <= a && 0.0 <= b
    ensures 0.0 <= a * b
  {
  }

  /** A percentage in 0..100 of a non-negative total lies between nothing and the total. */
  lemma PercentOfWithinTotal(total: Money, percent: int)
    requires 0.0 <= total && 0 <= percent <= 100
    ensures 0.0 <= PercentOf(total, percent) <= total
  {
    var p := percent as real;
    var r := PercentOf(total, percent);
    ProductNonNegative(total, p);
    ProductNonNegative(total, 100.0 - p);
    assert total * (100.0 - p) == total * 100.0 - total * p;
    assert r * 100.0 == total * p;
    assert 0.0 <= r * 100.0 <= total * 100.0;
  }

  /** A larger percentage never asks for less money. */
  lemma PercentOfMonotonic(total: Money, lower: int, higher: int)
    requires 0.0 <= total && lower <= higher
    ensures PercentOf(total, lower) <= PercentOf(total, higher)
  {
    var l, h := lower as real, higher as real;
    ProductNonNegative(total, h - l);
    assert total * (h - l) == total * h - total * l;
  }

  /** Whatever the method, the payment is never more than the total nor negative. */
  lemma AmountDueWithinTotal(total: Money, choice: string, s: Settings)
    requires 0.0 <= total && 0 <= PrepaymentPercent(s) <= 100
    ensures 0.0 <= AmountDue(total, choice, s) <= total
    ensures 0.0 <= Summarize(total, s).remaining <= total
  {
    PercentOfWithinTotal(total, PrepaymentPercent(s));
  }

  /** Total 15000 with the default 30 per cent: 4500 up front, 10500 remaining. */
  lemma DefaultPrepaymentOfFifteenThousand()
    ensures var r := Summarize(15000.0, Settings(false, None, None));
            r.prepayment == 4500.0 && r.remaining == 10500.0 && r.percent == 30 && r.refundDays == 3
  {
  }
}
