/**
 * The amortisation engine: installment schedules, the quoted periodic payment and the
 * age-at-maturity check on a selected term. Money is an exact real; days are integers.
 */
module Amortisation {
  import opened Power

  datatype Row = Row(number: nat, amount: real, principal: real, interest: real, dueDate: int)

  /** `Math.round(x * 100) / 100`: JavaScript rounds halves towards positive infinity. */
  function Round(x: real): real {
    (x * 100.0 + 0.5).Floor as real / 100.0
  }

  function PeriodsPerYear(intervalDays: int): (periods: real)
    ensures periods > 0.0
  {
    if intervalDays == 30 then 12.0
    else if intervalDays == 14 then 26.0
    else if intervalDays == 7 then 52.0
    else if intervalDays > 0 then 365.0 / intervalDays as real
    else 12.0
  }

  function PeriodicRate(annualRate: real, intervalDays: int): real {
    annualRate / 100.0 / PeriodsPerYear(intervalDays)
  }

  /** The payment formula divides by `(1 + rate)^count - 1`. */
  predicate Amortisable(rate: real, count: nat) {
    rate == 0.0 || Pow(1.0 + rate, count) != 1.0
  }

  /** The payment formula, with `growth` standing for `(1 + rate)^count`. */
  function Annuity(principal: real, rate: real, growth: real): real
    requires growth != 1.0
  {
    (principal * rate * growth) / (growth - 1.0)
  }

  function PeriodicPayment(principal: real, rate: real, count: nat): real
    requires count > 0 && Amortisable(rate, count)
  {
    if rate == 0.0 then principal / count as real
    else Annuity(principal, rate, Pow(1.0 + rate, count))
  }

  /** Closed form of what is still owed after `paid` of the `count` payments. */
  function Balance(principal: real, rate: real, count: nat, paid: nat): real
    requires count > 0 && paid <= count && Amortisable(rate, count)
  {
    if rate == 0.0 then principal / count as real * (count - paid) as real
    else principal / (Pow(1.0 + rate, count) - 1.0) * (Pow(1.0 + rate, count) - Pow(1.0 + rate, paid))
  }

  function InterestPart(principal: real, rate: real, count: nat, paid: nat): real
    requires paid < count && Amortisable(rate, count)
  {
    Balance(principal, rate, count, paid) * rate
  }

  /** The part of a payment that is left once its interest is covered. */
  function PrincipalPart(principal: real, rate: real, count: nat, paid: nat): real
    requires paid < count && Amortisable(rate, count)
  {
    PeriodicPayment(principal, rate, count) - InterestPart(principal, rate, count, paid)
  }

  function RowAt(principal: real, rate: real, count: nat, start: int, intervalDays: int, paid: nat): Row
    requires paid < count && Amortisable(rate, count)
  {
    Row(paid + 1,
        Round(PeriodicPayment(principal, rate, count)),
        Round(PrincipalPart(principal, rate, count, paid)),
        Round(InterestPart(principal, rate, count, paid)),
        start + intervalDays * (paid + 1))
  }

  /** The whole schedule, each row taken from the closed form instead of a running balance. */
  function Schedule(principal: real, annualRate: real, count: nat, start: int, intervalDays: int): (rows: seq<Row>)
    requires count > 0 && Amortisable(PeriodicRate(annualRate, intervalDays), count)
    ensures |rows| == count
  {
    if count == 1 then [Row(1, principal, principal, 0.0, start)]
    else
      var rate := PeriodicRate(annualRate, intervalDays);
      seq(count, paid requires 0 <= paid < count => RowAt(principal, rate, count, start, intervalDays, paid))
  }

  /** The loop of `calculateInstallments`: it carries the unrounded balance and emits rounded rows. */
  method CalculateInstallments(principal: real, annualRate: real, count: nat, start: int, intervalDays: int)
    returns (installments: seq<Row>)
    requires count > 0 && Amortisable(PeriodicRate(annualRate, intervalDays), count)
    ensures installments == Schedule(principal, annualRate, count, start, intervalDays)
  {
    installments := [];
    if count == 1 {
      installments := installments + [Row(1, principal, principal, 0.0, start)];
      return;
    }
    var periodicRate := annualRate / 100.0 / PeriodsPerYear(intervalDays);
    var periodicPayment := PeriodicPayment(principal, periodicRate, count);
    var remainingPrincipal := principal;
    BalanceEnds(principal, periodicRate, count);
    for i := 1 to count + 1
      invariant |installments| == i - 1
      invariant remainingPrincipal == Balance(principal, periodicRate, count, i - 1)
      invariant forall k | 0 <= k < i - 1 ::
        installments[k] == RowAt(principal, periodicRate, count, start, intervalDays, k)
    {
      var interestAmount := remainingPrincipal * periodicRate;
      assert interestAmount == InterestPart(principal, periodicRate, count, i - 1);
      var principalAmount := periodicPayment - interestAmount;
      remainingPrincipal := remainingPrincipal - principalAmount;
      BalanceStep(principal, periodicRate, count, i - 1);
      var dueDate := start + intervalDays * i;
      installments := installments
        + [Row(i, Round(periodicPayment), Round(principalAmount), Round(interestAmount), dueDate)];
    }
  }

  // ---------------------------------------------------------------- exact arithmetic

  lemma QuotientShare(principal: real, rate: real, top: real)
    requires top != 1.0
    ensures Annuity(principal, rate, top) == principal / (top - 1.0) * (rate * top)
  {
    var d := top - 1.0;
    var w := principal / d;
    assert principal == w * d;
    assert principal * rate * top == w * (rate * top) * d;
  }

  /** The payment as a share of the principal: `principal / (q^n - 1)` times `rate * q^n`. */
  lemma PaymentShare(principal: real, rate: real, count: nat)
    requires count > 0 && rate != 0.0 && Amortisable(rate, count)
    ensures PeriodicPayment(principal, rate, count)
         == principal / (Pow(1.0 + rate, count) - 1.0) * (rate * Pow(1.0 + rate, count))
  {
    QuotientShare(principal, rate, Pow(1.0 + rate, count));
  }

  lemma FlatStep(share: real, left: real)
    ensures share * (left - 1.0) == share * left - share
  {}

  lemma CompoundStep(w: real, rate: real, top: real, low: real, next: real)
    requires next == (1.0 + rate) * low
    ensures w * (top - next) == w * (top - low) - (w * (rate * top) - w * (top - low) * rate)
  {}

  /** The loop body `remainingPrincipal -= periodicPayment - remainingPrincipal * periodicRate`. */
  lemma BalanceStep(principal: real, rate: real, count: nat, paid: nat)
    requires paid < count && Amortisable(rate, count)
    ensures Balance(principal, rate, count, paid + 1)
         == Balance(principal, rate, count, paid) - PrincipalPart(principal, rate, count, paid)
  {
    if rate == 0.0 {
      FlatStep(principal / count as real, (count - paid) as real);
    } else {
      PaymentShare(principal, rate, count);
      var top := Pow(1.0 + rate, count);
      CompoundStep(principal / (top - 1.0), rate, top, Pow(1.0 + rate, paid), Pow(1.0 + rate, paid + 1));
    }
  }

  /** A loan starts at its principal and ends exactly at zero, at any rate. */
  lemma BalanceEnds(principal: real, rate: real, count: nat)
    requires count > 0 && Amortisable(rate, count)
    ensures Balance(principal, rate, count, 0) == principal
    ensures Balance(principal, rate, count, count) == 0.0
  {}

  /** Exact principal parts of the first `paid` payments, added up. */
  function PrincipalPaid(principal: real, rate: real, count: nat, paid: nat): real
    requires paid <= count && Amortisable(rate, count)
  {
    if paid == 0 then 0.0
    else PrincipalPaid(principal, rate, count, paid - 1) + PrincipalPart(principal, rate, count, paid - 1)
  }

  /** What has been paid in principal and what is still owed always add up to the loan. */
  lemma {:induction false} PrincipalTelescopes(principal: real, rate: real, count: nat, paid: nat)
    requires count > 0 && paid <= count && Amortisable(rate, count)
    ensures PrincipalPaid(principal, rate, count, paid) + Balance(principal, rate, count, paid) == principal
  {
    if paid == 0 {
      BalanceEnds(principal, rate, count);
    } else {
      PrincipalTelescopes(principal, rate, count, paid - 1);
      BalanceStep(principal, rate, count, paid - 1);
    }
  }

  /** The exact principal parts of a full schedule sum to the loan. */
  lemma PrincipalPartsSumToLoan(principal: real, rate: real, count: nat)
    requires count > 0 && Amortisable(rate, count)
    ensures PrincipalPaid(principal, rate, count, count) == principal
  {
    PrincipalTelescopes(principal, rate, count, count);
    BalanceEnds(principal, rate, count);
  }

  /** Each principal part is `1 + rate` times the one before. */
  lemma PrincipalPartsAreGeometric(principal: real, rate: real, count: nat, paid: nat)
    requires paid + 1 < count && Amortisable(rate, count)
    ensures PrincipalPart(principal, rate, count, paid + 1)
         == (1.0 + rate) * PrincipalPart(principal, rate, count, paid)
  {
    BalanceStep(principal, rate, count, paid);
    var now, next := Balance(principal, rate, count, paid), Balance(principal, rate, count, paid + 1);
    var part := PrincipalPart(principal, rate, count, paid);
    assert next == now - part;
    assert (now - part) * rate == now * rate - part * rate;
  }

  lemma PositiveShare(principal: real, rate: real, count: nat)
    requires principal > 0.0 && rate > 0.0 && count > 0
    ensures Pow(1.0 + rate, count) > 1.0
    ensures principal / (Pow(1.0 + rate, count) - 1.0) > 0.0
  {
    StrictlyIncreasing(1.0 + rate, 0, count);
  }

  /** With a positive rate the balance, and with it the interest, falls at every payment. */
  lemma InterestFalls(principal: real, rate: real, count: nat, paid: nat)
    requires principal > 0.0 && rate > 0.0 && paid + 1 < count
    requires Amortisable(rate, count)
    ensures Balance(principal, rate, count, paid + 1) < Balance(principal, rate, count, paid)
    ensures InterestPart(principal, rate, count, paid + 1) < InterestPart(principal, rate, count, paid)
  {
    PositiveShare(principal, rate, count);
    StrictlyIncreasing(1.0 + rate, paid, paid + 1);
    var top := Pow(1.0 + rate, count);
    ProductStrict(principal / (top - 1.0), top - Pow(1.0 + rate, paid), top - Pow(1.0 + rate, paid + 1));
    ProductStrict(rate, Balance(principal, rate, count, paid), Balance(principal, rate, count, paid + 1));
  }
}
