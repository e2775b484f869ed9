/**
 * What the schedules of `Amortisation` promise to a borrower: rounding that never accumulates, the
 * effect of a longer term, the quoted payment, and the age at which a selected term matures.
 */
module LoanTerms {
  import opened Common
  import opened Power
  import opened Amortisation

  // ---------------------------------------------------------------- rounding

  lemma RoundError(x: real)
    ensures -1.0 / 200.0 <= Round(x) - x <= 1.0 / 200.0
  {}

  /** Rounding a sum differs from summing the rounded parts by at most one hundredth. */
  lemma RoundSplit(x: real, y: real)
    ensures -1.0 / 100.0 <= Round(x + y) - (Round(x) + Round(y)) <= 1.0 / 100.0
  {
    var a, b, c := (x * 100.0 + 0.5).Floor, (y * 100.0 + 0.5).Floor, ((x + y) * 100.0 + 0.5).Floor;
    assert -1 <= c - (a + b) <= 1;
  }

  /** The rounded principal column, added up over the first `n` rows. */
  function PrincipalColumn(rows: seq<Row>, n: nat): real
    requires n <= |rows|
  {
    if n == 0 then 0.0 else PrincipalColumn(rows, n - 1) + rows[n - 1].principal
  }

  lemma {:induction false} ColumnTracksExact(rows: seq<Row>, principal: real, rate: real, count: nat,
                                             start: int, intervalDays: int, n: nat)
    requires n <= count == |rows| && Amortisable(rate, count)
    requires forall k | 0 <= k < count :: rows[k] == RowAt(principal, rate, count, start, intervalDays, k)
    ensures -(n as real) / 200.0
         <= PrincipalColumn(rows, n) - PrincipalPaid(principal, rate, count, n)
         <= n as real / 200.0
  {
    if n > 0 {
      ColumnTracksExact(rows, principal, rate, count, start, intervalDays, n - 1);
      assert rows[n - 1] == RowAt(principal, rate, count, start, intervalDays, n - 1);
      RoundError(PrincipalPart(principal, rate, count, n - 1));
    }
  }

  /** Rounding never accumulates: over `count` rows the principal column misses the loan by at most count/200. */
  lemma RoundedPrincipalWithinHalfKoboPerRow(principal: real, annualRate: real, count: nat, start: int,
                                             intervalDays: int)
    requires count > 0 && Amortisable(PeriodicRate(annualRate, intervalDays), count)
    ensures var rows := Schedule(principal, annualRate, count, start, intervalDays);
            -(count as real) / 200.0 <= PrincipalColumn(rows, count) - principal <= count as real / 200.0
  {
    var rows := Schedule(principal, annualRate, count, start, intervalDays);
    if count == 1 {
      assert PrincipalColumn(rows, 1) == PrincipalColumn(rows, 0) + principal;
    } else {
      var rate := PeriodicRate(annualRate, intervalDays);
      ColumnTracksExact(rows, principal, rate, count, start, intervalDays, count);
      PrincipalPartsSumToLoan(principal, rate, count);
    }
  }

  /** In every row the amount is the principal plus the interest, up to one hundredth. */
  lemma RowBalances(principal: real, annualRate: real, count: nat, start: int, intervalDays: int, k: nat)
    requires k < count && Amortisable(PeriodicRate(annualRate, intervalDays), count)
    ensures var row := Schedule(principal, annualRate, count, start, intervalDays)[k];
            -1.0 / 100.0 <= row.amount - (row.principal + row.interest) <= 1.0 / 100.0
  {
    if count > 1 {
      var rate := PeriodicRate(annualRate, intervalDays);
      RoundSplit(PrincipalPart(principal, rate, count, k), InterestPart(principal, rate, count, k));
    }
  }

  // ---------------------------------------------------------------- the effect of the term

  /** What one period costs before rounding: a single payment bears no interest. */
  function Charge(principal: real, rate: real, count: nat): real
    requires count > 0 && Amortisable(rate, count)
  {
    if count == 1 then principal else PeriodicPayment(principal, rate, count)
  }

  lemma PositiveRateAmortises(rate: real, count: nat)
    requires rate >= 0.0 && count > 0
    ensures Amortisable(rate, count)
  {
    if rate > 0.0 {
      StrictlyIncreasing(1.0 + rate, 0, count);
    }
  }

  /** The loan divided by the growth of one unit of it over the term. */
  function LoanShare(principal: real, rate: real, count: nat): real
    requires rate != 0.0 && Amortisable(rate, count)
  {
    principal / (Pow(1.0 + rate, count) - 1.0)
  }

  /** Each payment covers the interest on the whole loan, and on top of it the rate times the loan share. */
  lemma PaymentAboveInterest(principal: real, rate: real, count: nat)
    requires principal > 0.0 && rate > 0.0 && count > 0 && Amortisable(rate, count)
    ensures Pow(1.0 + rate, count) > 1.0
    ensures PeriodicPayment(principal, rate, count)
         == principal * rate + rate * LoanShare(principal, rate, count)
  {
    PositiveShare(principal, rate, count);
    PaymentShare(principal, rate, count);
    ShareAlgebra(principal, rate, Pow(1.0 + rate, count));
  }

  lemma ShareAlgebra(principal: real, rate: real, top: real)
    requires top > 1.0
    ensures principal / (top - 1.0) * (rate * top) == principal * rate + rate * (principal / (top - 1.0))
  {
    var d := top - 1.0;
    var w := principal / d;
    assert principal == w * d;
    assert w * (rate * top) == w * d * rate + rate * w;
  }

  lemma SmallerQuotient(p: real, a: real, b: real)
    requires p > 0.0 && 0.0 < a < b
    ensures p / b < p / a
  {
    var x, y := p / a, p / b;
    assert x * a == p && y * b == p;
    if y >= x {
      ProductStrict(y, b, a);
      ProductMonotone(a, y, x);
    }
  }

  lemma LongerTermLowersShare(principal: real, rate: real, m: nat, n: nat)
    requires principal > 0.0 && rate > 0.0 && 0 < m < n
    requires Amortisable(rate, m) && Amortisable(rate, n)
    ensures LoanShare(principal, rate, n) < LoanShare(principal, rate, m)
  {
    StrictlyIncreasing(1.0 + rate, 0, m);
    StrictlyIncreasing(1.0 + rate, m, n);
    SmallerQuotient(principal, Pow(1.0 + rate, m) - 1.0, Pow(1.0 + rate, n) - 1.0);
  }

  /** A longer term makes the periodic payment strictly smaller. */
  lemma LongerTermLowersPayment(principal: real, rate: real, m: nat, n: nat)
    requires principal > 0.0 && rate > 0.0 && 0 < m < n
    requires Amortisable(rate, m) && Amortisable(rate, n)
    ensures PeriodicPayment(principal, rate, n) < PeriodicPayment(principal, rate, m)
  {
    PaymentAboveInterest(principal, rate, m);
    PaymentAboveInterest(principal, rate, n);
    LongerTermLowersShare(principal, rate, m, n);
    ProductStrict(rate, LoanShare(principal, rate, m), LoanShare(principal, rate, n));
  }

  /** The inequality behind the cost of one more period, with `a = q^n - 1 >= n * rate`. */
  lemma OnePeriodMore(rate: real, u: real, a: real, b: real)
    requires rate > 0.0 && u >= 1.0 && a > 0.0 && a >= u * rate
    requires b == (1.0 + rate) * a + rate
    ensures u * b < a * b + (u + 1.0) * a
  {
    var gap := (1.0 + rate) * a - u * rate;
    ProductPositive(rate, a);
    ProductPositive(a + 1.0, gap);
    assert a * b + (u + 1.0) * a - u * b == (a + 1.0) * gap;
  }

  lemma CancelFactor(x: real, y: real, b: real)
    requires b > 0.0 && x * b < y * b
    ensures x < y
  {
    if x >= y {
      ProductMonotone(b, x, y);
    }
  }

  lemma ShareCrossProduct(principal: real, rate: real, u: real, a: real, b: real, share: real, next: real)
    requires principal > 0.0 && rate > 0.0 && u >= 1.0 && a > 0.0 && a >= u * rate
    requires b == (1.0 + rate) * a + rate
    requires share * a == principal && next * b == principal
    ensures u * share < principal + (u + 1.0) * next
  {
    ProductPositive(rate, a);
    OnePeriodMore(rate, u, a, b);
    ProductStrict(principal, a * b + (u + 1.0) * a, u * b);
    CrossMultiplied(principal, u, a, b, share, next);
    ProductPositive(a, b);
    CancelFactor(u * share, principal + (u + 1.0) * next, a * b);
  }

  lemma CrossMultiplied(principal: real, u: real, a: real, b: real, share: real, next: real)
    requires share * a == principal && next * b == principal
    ensures u * share * (a * b) == principal * (u * b)
    ensures (principal + (u + 1.0) * next) * (a * b) == principal * (a * b + (u + 1.0) * a)
  {
    assert u * share * (a * b) == u * b * (share * a);
    assert (u + 1.0) * next * (a * b) == (u + 1.0) * a * (next * b);
  }

  lemma ShareTimesGrowth(principal: real, rate: real, count: nat)
    requires rate != 0.0 && Amortisable(rate, count)
    ensures LoanShare(principal, rate, count) * (Pow(1.0 + rate, count) - 1.0) == principal
  {}

  lemma GrowthStep(rate: real, count: nat)
    ensures Pow(1.0 + rate, count + 1) - 1.0 == (1.0 + rate) * (Pow(1.0 + rate, count) - 1.0) + rate
  {}

  lemma TotalFromShare(interest: real, principal: real, rate: real, u: real,
                       share: real, next: real, now: real, later: real)
    requires interest == principal * rate && now == interest + rate * share && later == interest + rate * next
    requires rate > 0.0 && u * share < principal + (u + 1.0) * next
    ensures u * now < (u + 1.0) * later
  {
    ProductStrict(rate, principal + (u + 1.0) * next, u * share);
    assert u * now == u * interest + rate * (u * share);
    assert (u + 1.0) * later == u * interest + rate * (principal + (u + 1.0) * next);
  }

  lemma OneMorePaymentCostsMore(principal: real, rate: real, count: nat)
    requires principal > 0.0 && rate > 0.0 && count > 0
    requires Amortisable(rate, count) && Amortisable(rate, count + 1)
    ensures count as real * PeriodicPayment(principal, rate, count)
          < (count as real + 1.0) * PeriodicPayment(principal, rate, count + 1)
  {
    PaymentAboveInterest(principal, rate, count);
    PaymentAboveInterest(principal, rate, count + 1);
    SharesCross(principal, rate, count);
    TotalFromShare(principal * rate, principal, rate, count as real,
                   LoanShare(principal, rate, count), LoanShare(principal, rate, count + 1),
                   PeriodicPayment(principal, rate, count), PeriodicPayment(principal, rate, count + 1));
  }

  lemma SharesCross(principal: real, rate: real, count: nat)
    requires principal > 0.0 && rate > 0.0 && count > 0
    requires Amortisable(rate, count) && Amortisable(rate, count + 1)
    ensures count as real * LoanShare(principal, rate, count)
          < principal + (count as real + 1.0) * LoanShare(principal, rate, count + 1)
  {
    ShareTimesGrowth(principal, rate, count);
    ShareTimesGrowth(principal, rate, count + 1);
    GrowthStep(rate, count);
    Bernoulli(rate, count);
    ProductPositive(count as real, rate);
    ShareCrossProduct(principal, rate, count as real,
                      Pow(1.0 + rate, count) - 1.0, Pow(1.0 + rate, count + 1) - 1.0,
                      LoanShare(principal, rate, count), LoanShare(principal, rate, count + 1));
  }

  lemma {:induction false} TotalPaymentsIncrease(principal: real, rate: real, m: nat, n: nat)
    requires principal > 0.0 && rate > 0.0 && 0 < m < n
    requires Amortisable(rate, m) && Amortisable(rate, n)
    ensures m as real * PeriodicPayment(principal, rate, m) < n as real * PeriodicPayment(principal, rate, n)
  {
    PositiveRateAmortises(rate, n - 1);
    OneMorePaymentCostsMore(principal, rate, n - 1);
    if m < n - 1 {
      TotalPaymentsIncrease(principal, rate, m, n - 1);
    }
  }

  lemma SinglePaymentAboveLoan(principal: real, rate: real)
    requires principal > 0.0 && rate > 0.0 && Amortisable(rate, 1)
    ensures PeriodicPayment(principal, rate, 1) > principal
  {
    PaymentAboveInterest(principal, rate, 1);
    ShareTimesGrowth(principal, rate, 1);
    assert Pow(1.0 + rate, 1) == (1.0 + rate) * Pow(1.0 + rate, 0) == 1.0 + rate;
    SinglePeriod(principal, rate, LoanShare(principal, rate, 1), Pow(1.0 + rate, 1) - 1.0);
  }

  lemma SinglePeriod(principal: real, rate: real, share: real, a: real)
    requires principal > 0.0 && rate > 0.0 && a == rate && share * a == principal
    ensures principal * rate + rate * share > principal
  {
    ProductPositive(principal, rate);
    assert rate * share == share * a;
  }

  lemma OneTimes(m: nat, x: real)
    requires m == 1
    ensures m as real * x == x
  {}

  /** A longer term always costs strictly more in all, the interest-free single payment included. */
  lemma LongerTermCostsMore(principal: real, rate: real, m: nat, n: nat)
    requires principal > 0.0 && rate > 0.0 && 0 < m < n
    requires Amortisable(rate, m) && Amortisable(rate, n)
    ensures m as real * Charge(principal, rate, m) < n as real * Charge(principal, rate, n)
  {
    TotalPaymentsIncrease(principal, rate, m, n);
    if m == 1 {
      SinglePaymentAboveLoan(principal, rate);
      OneTimes(m, principal);
      OneTimes(m, PeriodicPayment(principal, rate, m));
    }
  }

  /**
   * Spreading the loan lowers what one period costs, except that the single payment is interest-free:
   * against it, `n` periods are cheaper exactly when `(1 + rate)^n * (1 - rate) > 1`.
   */
  lemma LongerTermLowersCharge(principal: real, rate: real, m: nat, n: nat)
    requires principal > 0.0 && rate > 0.0 && 0 < m < n
    requires Amortisable(rate, m) && Amortisable(rate, n)
    ensures Charge(principal, rate, n) < Charge(principal, rate, m)
       <==> (m > 1 || Pow(1.0 + rate, n) * (1.0 - rate) > 1.0)
  {
    if m > 1 {
      LongerTermLowersPayment(principal, rate, m, n);
    } else {
      PaymentAboveInterest(principal, rate, n);
      ShareTimesGrowth(principal, rate, n);
      BelowLoan(principal, rate, Pow(1.0 + rate, n) - 1.0, LoanShare(principal, rate, n));
    }
  }

  lemma BelowLoan(principal: real, rate: real, a: real, share: real)
    requires principal > 0.0 && a > 0.0 && share * a == principal
    ensures principal * rate + rate * share < principal <==> (a + 1.0) * (1.0 - rate) > 1.0
  {
    if share <= 0.0 {
      ProductMonotone(a, 0.0, share);
    }
    var x, y := rate * (a + 1.0), a;
    assert share * x == principal * rate + rate * share by {
      assert share * (rate * (a + 1.0)) == rate * (share * a) + rate * share;
    }
    assert (a + 1.0) * (1.0 - rate) == a + 1.0 - x;
    if x < y {
      ProductStrict(share, y, x);
    } else {
      ProductMonotone(share, x, y);
    }
  }

  // ---------------------------------------------------------------- the quoted payment

  /** `calculatePeriodicPayment`: monthly, and left unrounded when there is no interest. */
  function QuotedPayment(principal: real, annualRate: real, termMonths: nat): real
    requires termMonths > 0 && (annualRate != 0.0 ==> Pow(1.0 + annualRate / 100.0 / 12.0, termMonths) != 1.0)
  {
    if annualRate == 0.0 then principal / termMonths as real
    else Round(Annuity(principal, annualRate / 100.0 / 12.0, Pow(1.0 + annualRate / 100.0 / 12.0, termMonths)))
  }

  /** With interest and at least two installments, a 30-day plan charges exactly the quoted payment in every row. */
  lemma QuoteIsCharged(principal: real, annualRate: real, count: nat, start: int, k: nat)
    requires annualRate != 0.0 && k < count && count > 1 && Amortisable(PeriodicRate(annualRate, 30), count)
    ensures Schedule(principal, annualRate, count, start, 30)[k].amount == QuotedPayment(principal, annualRate, count)
  {}

  /** Without interest the quote is unrounded, so a row misses it by at most half a hundredth. */
  lemma FlatQuoteWithinHalfKobo(principal: real, count: nat, start: int, k: nat)
    requires k < count
    ensures -1.0 / 200.0
         <= Schedule(principal, 0.0, count, start, 30)[k].amount - QuotedPayment(principal, 0.0, count)
         <= 1.0 / 200.0
  {
    RoundError(principal / count as real);
  }

  // ---------------------------------------------------------------- generating a schedule

  datatype Frequency = Monthly | Biweekly | Weekly | OneTime | Custom

  datatype Plan = Plan(frequency: Frequency, multiplier: nat, customDays: Option<nat>,
                       allowFlexibleTerm: bool, installments: Option<nat>,
                       minTermMonths: Option<nat>, maxTermMonths: Option<nat>, maxAgeAtMaturity: Option<nat>)

  function IntervalDays(plan: Plan): nat {
    match plan.frequency
    case Monthly => 30 * plan.multiplier
    case Biweekly => 14 * plan.multiplier
    case Weekly => 7 * plan.multiplier
    case OneTime => 0
    case Custom => (match plan.customDays case Some(days) => days case None => 30) * plan.multiplier
  }

  /** JavaScript treats a stored 0 like a missing value. */
  predicate Given(n: Option<nat>) {
    n.Some? && n.value != 0
  }

  datatype PaymentPhase = PaymentPhase(isPayment: bool, plan: Option<Plan>, generated: seq<Row>,
                                       totalAmount: real, interestRate: real, selectedTerm: Option<nat>)

  /** The count a schedule is drawn up for: the selected term on a flexible plan, the plan's own otherwise. */
  function InstallmentCount(phase: PaymentPhase, plan: Plan): Option<nat> {
    var chosen := if plan.allowFlexibleTerm then phase.selectedTerm else plan.installments;
    if Given(chosen) then chosen else None
  }

  /** `generateInstallments`: refused for other phases, without a plan, a second time, or without a count. */
  method GenerateInstallments(phase: PaymentPhase, start: int, requestedRate: Option<real>)
    returns (rows: Result<seq<Row>>)
    requires phase.interestRate >= 0.0 && (requestedRate.Some? ==> requestedRate.value >= 0.0)
    ensures rows.Ok? <==> phase.isPayment && phase.plan.Some? && phase.generated == []
                          && InstallmentCount(phase, phase.plan.value).Some?
    ensures rows.Err? ==> rows.error == BadRequest
    ensures rows.Ok? ==>
      var count, days := InstallmentCount(phase, phase.plan.value).value, IntervalDays(phase.plan.value);
      var rate := if requestedRate.Some? then requestedRate.value else phase.interestRate;
      && Amortisable(PeriodicRate(rate, days), count)
      && rows.value == Schedule(phase.totalAmount, rate, count, start, days)
    ensures rows.Ok? ==>
      var plan := phase.plan.value;
      Some(|rows.value|) == if plan.allowFlexibleTerm then phase.selectedTerm else plan.installments
  {
    if !phase.isPayment || phase.plan.None? {
      return Err(BadRequest);
    }
    if |phase.generated| > 0 {
      return Err(BadRequest);
    }
    var plan := phase.plan.value;
    var annualRate := if requestedRate.Some? then requestedRate.value else phase.interestRate;
    var days := IntervalDays(plan);
    var count := InstallmentCount(phase, plan);
    if count.None? {
      return Err(BadRequest);
    }
    NonNegativePeriodicRate(annualRate, days);
    PositiveRateAmortises(PeriodicRate(annualRate, days), count.value);
    var schedule := CalculateInstallments(phase.totalAmount, annualRate, count.value, start, days);
    return Ok(schedule);
  }

  lemma NonNegativePeriodicRate(annualRate: real, intervalDays: int)
    requires annualRate >= 0.0
    ensures PeriodicRate(annualRate, intervalDays) >= 0.0
  {
    var periods, yearly := PeriodsPerYear(intervalDays), annualRate / 100.0;
    var rate := yearly / periods;
    assert rate * periods == yearly;
    if rate < 0.0 {
      ProductPositive(-rate, periods);
    }
  }

  /** The schedule a plan draws up for a term; a rate that is not negative always amortises. */
  function PlanSchedule(plan: Plan, principal: real, annualRate: real, term: nat, start: int): (rows: seq<Row>)
    requires annualRate >= 0.0 && term > 0
    ensures |rows| == term
  {
    NonNegativePeriodicRate(annualRate, IntervalDays(plan));
    PositiveRateAmortises(PeriodicRate(annualRate, IntervalDays(plan)), term);
    Schedule(principal, annualRate, term, start, IntervalDays(plan))
  }

  /** On a yearly plan at 100% a year, two payments of 1200 each stand against one of 900, the whole loan. */
  lemma TwoDearPayments(start: int)
    ensures var yearly := Plan(Custom, 1, Some(365), true, None, None, None, None);
            && PlanSchedule(yearly, 900.0, 100.0, 1, start)[0].amount == 900.0
            && PlanSchedule(yearly, 900.0, 100.0, 2, start)[0].amount == 1200.0
            && PlanSchedule(yearly, 900.0, 100.0, 2, start)[1].amount == 1200.0
  {
    assert Pow(2.0, 2) == 2.0 * Pow(2.0, 1) && Pow(2.0, 1) == 2.0 * Pow(2.0, 0);
    assert PeriodicRate(100.0, 365) == 1.0;
    assert PeriodicPayment(900.0, 1.0, 2) == 1200.0;
  }

  // ---------------------------------------------------------------- age at maturity

  /** The longest term `create` accepts on a flexible plan; an age or limit of 0 counts as missing. */
  function LongestTerm(plan: Plan, age: Option<nat>): int {
    var limit := if Given(plan.maxTermMonths) then plan.maxTermMonths.value else 360;
    if Given(age) && Given(plan.maxAgeAtMaturity)
    then Min(limit, (plan.maxAgeAtMaturity.value - age.value) * 12)
    else limit
  }

  function ShortestTerm(plan: Plan): int {
    if Given(plan.minTermMonths) then plan.minTermMonths.value else 12
  }

  /** The check `create` makes on the selected mortgage term. */
  predicate TermAccepted(plan: Plan, age: Option<nat>, term: nat) {
    term > 0 && ShortestTerm(plan) <= term <= LongestTerm(plan, age)
  }

  /** The latest day on which a borrower of that age may still be paying. */
  function MaturityLimit(plan: Plan, age: nat, start: int): int
    requires plan.maxAgeAtMaturity.Some?
  {
    start + 360 * (plan.maxAgeAtMaturity.value - age)
  }

  predicate MaturesInTime(rows: seq<Row>, limit: int) {
    forall k | 0 <= k < |rows| :: rows[k].dueDate <= limit
  }

  /** Due dates strictly increase on every plan with a positive interval. */
  lemma DueDatesIncrease(principal: real, annualRate: real, count: nat, start: int, intervalDays: int, j: nat, k: nat)
    requires j < k < count && intervalDays > 0 && Amortisable(PeriodicRate(annualRate, intervalDays), count)
    ensures var rows := Schedule(principal, annualRate, count, start, intervalDays);
            rows[j].dueDate < rows[k].dueDate
  {
    assert intervalDays * (k - j) > 0;
  }

  /**
   * The age check counts months of 30 days, whatever the plan's interval is. It keeps every accepted term within
   * the age limit exactly when no term is accepted, or only a single payment is, or the longest accepted term at
   * the plan's own interval fits into the years left.
   */
  lemma AgeCheckHoldsIff(plan: Plan, age: nat, principal: real, annualRate: real, start: int)
    requires Given(Some(age)) && Given(plan.maxAgeAtMaturity) && annualRate >= 0.0
    ensures AlwaysInTime(plan, age, principal, annualRate, start)
       <==> (var longest := LongestTerm(plan, Some(age));
             || longest < ShortestTerm(plan) || longest <= 1
             || IntervalDays(plan) * longest <= 360 * (plan.maxAgeAtMaturity.value - age))
  {
    var days, longest := IntervalDays(plan), LongestTerm(plan, Some(age));
    var limit := MaturityLimit(plan, age, start);
    if longest < ShortestTerm(plan) || longest <= 1 || days * longest <= 360 * (plan.maxAgeAtMaturity.value - age) {
      forall term: nat | TermAccepted(plan, Some(age), term)
        ensures MaturesInTime(PlanSchedule(plan, principal, annualRate, term, start), limit)
      {
        ScheduleInTime(plan, age, principal, annualRate, term, start);
      }
    } else {
      var rows := PlanSchedule(plan, principal, annualRate, longest, start);
      assert rows[longest - 1].dueDate == start + days * longest > limit;
      assert TermAccepted(plan, Some(age), longest) && !MaturesInTime(rows, limit);
    }
  }

  ghost predicate AlwaysInTime(plan: Plan, age: nat, principal: real, annualRate: real, start: int)
    requires plan.maxAgeAtMaturity.Some? && annualRate >= 0.0
  {
    forall term: nat | TermAccepted(plan, Some(age), term) ::
      MaturesInTime(PlanSchedule(plan, principal, annualRate, term, start), MaturityLimit(plan, age, start))
  }

  lemma ScheduleInTime(plan: Plan, age: nat, principal: real, annualRate: real, term: nat, start: int)
    requires annualRate >= 0.0
    requires Given(Some(age)) && Given(plan.maxAgeAtMaturity) && TermAccepted(plan, Some(age), term)
    requires LongestTerm(plan, Some(age)) <= 1
          || IntervalDays(plan) * LongestTerm(plan, Some(age)) <= 360 * (plan.maxAgeAtMaturity.value - age)
    ensures MaturesInTime(PlanSchedule(plan, principal, annualRate, term, start), MaturityLimit(plan, age, start))
  {
    var rows, days := PlanSchedule(plan, principal, annualRate, term, start), IntervalDays(plan);
    forall k | 0 <= k < term
      ensures rows[k].dueDate <= MaturityLimit(plan, age, start)
    {
      if term > 1 {
        NoLater(days, k + 1, LongestTerm(plan, Some(age)));
      }
    }
  }

  lemma NoLater(days: nat, periods: nat, longest: nat)
    requires periods <= longest
    ensures days * periods <= days * longest
  {
    assert days * (longest - periods) >= 0;
  }

  function SixWeekly(longest: nat): Plan {
    Plan(Custom, 1, Some(45), true, None, None, Some(longest), Some(60))
  }

  /** Six-weekly for up to 240 months against 360 left: an interval beyond 30 days that still never runs late. */
  lemma LongIntervalInTime(principal: real, annualRate: real, start: int)
    requires annualRate >= 0.0
    ensures var plan := SixWeekly(240);
            IntervalDays(plan) > 30 && AlwaysInTime(plan, 30, principal, annualRate, start)
  {
    AgeCheckHoldsIff(SixWeekly(240), 30, principal, annualRate, start);
  }

  /** The same plan for up to 360 months accepts a term that runs years past the age limit. */
  lemma LongIntervalRunsLate(principal: real, annualRate: real, start: int)
    requires annualRate >= 0.0
    ensures !AlwaysInTime(SixWeekly(360), 30, principal, annualRate, start)
  {
    AgeCheckHoldsIff(SixWeekly(360), 30, principal, annualRate, start);
  }

  /** An accepted term on an interval of at most 30 days is paid off within the age limit. */
  lemma TermMaturesInTime(plan: Plan, age: nat, principal: real, annualRate: real, term: nat, start: int)
    requires Given(Some(age)) && Given(plan.maxAgeAtMaturity) && TermAccepted(plan, Some(age), term)
    requires annualRate >= 0.0 && IntervalDays(plan) <= 30
    ensures MaturesInTime(PlanSchedule(plan, principal, annualRate, term, start), MaturityLimit(plan, age, start))
  {
    var rows := PlanSchedule(plan, principal, annualRate, term, start);
    var months := (plan.maxAgeAtMaturity.value - age) * 12;
    forall k | 0 <= k < term
      ensures rows[k].dueDate <= MaturityLimit(plan, age, start)
    {
      WithinLimit(IntervalDays(plan), k + 1, months);
    }
  }

  lemma WithinLimit(days: nat, periods: nat, months: nat)
    requires days <= 30 && periods <= months
    ensures days * periods <= 30 * months
  {
    assert days * periods <= 30 * periods;
  }
}
