/** The amortisation engine in figures: rates, rows, intervals and counts, told without its own helpers. */
module LoanNumbers {
  import opened Common
  import opened Power
  import opened Amortisation
  import opened LoanTerms

  // ---------------------------------------------------------------- rounding

  lemma FloorIs(y: real, n: int)
    ensures y.Floor == n <==> n as real <= y < n as real + 1.0
  {}

  lemma SameHundredths(m: int, n: int)
    ensures m as real / 100.0 == n as real / 100.0 <==> m == n
  {}

  /** Rounding gives `n` hundredths exactly for amounts from half a hundredth below up to half a hundredth above. */
  lemma RoundsToIff(x: real, n: int)
    ensures Round(x) == n as real / 100.0 <==> n as real - 0.5 <= x * 100.0 < n as real + 0.5
  {
    var y := x * 100.0 + 0.5;
    FloorIs(y, n);
    SameHundredths(y.Floor, n);
  }

  // ---------------------------------------------------------------- rates

  /** A monthly plan pays a twelfth of the yearly rate per period, a biweekly one a 26th, a weekly one a 52nd. */
  lemma RatesOfCommonPlans(annualRate: real)
    ensures PeriodicRate(annualRate, 30) * 1200.0 == annualRate
    ensures PeriodicRate(annualRate, 14) * 2600.0 == annualRate
    ensures PeriodicRate(annualRate, 7) * 5200.0 == annualRate
  {}

  lemma ShareOfYear(yearly: real, days: real)
    requires days > 0.0
    ensures yearly / (365.0 / days) * 365.0 == yearly * days
  {
    var periods := 365.0 / days;
    assert periods * days == 365.0;
    if periods <= 0.0 {
      Power.ProductMonotone(days, 0.0, periods);
    }
    var rate := yearly / periods;
    assert rate * periods == yearly;
    assert rate * (periods * days) == rate * periods * days;
  }

  /** Any other interval bears its days' share of a year of 365; without a positive interval a month is taken. */
  lemma RateOfOtherPlans(annualRate: real, days: int)
    requires days !in {30, 14, 7}
    ensures days > 0 ==> PeriodicRate(annualRate, days) * 36500.0 == annualRate * days as real
    ensures days <= 0 ==> PeriodicRate(annualRate, days) * 1200.0 == annualRate
  {
    if days > 0 {
      ShareOfYear(annualRate / 100.0, days as real);
      assert PeriodicRate(annualRate, days) == annualRate / 100.0 / (365.0 / days as real);
    }
  }

  // ---------------------------------------------------------------- rows

  /** Payment times growth less one is loan times rate times growth; at rate 0 the payments add up to the loan. */
  lemma PaymentInNumbers(principal: real, rate: real, count: nat)
    requires count > 0 && Amortisable(rate, count)
    ensures rate == 0.0 ==> PeriodicPayment(principal, rate, count) * count as real == principal
    ensures rate != 0.0 ==>
              PeriodicPayment(principal, rate, count) * (Pow(1.0 + rate, count) - 1.0)
              == principal * rate * Pow(1.0 + rate, count)
  {}

  lemma InterestOnLoan(principal: real, rate: real, annualRate: real, share: real)
    requires share > 0.0 && rate * share == annualRate
    ensures principal * rate == principal * annualRate / share
  {
    assert principal * rate * share == principal * annualRate;
  }

  lemma FirstInterest(principal: real, annualRate: real, count: nat, start: int, days: int, share: real)
    requires count > 1 && Amortisable(PeriodicRate(annualRate, days), count)
    requires share > 0.0 && PeriodicRate(annualRate, days) * share == annualRate
    ensures Schedule(principal, annualRate, count, start, days)[0].interest == Round(principal * annualRate / share)
  {
    var rate := PeriodicRate(annualRate, days);
    BalanceEnds(principal, rate, count);
    assert InterestPart(principal, rate, count, 0) == principal * rate;
    InterestOnLoan(principal, rate, annualRate, share);
  }

  /** The interest in the first row, in numbers, by the plan's interval. */
  lemma FirstInterestOfCommonPlans(principal: real, annualRate: real, count: nat, start: int, days: int)
    requires count > 1 && Amortisable(PeriodicRate(annualRate, days), count)
    ensures days == 30 ==>
              Schedule(principal, annualRate, count, start, days)[0].interest == Round(principal * annualRate / 1200.0)
    ensures days == 14 ==>
              Schedule(principal, annualRate, count, start, days)[0].interest == Round(principal * annualRate / 2600.0)
    ensures days == 7 ==>
              Schedule(principal, annualRate, count, start, days)[0].interest == Round(principal * annualRate / 5200.0)
  {
    RatesOfCommonPlans(annualRate);
    if days == 30 {
      FirstInterest(principal, annualRate, count, start, days, 1200.0);
    } else if days == 14 {
      FirstInterest(principal, annualRate, count, start, days, 2600.0);
    } else if days == 7 {
      FirstInterest(principal, annualRate, count, start, days, 5200.0);
    }
  }

  /** 100000 at 26% a year in two biweekly payments: the first interest is 1000. */
  lemma BiweeklyLoan(start: int)
    requires Amortisable(PeriodicRate(26.0, 14), 2)
    ensures Schedule(100000.0, 26.0, 2, start, 14)[0].interest == 1000.0
  {
    FirstInterestOfCommonPlans(100000.0, 26.0, 2, start, 14);
    RoundsToIff(1000.0, 100000);
  }

  /** A single payment is the whole loan, due at the start; of several, payment `k` is due `k + 1` intervals later. */
  lemma NumbersAndDueDates(principal: real, annualRate: real, count: nat, start: int, days: int, k: nat)
    requires k < count && Amortisable(PeriodicRate(annualRate, days), count)
    ensures var row := Schedule(principal, annualRate, count, start, days)[k];
            && row.number == k + 1
            && (count == 1 ==> row.amount == row.principal == principal && row.interest == 0.0 && row.dueDate == start)
            && (count > 1 ==> row.dueDate == start + days * (k + 1)
                              && row.amount == Round(PeriodicPayment(principal, PeriodicRate(annualRate, days), count)))
  {}

  // ---------------------------------------------------------------- plans

  lemma IntervalsInDays(plan: Plan)
    ensures plan.frequency == Monthly ==> IntervalDays(plan) == 30 * plan.multiplier
    ensures plan.frequency == Biweekly ==> IntervalDays(plan) == 14 * plan.multiplier
    ensures plan.frequency == Weekly ==> IntervalDays(plan) == 7 * plan.multiplier
    ensures plan.frequency == OneTime ==> IntervalDays(plan) == 0
    ensures plan.frequency == Custom && plan.customDays.None? ==> IntervalDays(plan) == 30 * plan.multiplier
    ensures plan.frequency == Custom && plan.customDays.Some? ==>
              IntervalDays(plan) == plan.customDays.value * plan.multiplier
  {}

  /** A flexible plan is drawn up for the selected term, any other for its own number, and neither for 0. */
  lemma CountsIff(phase: PaymentPhase, plan: Plan, n: nat)
    ensures InstallmentCount(phase, plan) == Some(n)
       <==> n > 0 && (plan.allowFlexibleTerm ==> phase.selectedTerm == Some(n))
                  && (!plan.allowFlexibleTerm ==> plan.installments == Some(n))
  {}

  /** A selected term is accepted within the plan's limits, 12 and 360 months by default, and before the age limit. */
  lemma TermAcceptedIff(plan: Plan, age: Option<nat>, term: nat)
    ensures TermAccepted(plan, age, term)
       <==> && term > 0
            && (plan.minTermMonths.None? || plan.minTermMonths.value == 0 ==> term >= 12)
            && (plan.minTermMonths.Some? ==> term >= plan.minTermMonths.value)
            && (plan.maxTermMonths.None? || plan.maxTermMonths.value == 0 ==> term <= 360)
            && (plan.maxTermMonths.Some? && plan.maxTermMonths.value > 0 ==> term <= plan.maxTermMonths.value)
            && (age.Some? && age.value > 0 && plan.maxAgeAtMaturity.Some? && plan.maxAgeAtMaturity.value > 0 ==>
                  term <= 12 * (plan.maxAgeAtMaturity.value - age.value))
  {}

  /** Without interest the quote is the loan in equal parts. */
  lemma FlatQuoteInNumbers(principal: real, count: nat)
    requires count > 0
    ensures QuotedPayment(principal, 0.0, count) * count as real == principal
  {}
}
