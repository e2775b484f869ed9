/** What a buyer gets back when an application is terminated. Money is an exact real. */
module Settlement {
  import opened Common
  import opened Power

  datatype TerminationType =
    | BuyerWithdrawal | SellerWithdrawal | MutualAgreement | PaymentDefault | DocumentFailure
    | Fraud | ForceMajeure | PropertyUnavailable | Regulatory | Other

  datatype Policies = Policies(nonRefundableDepositPercent: real, buyerWithdrawalPenaltyPercent: real,
                               adminFeeFlat: real, adminFeePercent: real, gracePeriodDays: int)

  const DEFAULT_POLICIES := Policies(2.0, 5.0, 500.0, 0.5, 14)

  datatype Amounts = Amounts(refundable: real, penalty: real, forfeited: real, adminFee: real, net: real)

  datatype Entry = Entry(completed: bool, amount: real)

  /** `computeTotalPaidToDate`: the completed payments, added up. */
  function TotalPaid(payments: seq<Entry>): real {
    if payments == [] then 0.0
    else TotalPaid(payments[..|payments| - 1])
         + if payments[|payments| - 1].completed then payments[|payments| - 1].amount else 0.0
  }

  predicate HasPayments(payments: seq<Entry>) {
    exists i | 0 <= i < |payments| :: payments[i].completed
  }

  lemma {:induction false} NothingPaid(payments: seq<Entry>)
    requires !HasPayments(payments)
    ensures TotalPaid(payments) == 0.0
  {
    if payments != [] {
      NothingPaid(payments[..|payments| - 1]);
    }
  }

  function MinReal(a: real, b: real): real { if a <= b then a else b }

  function MaxReal(a: real, b: real): real { if a >= b then a else b }

  function PercentOf(amount: real, percent: real): real { amount * percent / 100.0 }

  /** `calculateSettlement`: `daysSigned` counts whole days since the signature, if there is one. */
  function CalculateSettlement(reason: TerminationType, totalAmount: real, totalPaid: real,
                               daysSigned: Option<int>, policies: Policies): Amounts
  {
    var penaltyBase := PercentOf(totalAmount, policies.buyerWithdrawalPenaltyPercent);
    var deposit := PercentOf(totalAmount, policies.nonRefundableDepositPercent);
    var flat := policies.adminFeeFlat;
    var (refundable, penalty, forfeited, adminFee) :=
      match reason
      case BuyerWithdrawal =>
        (match daysSigned
         case None => (totalPaid, 0.0, 0.0, MinReal(flat * 0.5, totalPaid * 0.05))
         case Some(days) =>
           if days <= policies.gracePeriodDays then (totalPaid, 0.0, 0.0, MinReal(flat, totalPaid * 0.1))
           else (totalPaid, penaltyBase, 0.0, MaxReal(flat, PercentOf(totalPaid, policies.adminFeePercent))))
      case SellerWithdrawal => (totalPaid, 0.0, 0.0, 0.0)
      case PropertyUnavailable => (totalPaid, 0.0, 0.0, 0.0)
      case ForceMajeure => (totalPaid, 0.0, 0.0, 0.0)
      case MutualAgreement => (totalPaid, 0.0, 0.0, flat)
      case PaymentDefault => (totalPaid, penaltyBase, deposit, flat)
      case DocumentFailure => (totalPaid, 0.0, deposit, flat)
      case Fraud => (0.0, 0.0, totalPaid, 0.0)
      case Regulatory => (totalPaid, 0.0, 0.0, 0.0)
      case Other => (totalPaid, 0.0, 0.0, flat);
    Amounts(refundable, penalty, forfeited, adminFee, MaxReal(0.0, refundable - penalty - forfeited - adminFee))
  }

  predicate SoundPolicies(p: Policies) {
    && p.nonRefundableDepositPercent >= 0.0 && p.buyerWithdrawalPenaltyPercent >= 0.0
    && p.adminFeeFlat >= 0.0 && 0.0 <= p.adminFeePercent <= 100.0
  }

  lemma DefaultPoliciesSound()
    ensures SoundPolicies(DEFAULT_POLICIES)
  {}

  lemma PercentNonNegative(amount: real, percent: real)
    requires amount >= 0.0 && percent >= 0.0
    ensures PercentOf(amount, percent) >= 0.0
  {
    ProductMonotone(amount, percent, 0.0);
  }

  /** A percentage grows with its base, but no faster. */
  lemma PercentGrows(low: real, high: real, percent: real)
    requires low <= high && 0.0 <= percent <= 100.0
    ensures 0.0 <= PercentOf(high, percent) - PercentOf(low, percent) <= high - low
  {
    ProductMonotone(percent, high, low);
    ProductMonotone(high - low, 100.0, percent);
    assert (high - low) * percent == high * percent - low * percent;
  }

  function Net(reason: TerminationType, totalAmount: real, totalPaid: real, daysSigned: Option<int>, policies: Policies)
    : real
  {
    CalculateSettlement(reason, totalAmount, totalPaid, daysSigned, policies).net
  }

  /** For every reason the refund lies between nothing and everything paid. */
  lemma NetWithinPaid(reason: TerminationType, totalAmount: real, totalPaid: real, daysSigned: Option<int>,
                      policies: Policies)
    requires SoundPolicies(policies) && totalAmount >= 0.0 && totalPaid >= 0.0
    ensures 0.0 <= Net(reason, totalAmount, totalPaid, daysSigned, policies) <= totalPaid
  {
    PercentNonNegative(totalAmount, policies.buyerWithdrawalPenaltyPercent);
    PercentNonNegative(totalAmount, policies.nonRefundableDepositPercent);
    PercentNonNegative(totalPaid, policies.adminFeePercent);
  }

  /** Paying more never costs the buyer: the refund grows with what was paid, and never faster than it. */
  lemma NetGrowsWithPaid(reason: TerminationType, totalAmount: real, low: real, high: real,
                         daysSigned: Option<int>, policies: Policies)
    requires SoundPolicies(policies) && 0.0 <= low <= high
    ensures 0.0
         <= Net(reason, totalAmount, high, daysSigned, policies) - Net(reason, totalAmount, low, daysSigned, policies)
         <= high - low
  {
    PercentGrows(low, high, policies.adminFeePercent);
  }

  /** A signed buyer who waits longer never gets more. */
  lemma WaitingNeverPays(totalAmount: real, totalPaid: real, early: int, late: int, policies: Policies)
    requires SoundPolicies(policies) && totalAmount >= 0.0 && early <= late
    ensures Net(BuyerWithdrawal, totalAmount, totalPaid, Some(late), policies)
         <= Net(BuyerWithdrawal, totalAmount, totalPaid, Some(early), policies)
  {
    PercentNonNegative(totalAmount, policies.buyerWithdrawalPenaltyPercent);
  }

  /** Within grace the buyer gets back all but a tenth, and all but the flat fee. */
  lemma GraceRefund(totalAmount: real, totalPaid: real, days: int, policies: Policies)
    requires SoundPolicies(policies) && totalPaid >= 0.0 && days <= policies.gracePeriodDays
    ensures Net(BuyerWithdrawal, totalAmount, totalPaid, Some(days), policies)
         == MaxReal(totalPaid * 0.9, totalPaid - policies.adminFeeFlat)
  {}

  /** The parts of a settlement add up to what was paid exactly when the deductions fit into it. */
  lemma SettlementAddsUpIff(reason: TerminationType, totalAmount: real, totalPaid: real,
                            daysSigned: Option<int>, policies: Policies)
    requires totalPaid >= 0.0
    ensures var a := CalculateSettlement(reason, totalAmount, totalPaid, daysSigned, policies);
            a.net + a.penalty + a.forfeited + a.adminFee == totalPaid
            <==> a.penalty + a.forfeited + a.adminFee <= totalPaid
  {}

  // ---------------------------------------------------------------- in numbers

  /** Only completed payments count, each with its amount. */
  lemma PaymentsCount(payments: seq<Entry>, completed: bool, amount: real)
    ensures TotalPaid([]) == 0.0
    ensures TotalPaid(payments + [Entry(completed, amount)])
         == TotalPaid(payments) + (if completed then amount else 0.0)
    ensures HasPayments(payments + [Entry(completed, amount)]) <==> completed || HasPayments(payments)
  {
    var all := payments + [Entry(completed, amount)];
    assert all[..|payments|] == payments;
    if completed {
      assert all[|payments|].completed;
    } else if HasPayments(payments) {
      var i :| 0 <= i < |payments| && payments[i].completed;
      assert all[i].completed;
    }
  }

  /** What a buyer gets back by default for a price of `total`, by reason; nothing below 0 is ever paid. */
  lemma RefundsInNumbers(total: real, paid: real, daysSigned: Option<int>)
    requires total >= 0.0 && paid >= 0.0
    ensures forall reason | reason in {SellerWithdrawal, PropertyUnavailable, ForceMajeure, Regulatory} ::
              Net(reason, total, paid, daysSigned, DEFAULT_POLICIES) == paid
    ensures forall reason | reason in {MutualAgreement, Other} ::
              Net(reason, total, paid, daysSigned, DEFAULT_POLICIES) == if paid <= 500.0 then 0.0 else paid - 500.0
    ensures var owed := paid - 0.07 * total - 500.0;
            Net(PaymentDefault, total, paid, daysSigned, DEFAULT_POLICIES) == if owed <= 0.0 then 0.0 else owed
    ensures var owed := paid - 0.02 * total - 500.0;
            Net(DocumentFailure, total, paid, daysSigned, DEFAULT_POLICIES) == if owed <= 0.0 then 0.0 else owed
    ensures Net(Fraud, total, paid, daysSigned, DEFAULT_POLICIES) == 0.0
  {}

  /** What a buyer gets back who withdraws: by default 14 days of grace after the signature. */
  lemma WithdrawalsInNumbers(total: real, paid: real, days: int)
    requires total >= 0.0 && paid >= 0.0
    ensures Net(BuyerWithdrawal, total, paid, None, DEFAULT_POLICIES)
         == if paid <= 5000.0 then 0.95 * paid else paid - 250.0
    ensures days <= 14 ==>
              Net(BuyerWithdrawal, total, paid, Some(days), DEFAULT_POLICIES)
              == if paid <= 5000.0 then 0.9 * paid else paid - 500.0
    ensures var owed := paid - 0.05 * total - (if paid <= 100000.0 then 500.0 else 0.005 * paid);
            days > 14 ==>
              Net(BuyerWithdrawal, total, paid, Some(days), DEFAULT_POLICIES) == if owed <= 0.0 then 0.0 else owed
  {}

  /** What is kept from the buyer under which name, by default. */
  lemma DeductionsInNumbers(reason: TerminationType, total: real, paid: real, daysSigned: Option<int>)
    ensures var a := CalculateSettlement(reason, total, paid, daysSigned, DEFAULT_POLICIES);
            && a.refundable == (if reason == Fraud then 0.0 else paid)
            && a.forfeited == (if reason == Fraud then paid
                               else if reason in {PaymentDefault, DocumentFailure} then 0.02 * total else 0.0)
            && a.penalty == (if reason == PaymentDefault
                                || (reason == BuyerWithdrawal && daysSigned.Some? && daysSigned.value > 14)
                             then 0.05 * total else 0.0)
            && (reason in {MutualAgreement, PaymentDefault, DocumentFailure, Other} ==> a.adminFee == 500.0)
            && (reason in {SellerWithdrawal, PropertyUnavailable, ForceMajeure, Regulatory, Fraud} ==>
                  a.adminFee == 0.0)
  {}
}
