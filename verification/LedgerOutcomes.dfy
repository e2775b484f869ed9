/** What each call of the payment ledger leaves in every row, told without the ledger's own functions. */
module LedgerOutcomes {
  import opened Common
  import opened Payments
  import opened Ledger
  import opened PayAheadLaws
  import W = PhaseWorkflow
  import O = WorkflowOutcomes

  /** Only the row of one installment changes. */
  predicate OnlyInstallment(s: State, t: State, i: nat) {
    && i < |s.installments| == |t.installments|
    && t.installments[i].phase == s.installments[i].phase && t.installments[i].amount == s.installments[i].amount
    && t.installments[i].dueDate == s.installments[i].dueDate
    && forall j | 0 <= j < |s.installments| && j != i :: t.installments[j] == s.installments[j]
  }

  /** Only the account of one phase changes, and not its total. */
  predicate OnlyAccount(s: State, t: State, k: nat) {
    && k < |s.accounts| == |t.accounts| && s.accounts[k].Some? && t.accounts[k].Some?
    && t.accounts[k].value.total == s.accounts[k].value.total
    && t.accounts[k].value.collectFunds == s.accounts[k].value.collectFunds
    && forall j | 0 <= j < |s.accounts| && j != k :: t.accounts[j] == s.accounts[j]
  }

  predicate OnlyStatus(s: State, t: State, p: nat, status: PaymentStatus) {
    && p < |s.payments| == |t.payments|
    && t.payments[p] == Payment(s.payments[p].installment, s.payments[p].phase, s.payments[p].amount, status)
    && forall j | 0 <= j < |s.payments| && j != p :: t.payments[j] == s.payments[j]
  }

  // ---------------------------------------------------------------- create and process

  predicate Collects(s: State, k: nat) {
    k < |s.accounts| && s.accounts[k].Some? && s.accounts[k].value.collectFunds
  }

  /** A payment is taken for a known phase that collects or has no account, and an installment whose phase collects. */
  lemma CreationOutcome(s: State, phase: Option<nat>, installment: Option<nat>, amount: int)
    requires WellFormed(s)
    ensures var r := Create(s, phase, installment, amount);
            && (r.Ok? <==> && (phase.Some? ==> phase.value < |s.accounts|
                                               && (s.accounts[phase.value].None? || Collects(s, phase.value)))
                           && (installment.Some? ==> installment.value < |s.installments|
                                                     && Collects(s, s.installments[installment.value].phase)))
            && (r.Err? ==> r.error in {NotFound, BadRequest})
            && (r.Err? && r.error == NotFound ==> installment.Some? && installment.value >= |s.installments|)
            && (r.Ok? ==> && r.value == s.(payments := r.value.payments) && |r.value.payments| == |s.payments| + 1
                          && r.value.payments[..|s.payments|] == s.payments
                          && var p := r.value.payments[|s.payments|];
                             && p.installment == installment && p.amount == amount && p.status == Pending
                             && (phase.Some? || installment.None? ==> p.phase == phase)
                             && (phase.None? && installment.Some? ==>
                                   p.phase == Some(s.installments[installment.value].phase)))
  {}

  lemma NotificationOutcome(s: State, p: nat, success: bool)
    requires WellFormed(s)
    ensures p >= |s.payments| ==> Process(s, p, success) == Err(NotFound)
    ensures p < |s.payments| && s.payments[p].status == Completed ==> Process(s, p, success) == Ok(s)
    ensures p < |s.payments| && s.payments[p].status in {Failed, Refunded} ==> Process(s, p, success) == Err(BadRequest)
    ensures p < |s.payments| && s.payments[p].status in {Initiated, Pending} ==>
              && Process(s, p, success).Ok?
              && (success ==> Process(s, p, success).value == Complete(s, p))
              && (!success ==> && OnlyStatus(s, Process(s, p, success).value, p, Failed)
                               && Process(s, p, success).value == s.(payments := Process(s, p, success).value.payments))
  {}

  /** A completed payment is added to the installment and to the account it names, each with a new version. */
  lemma CompletionOutcome(s: State, p: nat)
    requires WellFormed(s) && p < |s.payments|
    ensures var payment, t := s.payments[p], Complete(s, p);
            && OnlyStatus(s, t, p, Completed) && t.adjustments == s.adjustments
            && (payment.installment.None? ==> t.installments == s.installments)
            && (payment.installment.Some? ==>
                  var i := payment.installment.value;
                  && OnlyInstallment(s, t, i)
                  && t.installments[i].paid == s.installments[i].paid + payment.amount
                  && t.installments[i].version == s.installments[i].version + 1
                  && t.installments[i].status
                     == if t.installments[i].paid >= s.installments[i].amount then Paid else PartiallyPaid)
            && (payment.phase.None? || s.accounts[payment.phase.value].None? ==> t.accounts == s.accounts)
            && (payment.phase.Some? && s.accounts[payment.phase.value].Some? ==>
                  var k := payment.phase.value;
                  && OnlyAccount(s, t, k) && t.accounts[k].value.paid == s.accounts[k].value.paid + payment.amount
                  && t.accounts[k].value.version == s.accounts[k].value.version + 1)
  {
    assert Linked(s, s.payments[p]);
  }

  /** It hands over to the next phase exactly when its account then reaches its total, adjustments included. */
  lemma HandOverOutcome(s: State, p: nat)
    requires WellFormed(s) && p < |s.payments|
    ensures var payment, t := s.payments[p], Complete(s, p);
            var reached := payment.phase.Some? && s.accounts[payment.phase.value].Some?
                           && s.accounts[payment.phase.value].value.paid + payment.amount
                              + AdjustmentTotal(s.adjustments, payment.phase.value)
                              >= s.accounts[payment.phase.value].value.total;
            && (reached ==> O.HandedOver(s.board, t.board, payment.phase.value))
            && (!reached ==> t.board == s.board)
  {
    assert Linked(s, s.payments[p]);
  }

  /** Adjustments in force count, reductions for and additions against the buyer; others and other phases do not. */
  lemma AdjustmentsCount(adjustments: seq<Adjustment>, a: Adjustment, k: nat)
    ensures AdjustmentTotal([], k) == 0
    ensures var change := AdjustmentTotal(adjustments + [a], k) - AdjustmentTotal(adjustments, k);
            && (a.phase == Some(k) && a.status in {Applied, Approved} && a.direction == Reduction ==>
                  change == a.amount)
            && (a.phase == Some(k) && a.status in {Applied, Approved} && a.direction == Addition ==>
                  change == -a.amount)
            && (a.phase != Some(k) || a.status in {Requested, Reversed} ==> change == 0)
  {
    assert (adjustments + [a])[..|adjustments|] == adjustments;
  }

  // ---------------------------------------------------------------- refund

  /** Only a completed payment is refunded; what it paid is taken off again, but never below 0, and no phase moves. */
  lemma RefundOutcome(s: State, p: nat)
    requires WellFormed(s)
    ensures var r := Refund(s, p);
            && (r.Ok? <==> p < |s.payments| && s.payments[p].status == Completed)
            && (r.Err? ==> r.error == if p >= |s.payments| then NotFound else BadRequest)
            && (r.Ok? ==> && OnlyStatus(s, r.value, p, Refunded)
                          && r.value.board == s.board && r.value.adjustments == s.adjustments)
  {}

  lemma RefundedRows(s: State, p: nat)
    requires WellFormed(s) && Refund(s, p).Ok?
    ensures var payment, t := s.payments[p], Refund(s, p).value;
            && (payment.installment.None? ==> t.installments == s.installments)
            && (payment.installment.Some? ==>
                  var i := payment.installment.value;
                  && OnlyInstallment(s, t, i) && t.installments[i].version == s.installments[i].version
                  && (s.installments[i].paid <= payment.amount ==>
                        t.installments[i].paid == 0 && t.installments[i].status == Unpaid)
                  && (s.installments[i].paid > payment.amount ==>
                        t.installments[i].paid == s.installments[i].paid - payment.amount
                        && t.installments[i].status == PartiallyPaid))
            && (payment.phase.None? || s.accounts[payment.phase.value].None? ==> t.accounts == s.accounts)
            && (payment.phase.Some? && s.accounts[payment.phase.value].Some? ==>
                  var k := payment.phase.value;
                  && OnlyAccount(s, t, k) && t.accounts[k].value.version == s.accounts[k].value.version
                  && (s.accounts[k].value.paid <= payment.amount ==> t.accounts[k].value.paid == 0)
                  && (s.accounts[k].value.paid > payment.amount ==>
                        t.accounts[k].value.paid == s.accounts[k].value.paid - payment.amount))
  {
    assert Linked(s, s.payments[p]);
  }

  // ---------------------------------------------------------------- adjustments and completion by hand

  /** An adjustment of a known phase and installment is applied unless its source is booked already and in force. */
  lemma AdjustmentOutcome(s: State, a: Adjustment)
    requires WellFormed(s)
    ensures var r := Adjust(s, a);
            var unknown := (a.phase.Some? && a.phase.value >= |s.accounts|)
                           || (a.installment.Some? && a.installment.value >= |s.installments|);
            var booked := a.sourceReference != ""
                          && exists i | 0 <= i < |s.adjustments| ::
                               s.adjustments[i].sourceReference == a.sourceReference
                               && s.adjustments[i].sourceType == a.sourceType && s.adjustments[i].status != Reversed;
            && (r.Ok? <==> !unknown && !booked)
            && (r.Err? ==> r.error == if unknown then BadRequest else Conflict)
            && (r.Ok? ==> && r.value.payments == s.payments && r.value.installments == s.installments
                          && r.value.accounts == s.accounts
                          && r.value.adjustments == s.adjustments + [a.(status := Applied)])
  {}

  /** A payment phase is completed by hand exactly if it is not completed and its installments are paid or waived. */
  lemma CompletionByHandOutcome(s: State, k: nat)
    requires WellFormed(s)
    ensures var r := FinishByHand(s, k);
            var due := exists i | 0 <= i < |s.installments| ::
                         s.installments[i].phase == k && s.installments[i].status in {Unpaid, Overdue, PartiallyPaid};
            && (r.Ok? <==> k < |s.accounts| && s.board.statuses[k] != W.Completed && (s.accounts[k].Some? ==> !due))
            && (r.Err? ==> r.error == if k >= |s.accounts| then NotFound else BadRequest)
            && (r.Ok? ==> && r.value.payments == s.payments && r.value.installments == s.installments
                          && r.value.adjustments == s.adjustments
                          && O.OnlyChanged(s.board, r.value.board, k, W.Completed, s.board.current)
                          && (s.accounts[k].None? ==> r.value.accounts == s.accounts)
                          && (s.accounts[k].Some? ==>
                                && OnlyAccount(s, r.value, k)
                                && r.value.accounts[k].value.paid == s.accounts[k].value.total
                                && r.value.accounts[k].value.version == s.accounts[k].value.version))
  {
    forall i | 0 <= i < |s.installments|
      ensures StillDue(s.installments[i], k)
         <==> s.installments[i].phase == k && s.installments[i].status in {Unpaid, Overdue, PartiallyPaid}
    {
      DueIff(s.installments[i], k);
    }
  }

  lemma DueIff(row: Installment, k: nat)
    ensures StillDue(row, k) <==> row.phase == k && row.status in {Unpaid, Overdue, PartiallyPaid}
  {
    match row.status
    case Unpaid =>
    case Paid =>
    case Overdue =>
    case PartiallyPaid =>
    case Waived =>
  }

  // ---------------------------------------------------------------- pay ahead

  /** Money is taken ahead exactly when some installment is unpaid or partly paid. */
  lemma PayAheadIff(s: State, amount: int)
    requires InstallmentsFit(s)
    ensures PayAhead(s, amount).Ok?
       <==> exists i | 0 <= i < |s.installments| :: s.installments[i].status in {Unpaid, PartiallyPaid}
    ensures PayAhead(s, amount).Err? ==> PayAhead(s, amount).error == BadRequest
  {
    if i :| 0 <= i < |s.installments| && s.installments[i].status in {Unpaid, PartiallyPaid} {
      assert Open(s.installments[i]);
    }
  }

  /** Installments paid among the first `n`. */
  function PaidCount(rows: seq<Installment>, n: nat): nat
    requires n <= |rows|
  {
    if n == 0 then 0 else PaidCount(rows, n - 1) + if rows[n - 1].status == Paid then 1 else 0
  }

  lemma {:induction false} PaidCountOf(rows: seq<Installment>, others: seq<Installment>, n: nat)
    requires n <= |rows| && n <= |others| && rows[..n] == others[..n]
    ensures PaidCount(rows, n) == PaidCount(others, n)
  {
    if n > 0 {
      assert rows[n - 1] == rows[..n][n - 1] == others[..n][n - 1];
      assert rows[..n - 1] == rows[..n][..n - 1] == others[..n][..n - 1];
      PaidCountOf(rows, others, n - 1);
    }
  }

  lemma OneMoreCounted(rows: seq<Installment>, amount: int, n: nat)
    requires 0 < n <= |rows|
    ensures PaidCount(RowsAfter(rows, amount, n), n) - PaidCount(RowsAfter(rows, amount, n - 1), n - 1)
         == if RowAfter(rows[n - 1], Left(rows, amount, n - 1)).status == Paid then 1 else 0
  {
    PaidCountOf(RowsAfter(rows, amount, n), RowsAfter(rows, amount, n - 1), n - 1);
  }

  lemma PassSettles(w: Progress, i: nat)
    requires InstallmentsFit(w.state) && i < |w.state.installments|
    ensures PayRow(w, i).settled - w.settled
         == (if RowAfter(w.state.installments[i], w.remaining).status == Paid then 1 else 0)
            - (if w.state.installments[i].status == Paid then 1 else 0)
  {}

  /** `installmentsPaid` counts the installments that the call turned to PAID. */
  lemma {:induction false} SettledAreCounted(s: State, amount: int, n: nat)
    requires InstallmentsFit(s) && n <= |s.installments|
    ensures Walk(s, amount, n).settled
         == PaidCount(RowsAfter(s.installments, amount, n), n) - PaidCount(s.installments, n)
  {
    if n > 0 {
      SettledAreCounted(s, amount, n - 1);
      WalkOnRows(s, amount, n - 1);
      assert Walk(s, amount, n - 1).state.installments[n - 1] == s.installments[n - 1];
      OneMoreCounted(s.installments, amount, n);
      PassSettles(Walk(s, amount, n - 1), n - 1);
    }
  }
}
