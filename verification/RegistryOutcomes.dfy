/** What each call leaves of applications, units, counters and terminations, told without the registry's helpers. */
module RegistryOutcomes {
  import opened Common
  import opened Settlement
  import opened Registry
  import opened TerminationLaws

  /** Unit `u` and the counters of its variant are the only rows that change, and by this much. */
  predicate UnitMoved(s: State, t: State, u: nat, to: UnitStatus, available: int, reserved: int, sold: int)
    requires WellFormed(s)
  {
    && u < |s.units| && |t.units| == |s.units| && |t.variants| == |s.variants|
    && t.units[u] == Unit(s.units[u].variant, to)
    && (forall i | 0 <= i < |s.units| && i != u :: t.units[i] == s.units[i])
    && var v := s.units[u].variant;
       && t.variants[v].available == s.variants[v].available + available
       && t.variants[v].reserved == s.variants[v].reserved + reserved
       && t.variants[v].sold == s.variants[v].sold + sold
       && forall i | 0 <= i < |s.variants| && i != v :: t.variants[i] == s.variants[i]
  }

  /** Application `a` gets a status and keeps everything else, like all other applications. */
  predicate ApplicationMoved(s: State, t: State, a: nat, status: ApplicationStatus) {
    && a < |s.applications| == |t.applications|
    && t.applications[a] == Application(s.applications[a].unit, s.applications[a].buyer, status,
                                        s.applications[a].signedOn, s.applications[a].totalAmount,
                                        s.applications[a].payments)
    && forall i | 0 <= i < |s.applications| && i != a :: t.applications[i] == s.applications[i]
  }

  predicate OnlyTermination(s: State, n: State, t: nat) {
    && n.units == s.units && n.variants == s.variants && n.applications == s.applications
    && t < |s.terminations| == |n.terminations|
    && forall i | 0 <= i < |s.terminations| && i != t :: n.terminations[i] == s.terminations[i]
  }

  /** Termination `t` keeps its application and its initiator, and all other terminations stay as they are. */
  predicate SameFile(s: State, n: State, t: nat) {
    && t < |s.terminations| == |n.terminations|
    && n.terminations[t].application == s.terminations[t].application
    && n.terminations[t].initiator == s.terminations[t].initiator
    && forall i | 0 <= i < |s.terminations| && i != t :: n.terminations[i] == s.terminations[i]
  }

  /** The application is TERMINATED and its unit released. */
  predicate EndsApplication(s: State, n: State, a: nat)
    requires WellFormed(s) && a < |s.applications|
  {
    ApplicationMoved(s, n, a, Terminated) && UnitMoved(s, n, s.applications[a].unit, Available, 1, -1, 0)
  }

  // ---------------------------------------------------------------- applications

  /** A unit is reserved for one buyer at a time: refused if it is not available, or the buyer's attempt is open. */
  lemma CreationOutcome(s: State, unit: nat, buyer: nat, totalAmount: real, saveDraft: bool)
    requires WellFormed(s)
    ensures var r := CreateApplication(s, unit, buyer, totalAmount, saveDraft);
            var open := exists a | 0 <= a < |s.applications| ::
                          s.applications[a].unit == unit && s.applications[a].buyer == buyer
                          && s.applications[a].status in {Draft, Pending, Active};
            && (r.Ok? <==> unit < |s.units| && s.units[unit].status == Available && !open)
            && (r.Err? ==> r.error == if unit >= |s.units| then NotFound
                                      else if s.units[unit].status != Available then BadRequest else Conflict)
            && (r.Ok? ==> && UnitMoved(s, r.value, unit, Reserved, -1, 1, 0) && r.value.terminations == s.terminations
                          && r.value.applications == s.applications
                             + [Application(unit, buyer, if saveDraft then Draft else Pending, None, totalAmount, [])])
  {}

  lemma SigningOutcome(s: State, a: nat, user: nat, today: int)
    ensures var r := Sign(s, a, user, today);
            && (r.Ok? <==> a < |s.applications| && s.applications[a].signedOn.None? && s.applications[a].buyer == user)
            && (r.Err? ==> r.error == if a >= |s.applications| then NotFound
                                      else if s.applications[a].signedOn.Some? then BadRequest else Forbidden)
            && (r.Ok? ==> && r.value == s.(applications := r.value.applications)
                          && |r.value.applications| == |s.applications|
                          && r.value.applications[a]
                             == Application(s.applications[a].unit, user, Active, Some(today),
                                            s.applications[a].totalAmount, s.applications[a].payments)
                          && forall i | 0 <= i < |s.applications| && i != a ::
                               r.value.applications[i] == s.applications[i])
  {}

  lemma CancellationOutcome(s: State, a: nat)
    ensures var r := CancelApplication(s, a);
            && (r.Ok? <==> a < |s.applications| && s.applications[a].status !in {Completed, Cancelled})
            && (r.Err? ==> r.error == if a >= |s.applications| then NotFound else BadRequest)
            && (r.Ok? ==> && ApplicationMoved(s, r.value, a, Cancelled)
                          && r.value == s.(applications := r.value.applications))
  {}

  lemma CompletionOutcome(s: State, a: nat)
    requires WellFormed(s)
    ensures var r := CompleteApplication(s, a);
            && (r.Ok? <==> a < |s.applications|) && (r.Err? ==> r.error == NotFound)
            && (r.Ok? ==> && ApplicationMoved(s, r.value, a, Completed) && r.value.terminations == s.terminations
                          && UnitMoved(s, r.value, s.applications[a].unit, Sold, 0, -1, 1))
  {}

  lemma TransitionOutcome(s: State, a: nat, trigger: Trigger)
    ensures var r := Registry.Move(s, a, trigger);
            && (r.Ok? <==> a < |s.applications| && GetNextState(s.applications[a].status, trigger).Some?)
            && (r.Err? ==> r.error == if a >= |s.applications| then NotFound else BadRequest)
            && (r.Ok? ==> && ApplicationMoved(s, r.value, a, GetNextState(s.applications[a].status, trigger).value)
                          && r.value == s.(applications := r.value.applications))
  {}

  // ---------------------------------------------------------------- filing a termination

  /** What is owed at filing, by the default policies and the days since the signature. */
  predicate Assessed(s: State, a: nat, row: Termination, reason: TerminationType, today: int)
    requires a < |s.applications|
  {
    var application := s.applications[a];
    var paid := TotalPaid(application.payments);
    && row.settlement == CalculateSettlement(reason, application.totalAmount, paid,
                                             if application.signedOn.None? then None
                                             else Some(today - application.signedOn.value),
                                             Policies(2.0, 5.0, 500.0, 0.5, 14))
    && row.refundStatus == if paid > 0.0 && row.settlement.net > 0.0 then RefundPending else NotApplicable
  }

  /** The termination that a filing adds. */
  function Filed(s: State, n: State): Termination
    requires |n.terminations| == |s.terminations| + 1
  {
    n.terminations[|s.terminations|]
  }

  predicate OneFiled(s: State, n: State) {
    && |n.terminations| == |s.terminations| + 1
    && forall i | 0 <= i < |s.terminations| :: n.terminations[i] == s.terminations[i]
  }

  /** A payment of an application is one more completed entry; nothing else changes. */
  lemma PaymentOutcome(s: State, a: nat, amount: real)
    ensures a >= |s.applications| ==> RecordPayment(s, a, amount) == Err(NotFound)
    ensures a < |s.applications| ==>
              && RecordPayment(s, a, amount).Ok?
              && var t := RecordPayment(s, a, amount).value;
                 && t == s.(applications := t.applications) && |t.applications| == |s.applications|
                 && t.applications[a]
                    == s.applications[a].(payments := s.applications[a].payments + [Entry(true, amount)])
                 && forall i | 0 <= i < |s.applications| && i != a :: t.applications[i] == s.applications[i]
  {}

  /** Execution is refused while a refund is neither waiting, made, nor out of the question; else it ends it all. */
  lemma ExecutionOutcome(s: State, t: nat)
    requires WellFormed(s) && t < |s.terminations|
    ensures var r := Execute(s, t);
            && (r.Ok? <==> s.terminations[t].refundStatus == NotApplicable
                           || s.terminations[t].status in {PendingRefund, RefundCompleted, Finished})
            && (r.Err? ==> r.error == BadRequest)
            && (r.Ok? ==> && SameFile(s, r.value, t) && EndsApplication(s, r.value, s.terminations[t].application)
                          && r.value.terminations[t].status == Finished && r.value.terminations[t].executed
                          && r.value.terminations[t].refundStatus == s.terminations[t].refundStatus
                          && r.value.terminations[t].settlement == s.terminations[t].settlement)
  {}

  /** Filing is refused for an unknown or ended application, and a request while another termination is under way. */
  lemma FilingRefusals(s: State, a: nat, user: nat, reason: TerminationType, bypass: bool, today: int)
    requires WellFormed(s)
    ensures a >= |s.applications| ==>
              RequestTermination(s, a, user, reason, today)
              == AdminTerminate(s, a, user, reason, bypass, today) == Err(NotFound)
    ensures a < |s.applications| && s.applications[a].status in {Cancelled, Terminated} ==>
              RequestTermination(s, a, user, reason, today)
              == AdminTerminate(s, a, user, reason, bypass, today) == Err(BadRequest)
    ensures a < |s.applications|
            && (exists t | 0 <= t < |s.terminations| ::
                  s.terminations[t].application == a
                  && s.terminations[t].status in {Requested, PendingReview, PendingRefund, RefundInProgress}) ==>
              RequestTermination(s, a, user, reason, today) == Err(BadRequest)
  {}

  /**
   * A request for an unsigned application without any completed payment is executed at once; any other waits for
   * review and touches nothing else.
   */
  lemma RequestOutcome(s: State, a: nat, user: nat, reason: TerminationType, today: int)
    requires WellFormed(s) && RequestTermination(s, a, user, reason, today).Ok?
    ensures var n := RequestTermination(s, a, user, reason, today).value;
            var unsignedUnpaid := s.applications[a].signedOn.None?
                                  && forall i | 0 <= i < |s.applications[a].payments| ::
                                       !s.applications[a].payments[i].completed;
            && OneFiled(s, n) && Filed(s, n).application == a && Filed(s, n).initiator == user
            && Assessed(s, a, Filed(s, n), reason, today)
            && (unsignedUnpaid ==> Filed(s, n).status == Finished && Filed(s, n).executed && EndsApplication(s, n, a))
            && (!unsignedUnpaid ==> && Filed(s, n).status == Requested && !Filed(s, n).executed
                                    && n == s.(terminations := n.terminations))
  {
    if !HasPayments(s.applications[a].payments) {
      NothingPaid(s.applications[a].payments);
    }
  }

  /** An admin's termination waits for review, unless it bypasses it; then it waits for the refund, if one is due. */
  lemma AdminOutcome(s: State, a: nat, admin: nat, reason: TerminationType, bypass: bool, today: int)
    requires WellFormed(s) && AdminTerminate(s, a, admin, reason, bypass, today).Ok?
    ensures var n := AdminTerminate(s, a, admin, reason, bypass, today).value;
            && OneFiled(s, n) && Filed(s, n).application == a && Filed(s, n).initiator == admin
            && Assessed(s, a, Filed(s, n), reason, today)
            && (!bypass ==> Filed(s, n).status == PendingReview)
            && (bypass && Filed(s, n).refundStatus == RefundPending ==> Filed(s, n).status == PendingRefund)
            && (!bypass || Filed(s, n).refundStatus == RefundPending ==>
                  !Filed(s, n).executed && n == s.(terminations := n.terminations))
            && (bypass && Filed(s, n).refundStatus == NotApplicable ==>
                  Filed(s, n).status == Finished && Filed(s, n).executed && EndsApplication(s, n, a))
  {}

  // ---------------------------------------------------------------- what becomes of a termination

  /** The settlement under review, each part replaced by the override where it is given; the net is never negative. */
  predicate Reassessed(before: Amounts, over: Option<Override>, after: Amounts) {
    if over.None? then after == before
    else
      && (over.value.refundable.Some? ==> after.refundable == over.value.refundable.value)
      && (over.value.refundable.None? ==> after.refundable == before.refundable)
      && (over.value.penalty.Some? ==> after.penalty == over.value.penalty.value)
      && (over.value.penalty.None? ==> after.penalty == before.penalty)
      && (over.value.forfeited.Some? ==> after.forfeited == over.value.forfeited.value)
      && (over.value.forfeited.None? ==> after.forfeited == before.forfeited)
      && (over.value.adminFee.Some? ==> after.adminFee == over.value.adminFee.value)
      && (over.value.adminFee.None? ==> after.adminFee == before.adminFee)
      && var rest := after.refundable - after.penalty - after.forfeited - after.adminFee;
         after.net == if rest < 0.0 then 0.0 else rest
  }

  /** An approved refund that is still due is only put off: nothing is executed, and no other row changes. */
  lemma ApprovalOutcome(s: State, t: nat, over: Option<Override>)
    requires WellFormed(s) && ReviewTermination(s, t, true, over).Ok?
    ensures var n := ReviewTermination(s, t, true, over).value;
            && SameFile(s, n, t) && Reassessed(s.terminations[t].settlement, over, n.terminations[t].settlement)
            && n.terminations[t].refundStatus == s.terminations[t].refundStatus
            && (s.terminations[t].refundStatus != NotApplicable && n.terminations[t].settlement.net > 0.0 ==>
                  && OnlyTermination(s, n, t) && n.terminations[t].status == PendingRefund
                  && n.terminations[t].executed == s.terminations[t].executed)
            && (s.terminations[t].refundStatus == NotApplicable || n.terminations[t].settlement.net <= 0.0 ==>
                  && n.terminations[t].status == Finished && n.terminations[t].executed
                  && EndsApplication(s, n, s.terminations[t].application))
  {}

  lemma RejectionOutcome(s: State, t: nat, over: Option<Override>)
    requires WellFormed(s)
    ensures var r := ReviewTermination(s, t, false, over);
            && (r.Ok? <==> t < |s.terminations| && s.terminations[t].status in {Requested, PendingReview})
            && (r.Err? ==> r.error == if t >= |s.terminations| then NotFound else BadRequest)
            && (r.Ok? ==> && OnlyTermination(s, r.value, t)
                          && r.value.terminations[t] == s.terminations[t].(status := Rejected))
  {}

  lemma RefundOutcome(s: State, t: nat)
    ensures var r := ProcessRefund(s, t);
            && (r.Ok? <==> && t < |s.terminations| && s.terminations[t].status == PendingRefund
                           && s.terminations[t].settlement.net > 0.0)
            && (r.Err? ==> r.error == if t >= |s.terminations| then NotFound else BadRequest)
            && (r.Ok? ==> && OnlyTermination(s, r.value, t)
                          && r.value.terminations[t]
                             == s.terminations[t].(status := RefundInProgress, refundStatus := Initiated))
  {}

  lemma RefundConfirmedOutcome(s: State, t: nat, actual: Option<real>)
    requires WellFormed(s)
    ensures var r := CompleteRefund(s, t, actual);
            && (r.Ok? <==> t < |s.terminations| && s.terminations[t].status == RefundInProgress)
            && (r.Err? ==> r.error == if t >= |s.terminations| then NotFound else BadRequest)
            && (r.Ok? ==> && SameFile(s, r.value, t)
                          && r.value.terminations[t].status == Finished && r.value.terminations[t].executed
                          && r.value.terminations[t].refundStatus == Refunded
                          && (actual.Some? ==> r.value.terminations[t].settlement.net == actual.value)
                          && (actual.None? ==>
                                r.value.terminations[t].settlement.net == s.terminations[t].settlement.net)
                          && EndsApplication(s, r.value, s.terminations[t].application))
  {}

  lemma WithdrawalOutcome(s: State, t: nat, user: nat)
    ensures var r := CancelTermination(s, t, user);
            && (r.Ok? <==> t < |s.terminations| && s.terminations[t].status in {Requested, PendingReview}
                           && s.terminations[t].initiator == user)
            && (r.Err? ==> r.error == if t >= |s.terminations| then NotFound
                                      else if s.terminations[t].status !in {Requested, PendingReview} then BadRequest
                                      else Forbidden)
            && (r.Ok? ==> && OnlyTermination(s, r.value, t)
                          && r.value.terminations[t] == s.terminations[t].(status := Withdrawn))
  {}

  // ---------------------------------------------------------------- no refund is lost

  /** Nothing is owed on an executed termination any more: no refund applied, it was made, or it came to nothing. */
  predicate RefundSettled(row: Termination) {
    row.executed && row.refundStatus !in {NotApplicable, Refunded} ==> row.settlement.net <= 0.0
  }

  predicate RefundsSettled(s: State) {
    forall t | 0 <= t < |s.terminations| :: RefundSettled(s.terminations[t])
  }

  lemma FilingSettles(s: State, step: Step)
    requires WellFormed(s) && RowsOk(s) && RefundsSettled(s) && (step.RequestStep? || step.AdminStep?)
    ensures RefundsSettled(Next(s, step))
  {
    assert forall t | 0 <= t < |s.terminations| :: Next(s, step).terminations[t] == s.terminations[t];
  }

  lemma ReviewSettles(s: State, t: nat, approve: bool, over: Option<Override>)
    requires WellFormed(s) && RowsOk(s) && RefundsSettled(s)
    ensures RefundsSettled(Next(s, ReviewStep(t, approve, over)))
  {}

  lemma OtherStepSettles(s: State, step: Step)
    requires WellFormed(s) && RowsOk(s) && RefundsSettled(s)
    requires !step.RequestStep? && !step.AdminStep? && !step.ReviewStep?
    ensures RefundsSettled(Next(s, step))
  {}

  /** Over every run no termination is executed while a refund is still owed on it. */
  lemma {:induction false} NoRefundLost(s: State, steps: seq<Step>)
    requires WellFormed(s) && RowsOk(s) && RefundsSettled(s)
    ensures RefundsSettled(Run(s, steps))
    decreases |steps|
  {
    if steps != [] {
      StepKeepsWellFormed(s, steps[0]);
      StepKeepsRowsOk(s, steps[0]);
      match steps[0] {
        case RequestStep(_, _, _, _) => FilingSettles(s, steps[0]);
        case AdminStep(_, _, _, _, _) => FilingSettles(s, steps[0]);
        case ReviewStep(t, approve, over) => ReviewSettles(s, t, approve, over);
        case _ => OtherStepSettles(s, steps[0]);
      }
      NoRefundLost(Next(s, steps[0]), steps[1..]);
    }
  }
}
