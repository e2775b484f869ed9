/** Terminations always move towards their end, never get stuck, and end an application at most once. */
module TerminationLaws {
  import opened Common
  import opened Settlement
  import opened Registry

  datatype Step =
    | CreateStep(unit: nat, buyer: nat, totalAmount: real, saveDraft: bool)
    | MoveStep(application: nat, trigger: Trigger)
    | SignStep(application: nat, user: nat, today: int)
    | CancelStep(application: nat)
    | PayStep(application: nat, amount: real)
    | FinishStep(application: nat)
    | RequestStep(application: nat, user: nat, reason: TerminationType, today: int)
    | AdminStep(application: nat, admin: nat, reason: TerminationType, bypass: bool, today: int)
    | ReviewStep(termination: nat, approve: bool, over: Option<Override>)
    | RefundStep(termination: nat)
    | RefundedStep(termination: nat, actual: Option<real>)
    | WithdrawStep(termination: nat, user: nat)

  function Outcome(s: State, step: Step): Result<State>
    requires WellFormed(s)
  {
    match step
    case CreateStep(unit, buyer, totalAmount, saveDraft) => CreateApplication(s, unit, buyer, totalAmount, saveDraft)
    case MoveStep(a, trigger) => Move(s, a, trigger)
    case SignStep(a, user, today) => Sign(s, a, user, today)
    case CancelStep(a) => CancelApplication(s, a)
    case PayStep(a, amount) => RecordPayment(s, a, amount)
    case FinishStep(a) => CompleteApplication(s, a)
    case RequestStep(a, user, reason, today) => RequestTermination(s, a, user, reason, today)
    case AdminStep(a, admin, reason, bypass, today) => AdminTerminate(s, a, admin, reason, bypass, today)
    case ReviewStep(t, approve, over) => ReviewTermination(s, t, approve, over)
    case RefundStep(t) => ProcessRefund(s, t)
    case RefundedStep(t, actual) => CompleteRefund(s, t, actual)
    case WithdrawStep(t, user) => CancelTermination(s, t, user)
  }

  /** A refused call changes nothing. */
  function Next(s: State, step: Step): State
    requires WellFormed(s)
  {
    var outcome := Outcome(s, step);
    if outcome.Ok? then outcome.value else s
  }

  /** The steps that belong to the termination service and file or execute a termination. */
  predicate MayExecute(step: Step) {
    step.RequestStep? || step.AdminStep? || step.ReviewStep? || step.RefundedStep?
  }

  predicate Grown(s: State, t: State)
    requires WellFormed(s)
  {
    && WellFormed(t)
    && |t.applications| >= |s.applications| && |t.terminations| >= |s.terminations|
    && |t.units| == |s.units| && |t.variants| == |s.variants|
  }

  lemma ExecuteGrown(s: State, t: nat)
    requires WellFormed(s) && t < |s.terminations| && Execute(s, t).Ok?
    ensures Grown(s, Execute(s, t).value)
  {}

  lemma FilingGrown(s: State, step: Step)
    requires WellFormed(s) && (step.RequestStep? || step.AdminStep?)
    ensures Grown(s, Next(s, step))
  {
    var a := step.application;
    if a < |s.applications| {
      forall row: Termination | row.application == a
        ensures Execute(Append(s, row), |s.terminations|).Ok? ==>
                  Grown(s, Execute(Append(s, row), |s.terminations|).value)
      {
        if Execute(Append(s, row), |s.terminations|).Ok? {
          ExecuteGrown(Append(s, row), |s.terminations|);
        }
      }
    }
  }

  lemma ReviewGrown(s: State, step: Step)
    requires WellFormed(s) && (step.ReviewStep? || step.RefundedStep?)
    ensures Grown(s, Next(s, step))
  {}

  lemma OtherGrown(s: State, step: Step)
    requires WellFormed(s) && !MayExecute(step)
    ensures Grown(s, Next(s, step))
  {}

  lemma StepKeepsWellFormed(s: State, step: Step)
    requires WellFormed(s)
    ensures Grown(s, Next(s, step))
  {
    if step.RequestStep? || step.AdminStep? {
      FilingGrown(s, step);
    } else if step.ReviewStep? || step.RefundedStep? {
      ReviewGrown(s, step);
    } else {
      OtherGrown(s, step);
    }
  }

  function Run(s: State, steps: seq<Step>): (t: State)
    requires WellFormed(s)
    ensures WellFormed(t) && |t.terminations| >= |s.terminations|
    decreases |steps|
  {
    if steps == [] then s
    else
      StepKeepsWellFormed(s, steps[0]);
      Run(Next(s, steps[0]), steps[1..])
  }

  // ---------------------------------------------------------------- one termination

  predicate RefundOk(row: Termination) {
    row.refundStatus == NotApplicable || (row.refundStatus == RefundPending && row.settlement.net > 0.0)
  }

  /** What is true of a termination between calls. */
  predicate RowOk(row: Termination) {
    match row.status
    case Requested => RefundOk(row)
    case PendingReview => RefundOk(row)
    case PendingRefund => row.refundStatus == RefundPending && row.settlement.net > 0.0
    case RefundInProgress => row.refundStatus == Initiated
    case RefundCompleted => false
    case Finished => row.executed
    case Rejected => !row.executed
    case Withdrawn => !row.executed
  }

  predicate RowsOk(s: State) {
    forall t | 0 <= t < |s.terminations| ::
      RowOk(s.terminations[t]) && (s.terminations[t].executed ==> s.terminations[t].status == Finished)
  }

  /** How many more calls a termination can take at most. */
  function Rank(status: TerminationStatus): nat {
    match status
    case Requested => 3
    case PendingReview => 3
    case PendingRefund => 2
    case RefundInProgress => 1
    case _ => 0
  }

  /** The existing termination a step is about. */
  function Target(step: Step): Option<nat> {
    match step
    case ReviewStep(t, _, _) => Some(t)
    case RefundStep(t) => Some(t)
    case RefundedStep(t, _) => Some(t)
    case WithdrawStep(t, _) => Some(t)
    case _ => None
  }

  lemma FilingKeepsRowsOk(s: State, step: Step)
    requires WellFormed(s) && RowsOk(s) && (step.RequestStep? || step.AdminStep?)
    ensures RowsOk(Next(s, step))
  {
    assert forall t | 0 <= t < |s.terminations| :: Next(s, step).terminations[t] == s.terminations[t];
  }

  lemma ReviewKeepsRowsOk(s: State, t: nat, approve: bool, over: Option<Override>)
    requires WellFormed(s) && RowsOk(s)
    ensures RowsOk(Next(s, ReviewStep(t, approve, over)))
  {}

  lemma RefundedKeepsRowsOk(s: State, t: nat, actual: Option<real>)
    requires WellFormed(s) && RowsOk(s)
    ensures RowsOk(Next(s, RefundedStep(t, actual)))
  {}

  lemma OtherKeepsRowsOk(s: State, step: Step)
    requires WellFormed(s) && RowsOk(s) && !MayExecute(step)
    ensures RowsOk(Next(s, step))
  {}

  lemma StepKeepsRowsOk(s: State, step: Step)
    requires WellFormed(s) && RowsOk(s)
    ensures RowsOk(Next(s, step))
  {
    match step
    case ReviewStep(t, approve, over) => ReviewKeepsRowsOk(s, t, approve, over);
    case RefundedStep(t, actual) => RefundedKeepsRowsOk(s, t, actual);
    case RequestStep(_, _, _, _) => FilingKeepsRowsOk(s, step);
    case AdminStep(_, _, _, _, _) => FilingKeepsRowsOk(s, step);
    case _ => OtherKeepsRowsOk(s, step);
  }

  /**
   * Every accepted step on a termination strictly lowers its rank, and no step changes any other termination;
   * so a termination takes at most three steps and is never touched again once it is finished.
   */
  lemma StepLowersRank(s: State, step: Step, t: nat)
    requires WellFormed(s) && RowsOk(s) && t < |s.terminations|
    ensures t < |Next(s, step).terminations|
    ensures if Target(step) == Some(t) && Outcome(s, step).Ok?
            then Rank(Next(s, step).terminations[t].status) < Rank(s.terminations[t].status)
            else Next(s, step).terminations[t] == s.terminations[t]
  {}

  /** How many steps of a run a termination accepts. */
  function Accepted(s: State, steps: seq<Step>, t: nat): nat
    requires WellFormed(s)
    decreases |steps|
  {
    if steps == [] then 0
    else
      StepKeepsWellFormed(s, steps[0]);
      (if Target(steps[0]) == Some(t) && Outcome(s, steps[0]).Ok? then 1 else 0)
      + Accepted(Next(s, steps[0]), steps[1..], t)
  }

  /** Over any run a termination accepts at most as many steps as its rank: three at the outside, none at the end. */
  lemma {:induction false} AtMostRankSteps(s: State, steps: seq<Step>, t: nat)
    requires WellFormed(s) && RowsOk(s) && t < |s.terminations|
    ensures Accepted(s, steps, t) + Rank(Run(s, steps).terminations[t].status) <= Rank(s.terminations[t].status) <= 3
    ensures Accepted(s, steps, t) == 0 ==> Run(s, steps).terminations[t] == s.terminations[t]
    decreases |steps|
  {
    if steps != [] {
      StepKeepsWellFormed(s, steps[0]);
      StepKeepsRowsOk(s, steps[0]);
      StepLowersRank(s, steps[0], t);
      AtMostRankSteps(Next(s, steps[0]), steps[1..], t);
    }
  }

  /** COMPLETED, REJECTED and CANCELLED are absorbing. */
  lemma FinishedStaysFinished(s: State, steps: seq<Step>, t: nat)
    requires WellFormed(s) && RowsOk(s) && t < |s.terminations| && !Live(s.terminations[t].status)
    ensures Run(s, steps).terminations[t] == s.terminations[t]
  {
    AtMostRankSteps(s, steps, t);
  }

  /**
   * The guards inside never fire: a review, a refund or a refund confirmation is accepted exactly in its status,
   * so neither the amount check of `processRefund` nor the status check of `executeTermination` ever refuses.
   */
  lemma GuardsNeverFire(s: State, t: nat, over: Option<Override>, actual: Option<real>)
    requires WellFormed(s) && RowsOk(s) && t < |s.terminations|
    ensures ReviewTermination(s, t, true, over).Ok? <==> s.terminations[t].status in {Requested, PendingReview}
    ensures ProcessRefund(s, t).Ok? <==> s.terminations[t].status == PendingRefund
    ensures CompleteRefund(s, t, actual).Ok? <==> s.terminations[t].status == RefundInProgress
  {}

  lemma FilingNeverRefusedInside(s: State, a: nat, user: nat, reason: TerminationType, bypass: bool, today: int)
    requires WellFormed(s) && RowsOk(s) && a < |s.applications|
    ensures RequestTermination(s, a, user, reason, today).Ok?
       <==> s.applications[a].status !in {Cancelled, Terminated} && !LiveTermination(s, a)
    ensures AdminTerminate(s, a, user, reason, bypass, today).Ok?
       <==> s.applications[a].status !in {Cancelled, Terminated}
  {}

  /** No termination is stuck: while it is live, some step on it is accepted. */
  lemma LiveNeverStuck(s: State, t: nat)
    requires WellFormed(s) && RowsOk(s) && t < |s.terminations| && Live(s.terminations[t].status)
    ensures exists step: Step :: Target(step) == Some(t) && Outcome(s, step).Ok?
  {
    GuardsNeverFire(s, t, None, None);
    var step := match s.terminations[t].status
      case PendingRefund => RefundStep(t)
      case RefundInProgress => RefundedStep(t, None)
      case _ => ReviewStep(t, true, None);
    assert Target(step) == Some(t) && Outcome(s, step).Ok?;
  }

  /** A request that needs no approval has nothing to refund, and is executed within the call. */
  lemma AutoApprovedExecutesAtOnce(s: State, a: nat, user: nat, reason: TerminationType, today: int)
    requires WellFormed(s) && RequestTermination(s, a, user, reason, today).Ok? && AutoApproved(s.applications[a])
    ensures var t := RequestTermination(s, a, user, reason, today).value;
            && |t.terminations| == |s.terminations| + 1
            && t.terminations[|s.terminations|].status == Finished && t.terminations[|s.terminations|].executed
            && t.applications[a].status == Terminated
  {
    NothingPaid(s.applications[a].payments);
  }

  // ---------------------------------------------------------------- one termination per application

  /** A termination that may still end its application, or has. */
  predicate Counts(row: Termination) {
    Live(row.status) || row.executed
  }

  predicate OneEach(s: State) {
    forall i, j | 0 <= i < j < |s.terminations| && s.terminations[i].application == s.terminations[j].application ::
      !(Counts(s.terminations[i]) && Counts(s.terminations[j]))
  }

  predicate Executed(s: State, a: nat) {
    exists t | 0 <= t < |s.terminations| :: s.terminations[t].application == a && s.terminations[t].executed
  }

  predicate Ended(status: ApplicationStatus) {
    status in {Terminated, Cancelled}
  }

  /** An application whose termination was executed stays ended. */
  predicate EndedStays(s: State)
    requires WellFormed(s)
  {
    forall t | 0 <= t < |s.terminations| ::
      s.terminations[t].executed ==> Ended(s.applications[s.terminations[t].application].status)
  }

  /** Admins do not terminate twice at a time, and nothing is signed or completed once its termination was executed. */
  predicate Orderly(s: State, step: Step) {
    match step
    case AdminStep(a, _, _, _, _) => !LiveTermination(s, a)
    case SignStep(a, _, _) => !Executed(s, a)
    case FinishStep(a) => !Executed(s, a)
    case _ => true
  }

  predicate OncePerApplication(s: State)
    requires WellFormed(s)
  {
    RowsOk(s) && OneEach(s) && EndedStays(s)
  }

  lemma AppendKeepsOneEach(s: State, row: Termination)
    requires WellFormed(s) && OneEach(s) && row.application < |s.applications|
    requires !LiveTermination(s, row.application) && !Executed(s, row.application)
    ensures OneEach(Append(s, row))
  {}

  lemma ReplaceKeepsOneEach(s: State, t: nat, row: Termination)
    requires OneEach(s) && t < |s.terminations| && row.application == s.terminations[t].application
    requires Counts(row) ==> Counts(s.terminations[t])
    ensures OneEach(SetTermination(s, t, row))
  {}

  lemma NotEndedNotExecuted(s: State, a: nat)
    requires WellFormed(s) && EndedStays(s) && a < |s.applications| && !Ended(s.applications[a].status)
    ensures !Executed(s, a)
  {}

  lemma FilingKeepsOneEach(s: State, step: Step)
    requires WellFormed(s) && OncePerApplication(s) && Orderly(s, step) && (step.RequestStep? || step.AdminStep?)
    ensures OneEach(Next(s, step))
  {
    var a, n := step.application, Next(s, step);
    if |n.terminations| > |s.terminations| {
      NotEndedNotExecuted(s, a);
      AppendKeepsOneEach(s, n.terminations[|s.terminations|]);
      assert n.terminations == Append(s, n.terminations[|s.terminations|]).terminations;
    }
  }

  lemma StepKeepsOneEach(s: State, step: Step)
    requires WellFormed(s) && OncePerApplication(s) && Orderly(s, step)
    ensures OneEach(Next(s, step))
  {
    if step.RequestStep? || step.AdminStep? {
      FilingKeepsOneEach(s, step);
    } else if Target(step).Some? && Outcome(s, step).Ok? {
      var t, n := Target(step).value, Next(s, step);
      assert RowOk(s.terminations[t]);
      ReplaceKeepsOneEach(s, t, n.terminations[t]);
      assert n.terminations == SetTermination(s, t, n.terminations[t]).terminations;
    } else {
      assert Next(s, step).terminations == s.terminations;
    }
  }

  lemma FilingKeepsEndedStays(s: State, step: Step)
    requires WellFormed(s) && EndedStays(s) && (step.RequestStep? || step.AdminStep?) && WellFormed(Next(s, step))
    ensures EndedStays(Next(s, step))
  {}

  lemma ReviewKeepsEndedStays(s: State, step: Step)
    requires WellFormed(s) && EndedStays(s) && (step.ReviewStep? || step.RefundedStep?) && WellFormed(Next(s, step))
    ensures EndedStays(Next(s, step))
  {}

  lemma OtherKeepsEndedStays(s: State, step: Step)
    requires WellFormed(s) && EndedStays(s) && Orderly(s, step) && !MayExecute(step) && WellFormed(Next(s, step))
    ensures EndedStays(Next(s, step))
  {}

  lemma StepKeepsEndedStays(s: State, step: Step)
    requires WellFormed(s) && OncePerApplication(s) && Orderly(s, step)
    ensures WellFormed(Next(s, step)) && EndedStays(Next(s, step))
  {
    StepKeepsWellFormed(s, step);
    if step.RequestStep? || step.AdminStep? {
      FilingKeepsEndedStays(s, step);
    } else if step.ReviewStep? || step.RefundedStep? {
      ReviewKeepsEndedStays(s, step);
    } else {
      OtherKeepsEndedStays(s, step);
    }
  }

  predicate OrderlyRun(s: State, steps: seq<Step>)
    requires WellFormed(s)
    decreases |steps|
  {
    steps == [] ||
    (Orderly(s, steps[0]) && (StepKeepsWellFormed(s, steps[0]); OrderlyRun(Next(s, steps[0]), steps[1..])))
  }

  /** In every orderly run an application has at most one live termination and is executed at most once. */
  lemma {:induction false} ExecutedAtMostOnce(s: State, steps: seq<Step>)
    requires WellFormed(s) && OncePerApplication(s) && OrderlyRun(s, steps)
    ensures OncePerApplication(Run(s, steps))
    decreases |steps|
  {
    if steps != [] {
      StepKeepsWellFormed(s, steps[0]);
      StepKeepsRowsOk(s, steps[0]);
      StepKeepsOneEach(s, steps[0]);
      StepKeepsEndedStays(s, steps[0]);
      ExecutedAtMostOnce(Next(s, steps[0]), steps[1..]);
    }
  }

  /** An admin termination keeps it to one per application exactly when no other one is live. */
  lemma AdminKeepsOneEachIff(s: State, a: nat, admin: nat, reason: TerminationType, bypass: bool, today: int)
    requires WellFormed(s) && OncePerApplication(s)
    requires AdminTerminate(s, a, admin, reason, bypass, today).Ok?
    ensures OneEach(AdminTerminate(s, a, admin, reason, bypass, today).value) <==> !LiveTermination(s, a)
  {
    var n := AdminTerminate(s, a, admin, reason, bypass, today).value;
    if LiveTermination(s, a) {
      var t :| 0 <= t < |s.terminations| && s.terminations[t].application == a && Live(s.terminations[t].status);
      assert n.terminations[t] == s.terminations[t];
      assert Counts(n.terminations[t]) && Counts(n.terminations[|s.terminations|]);
    } else {
      StepKeepsOneEach(s, AdminStep(a, admin, reason, bypass, today));
    }
  }

  /**
   * Signing makes the application ACTIVE whatever it was, a cancelled one included. Executed terminations keep
   * their applications ended exactly when the signed one has none.
   */
  lemma SignKeepsEndedIff(s: State, a: nat, user: nat, today: int)
    requires WellFormed(s) && EndedStays(s) && Sign(s, a, user, today).Ok?
    ensures WellFormed(Sign(s, a, user, today).value)
    ensures Sign(s, a, user, today).value.applications[a].status == Active
    ensures EndedStays(Sign(s, a, user, today).value) <==> !Executed(s, a)
  {
    var n := Sign(s, a, user, today).value;
    if Executed(s, a) {
      var t :| 0 <= t < |s.terminations| && s.terminations[t].application == a && s.terminations[t].executed;
      assert n.terminations[t].executed;
    }
  }

  /** The same of completing an application. */
  lemma FinishKeepsEndedIff(s: State, a: nat)
    requires WellFormed(s) && EndedStays(s) && a < |s.applications|
    ensures WellFormed(CompleteApplication(s, a).value)
    ensures EndedStays(CompleteApplication(s, a).value) <==> !Executed(s, a)
  {
    var n := CompleteApplication(s, a).value;
    if Executed(s, a) {
      var t :| 0 <= t < |s.terminations| && s.terminations[t].application == a && s.terminations[t].executed;
      assert n.terminations[t].executed && n.applications[a].status == Completed;
    }
  }

  /**
   * For every step of the system: one live or executed termination per application, and executed ones stay
   * ended, is kept exactly when the step is refused or orderly.
   */
  lemma StepKeepsOnceIff(s: State, step: Step)
    requires WellFormed(s) && OncePerApplication(s)
    ensures WellFormed(Next(s, step))
    ensures OncePerApplication(Next(s, step)) <==> (Outcome(s, step).Ok? ==> Orderly(s, step))
  {
    StepKeepsWellFormed(s, step);
    if Outcome(s, step).Ok? {
      if Orderly(s, step) {
        StepKeepsRowsOk(s, step);
        StepKeepsOneEach(s, step);
        StepKeepsEndedStays(s, step);
      } else {
        match step
        case AdminStep(a, admin, reason, bypass, today) => AdminKeepsOneEachIff(s, a, admin, reason, bypass, today);
        case SignStep(a, user, today) => SignKeepsEndedIff(s, a, user, today);
        case FinishStep(a) => FinishKeepsEndedIff(s, a);
      }
    }
  }

  /** An unsigned, unpaid application with one unit, already terminated. */
  function TerminatedUnsigned(): (s: State)
    ensures WellFormed(s) && OncePerApplication(s)
  {
    State([Unit(0, Available)], [Counters(1, 0, 0)], [Application(0, 7, Terminated, None, 1000.0, [])],
          [Termination(0, 7, Finished, NotApplicable, Amounts(0.0, 0.0, 0.0, 0.0, 0.0), true)])
  }

  /** Signed after its end and approved again by an admin, the application releases its unit a second time. */
  lemma SignedAfterEndExecutedTwice()
    ensures var s := TerminatedUnsigned();
            var signed := Next(s, SignStep(0, 7, 10));
            && WellFormed(signed)
            && var again := Next(signed, AdminStep(0, 1, SellerWithdrawal, true, 10));
               && |again.terminations| == 2 && again.terminations[0].executed && again.terminations[1].executed
               && again.variants == [Counters(2, -1, 0)]
  {
    var s := TerminatedUnsigned();
    var signed := Next(s, SignStep(0, 7, 10));
    assert signed.applications == [Application(0, 7, Active, Some(10), 1000.0, [])];
    NothingPaid([]);
  }

  /** Completed after its end, the application can be terminated again and releases its unit a second time. */
  lemma CompletedAfterEndExecutedTwice()
    ensures var s := TerminatedUnsigned();
            var completed := Next(s, FinishStep(0));
            && WellFormed(completed)
            && var again := Next(completed, AdminStep(0, 1, SellerWithdrawal, true, 10));
               && |again.terminations| == 2 && again.terminations[0].executed && again.terminations[1].executed
               && again.variants == [Counters(2, -2, 1)]
  {
    var completed := Next(TerminatedUnsigned(), FinishStep(0));
    assert completed.applications == [Application(0, 7, Completed, None, 1000.0, [])];
    NothingPaid([]);
  }

  /** An unpaid application under review for termination. */
  function UnderReview(): (s: State)
    ensures WellFormed(s) && OncePerApplication(s)
  {
    State([Unit(0, Reserved)], [Counters(0, 1, 0)], [Application(0, 7, Active, None, 1000.0, [])],
          [Termination(0, 7, PendingReview, NotApplicable, Amounts(0.0, 0.0, 0.0, 0.0, 0.0), false)])
  }

  /** An admin terminates it meanwhile; the review is still approved, and the unit is released twice. */
  lemma TerminatedDuringReviewExecutedTwice()
    ensures var s := UnderReview();
            var terminated := Next(s, AdminStep(0, 1, SellerWithdrawal, true, 10));
            && WellFormed(terminated)
            && var approved := Next(terminated, ReviewStep(0, true, None));
               && |approved.terminations| == 2 && approved.terminations[0].executed && approved.terminations[1].executed
               && approved.variants == [Counters(2, -1, 0)]
  {
    NothingPaid([]);
    var terminated := Next(UnderReview(), AdminStep(0, 1, SellerWithdrawal, true, 10));
    assert terminated.terminations[0] == UnderReview().terminations[0];
    assert terminated.variants == [Counters(1, 0, 0)];
  }
}
