/** The unit counters of a variant across application creation, completion and termination. */
module InventoryLaws {
  import opened Common
  import opened Settlement
  import opened Registry
  import opened TerminationLaws

  // ---------------------------------------------------------------- conservation

  function Total(c: Counters): int {
    c.available + c.reserved + c.sold
  }

  predicate SameTotals(s: State, t: State) {
    |t.variants| == |s.variants| && forall v | 0 <= v < |s.variants| :: Total(t.variants[v]) == Total(s.variants[v])
  }

  lemma ExecutingKeepsTotals(s: State, step: Step)
    requires WellFormed(s) && MayExecute(step)
    ensures SameTotals(s, Next(s, step))
  {}

  lemma StepKeepsTotals(s: State, step: Step)
    requires WellFormed(s)
    ensures SameTotals(s, Next(s, step))
  {
    if MayExecute(step) {
      ExecutingKeepsTotals(s, step);
    }
  }

  /** Available, reserved and sold units of a variant always add up to the same number, in every run whatsoever. */
  lemma {:induction false} UnitsAreConserved(s: State, steps: seq<Step>)
    requires WellFormed(s)
    ensures SameTotals(s, Run(s, steps))
    decreases |steps|
  {
    if steps != [] {
      StepKeepsWellFormed(s, steps[0]);
      StepKeepsTotals(s, steps[0]);
      UnitsAreConserved(Next(s, steps[0]), steps[1..]);
    }
  }

  // ---------------------------------------------------------------- the counters count the units

  function Count(units: seq<Unit>, v: nat, status: UnitStatus, n: nat): nat
    requires n <= |units|
  {
    if n == 0 then 0
    else Count(units, v, status, n - 1) + if units[n - 1] == Unit(v, status) then 1 else 0
  }

  lemma {:induction false} CountUpdate(units: seq<Unit>, u: nat, to: UnitStatus, v: nat, status: UnitStatus, n: nat)
    requires u < |units| && n <= |units|
    ensures Count(units[u := units[u].(status := to)], v, status, n) - Count(units, v, status, n)
         == if u < n && units[u].variant == v
            then (if to == status then 1 else 0) - (if units[u].status == status then 1 else 0)
            else 0
  {
    if n > 0 {
      CountUpdate(units, u, to, v, status, n - 1);
    }
  }

  function Counted(units: seq<Unit>, v: nat): Counters {
    Counters(Count(units, v, Available, |units|), Count(units, v, Reserved, |units|), Count(units, v, Sold, |units|))
  }

  /** Each counter is the number of units of the variant in that status. */
  predicate Agree(s: State) {
    forall v | 0 <= v < |s.variants| :: s.variants[v] == Counted(s.units, v)
  }

  /** A unit's move keeps the counters in agreement exactly when they move with its two statuses. */
  lemma MoveAgreesIff(s: State, u: nat, to: UnitStatus, available: int, reserved: int, sold: int)
    requires Agree(s) && u < |s.units| && s.units[u].variant < |s.variants|
    ensures Agree(MoveUnit(s, u, to, available, reserved, sold))
       <==> (&& available == (if to == Available then 1 else 0) - (if s.units[u].status == Available then 1 else 0)
             && reserved == (if to == Reserved then 1 else 0) - (if s.units[u].status == Reserved then 1 else 0)
             && sold == (if to == Sold then 1 else 0) - (if s.units[u].status == Sold then 1 else 0))
  {
    var t := MoveUnit(s, u, to, available, reserved, sold);
    forall v | 0 <= v < |s.variants|
      ensures Counted(t.units, v).available - Counted(s.units, v).available
           == if s.units[u].variant == v
              then (if to == Available then 1 else 0) - (if s.units[u].status == Available then 1 else 0) else 0
      ensures Counted(t.units, v).reserved - Counted(s.units, v).reserved
           == if s.units[u].variant == v
              then (if to == Reserved then 1 else 0) - (if s.units[u].status == Reserved then 1 else 0) else 0
      ensures Counted(t.units, v).sold - Counted(s.units, v).sold
           == if s.units[u].variant == v
              then (if to == Sold then 1 else 0) - (if s.units[u].status == Sold then 1 else 0) else 0
    {
      CountUpdate(s.units, u, to, v, Available, |s.units|);
      CountUpdate(s.units, u, to, v, Reserved, |s.units|);
      CountUpdate(s.units, u, to, v, Sold, |s.units|);
    }
    var v := s.units[u].variant;
    assert s.variants[v] == Counted(s.units, v);
  }

  lemma SameUnitsAgree(s: State, t: State)
    requires t.units == s.units && t.variants == s.variants
    ensures Agree(s) <==> Agree(t)
  {}

  /** Executing a termination keeps the counters in agreement exactly when the unit is reserved at that moment. */
  lemma ExecuteAgreesIff(s: State, t: nat)
    requires WellFormed(s) && Agree(s) && t < |s.terminations| && Execute(s, t).Ok?
    ensures Agree(Execute(s, t).value)
       <==> s.units[s.applications[s.terminations[t].application].unit].status == Reserved
  {
    var a := s.terminations[t].application;
    var ended := SetApplication(s, a, Terminated);
    var u := s.applications[a].unit;
    SameUnitsAgree(s, ended);
    MoveAgreesIff(ended, u, Available, 1, -1, 0);
    SameUnitsAgree(MoveUnit(ended, u, Available, 1, -1, 0), Execute(s, t).value);
  }

  /** Completing an application keeps the counters in agreement exactly when its unit is reserved at that moment. */
  lemma CompleteAgreesIff(s: State, a: nat)
    requires WellFormed(s) && Agree(s) && a < |s.applications|
    ensures Agree(CompleteApplication(s, a).value) <==> s.units[s.applications[a].unit].status == Reserved
  {
    var done := SetApplication(s, a, Completed);
    SameUnitsAgree(s, done);
    MoveAgreesIff(done, s.applications[a].unit, Sold, 0, -1, 1);
  }

  // ---------------------------------------------------------------- one application per unit

  /** An application that still stands for its unit. */
  predicate Holding(status: ApplicationStatus) {
    status in {Draft, Pending, Active, Transferred, Superseded}
  }

  predicate Exclusive(s: State)
    requires WellFormed(s)
  {
    && (forall a | 0 <= a < |s.applications| ::
          Holding(s.applications[a].status) ==> s.units[s.applications[a].unit].status == Reserved)
    && (forall a, b | 0 <= a < b < |s.applications| && s.applications[a].unit == s.applications[b].unit ::
          !(Holding(s.applications[a].status) && Holding(s.applications[b].status)))
  }

  predicate HeldBy(s: State, a: nat) {
    a < |s.applications| ==> Holding(s.applications[a].status)
  }

  /** Only applications that still hold their unit are signed, completed or terminated, one termination at a time. */
  predicate Proper(s: State, step: Step)
    requires WellFormed(s)
  {
    && Orderly(s, step)
    && match step
       case SignStep(a, _, _) => HeldBy(s, a)
       case FinishStep(a) => HeldBy(s, a)
       case RequestStep(a, _, _, _) => HeldBy(s, a)
       case AdminStep(a, _, _, _, _) => HeldBy(s, a)
       case ReviewStep(t, _, _) => t < |s.terminations| ==> HeldBy(s, s.terminations[t].application)
       case RefundedStep(t, _) => t < |s.terminations| ==> HeldBy(s, s.terminations[t].application)
       case _ => true
  }

  predicate Stocked(s: State)
    requires WellFormed(s)
  {
    Agree(s) && Exclusive(s)
  }

  lemma ExecuteKeepsStocked(s: State, t: nat)
    requires WellFormed(s) && Stocked(s) && t < |s.terminations| && Execute(s, t).Ok?
    requires Holding(s.applications[s.terminations[t].application].status)
    ensures WellFormed(Execute(s, t).value) && Stocked(Execute(s, t).value)
  {
    ExecuteAgreesIff(s, t);
  }

  lemma SameTablesStocked(s: State, t: State)
    requires WellFormed(s) && WellFormed(t) && Stocked(s)
    requires t.units == s.units && t.variants == s.variants && t.applications == s.applications
    ensures Stocked(t)
  {}

  lemma FilingKeepsStocked(s: State, a: nat, row: Termination)
    requires WellFormed(s) && Stocked(s) && row.application == a < |s.applications| && Holding(s.applications[a].status)
    ensures WellFormed(Append(s, row)) && Stocked(Append(s, row))
    ensures Execute(Append(s, row), |s.terminations|).Ok? ==>
              var t := Execute(Append(s, row), |s.terminations|).value; WellFormed(t) && Stocked(t)
  {
    AppendWellFormed(s, row);
    SameTablesStocked(s, Append(s, row));
    if Execute(Append(s, row), |s.terminations|).Ok? {
      ExecuteKeepsStocked(Append(s, row), |s.terminations|);
    }
  }

  lemma SavingKeepsStocked(s: State, t: nat, row: Termination)
    requires WellFormed(s) && Stocked(s) && t < |s.terminations| && row.application == s.terminations[t].application
    requires Holding(s.applications[row.application].status)
    ensures WellFormed(SetTermination(s, t, row)) && Stocked(SetTermination(s, t, row))
    ensures Execute(SetTermination(s, t, row), t).Ok? ==>
              var n := Execute(SetTermination(s, t, row), t).value; WellFormed(n) && Stocked(n)
  {
    SameTablesStocked(s, SetTermination(s, t, row));
    if Execute(SetTermination(s, t, row), t).Ok? {
      ExecuteKeepsStocked(SetTermination(s, t, row), t);
    }
  }

  lemma RequestKeepsStocked(s: State, a: nat, user: nat, reason: TerminationType, today: int)
    requires WellFormed(s) && Stocked(s) && a < |s.applications| && Holding(s.applications[a].status)
    requires RequestTermination(s, a, user, reason, today).Ok?
    ensures var t := RequestTermination(s, a, user, reason, today).value; WellFormed(t) && Stocked(t)
  {
    var row := Termination(a, user, if AutoApproved(s.applications[a]) then PendingRefund else Requested,
                           RefundStatusOf(s.applications[a], reason, today),
                           SettlementOf(s.applications[a], reason, today), false);
    FilingKeepsStocked(s, a, row);
  }

  lemma AdminKeepsStocked(s: State, a: nat, admin: nat, reason: TerminationType, bypass: bool, today: int)
    requires WellFormed(s) && Stocked(s) && a < |s.applications| && Holding(s.applications[a].status)
    requires AdminTerminate(s, a, admin, reason, bypass, today).Ok?
    ensures var t := AdminTerminate(s, a, admin, reason, bypass, today).value; WellFormed(t) && Stocked(t)
  {
    var row := Termination(a, admin, if bypass then PendingRefund else PendingReview,
                           RefundStatusOf(s.applications[a], reason, today),
                           SettlementOf(s.applications[a], reason, today), false);
    FilingKeepsStocked(s, a, row);
  }

  lemma ReviewKeepsStocked(s: State, t: nat, approve: bool, over: Option<Override>)
    requires WellFormed(s) && Stocked(s) && t < |s.terminations|
    requires Holding(s.applications[s.terminations[t].application].status) && ReviewTermination(s, t, approve, over).Ok?
    ensures var n := ReviewTermination(s, t, approve, over).value; WellFormed(n) && Stocked(n)
  {
    SavingKeepsStocked(s, t, s.terminations[t].(status := Rejected));
    SavingKeepsStocked(s, t, Approved(s.terminations[t], over));
  }

  lemma RefundedKeepsStocked(s: State, t: nat, actual: Option<real>)
    requires WellFormed(s) && Stocked(s) && t < |s.terminations|
    requires Holding(s.applications[s.terminations[t].application].status) && CompleteRefund(s, t, actual).Ok?
    ensures var n := CompleteRefund(s, t, actual).value; WellFormed(n) && Stocked(n)
  {
    var row := s.terminations[t];
    SavingKeepsStocked(s, t, row.(status := RefundCompleted, refundStatus := Refunded,
                                  settlement := row.settlement.(net := Or(actual, row.settlement.net))));
  }

  lemma TerminationStepKeepsStocked(s: State, step: Step)
    requires WellFormed(s) && Stocked(s) && Proper(s, step) && MayExecute(step)
    ensures WellFormed(Next(s, step)) && Stocked(Next(s, step))
  {
    if Outcome(s, step).Ok? {
      match step
      case RequestStep(a, user, reason, today) => RequestKeepsStocked(s, a, user, reason, today);
      case AdminStep(a, admin, reason, bypass, today) => AdminKeepsStocked(s, a, admin, reason, bypass, today);
      case ReviewStep(t, approve, over) => ReviewKeepsStocked(s, t, approve, over);
      case RefundedStep(t, actual) => RefundedKeepsStocked(s, t, actual);
    }
  }

  lemma CreateKeepsStocked(s: State, unit: nat, buyer: nat, totalAmount: real, saveDraft: bool)
    requires WellFormed(s) && Stocked(s) && CreateApplication(s, unit, buyer, totalAmount, saveDraft).Ok?
    ensures var t := CreateApplication(s, unit, buyer, totalAmount, saveDraft).value; WellFormed(t) && Stocked(t)
  {
    MoveAgreesIff(s, unit, Reserved, -1, 1, 0);
    var t := CreateApplication(s, unit, buyer, totalAmount, saveDraft).value;
    SameUnitsAgree(MoveUnit(s, unit, Reserved, -1, 1, 0), t);
  }

  lemma FinishKeepsStocked(s: State, a: nat)
    requires WellFormed(s) && Stocked(s) && a < |s.applications| && Holding(s.applications[a].status)
    ensures var t := CompleteApplication(s, a).value; WellFormed(t) && Stocked(t)
  {
    CompleteAgreesIff(s, a);
  }

  /** Refunds and withdrawals touch terminations only. */
  lemma TerminationOnlyKeepsStocked(s: State, step: Step)
    requires WellFormed(s) && Stocked(s) && (step.RefundStep? || step.WithdrawStep?)
    ensures WellFormed(Next(s, step)) && Stocked(Next(s, step))
  {
    StepKeepsWellFormed(s, step);
    SameTablesStocked(s, Next(s, step));
  }

  /** An application that starts holding a unit held it before. */
  lemma ApplicationKeepsStocked(s: State, a: nat, row: Application)
    requires WellFormed(s) && Stocked(s) && a < |s.applications| && row.unit == s.applications[a].unit
    requires Holding(row.status) ==> Holding(s.applications[a].status)
    ensures var t := s.(applications := s.applications[a := row]); WellFormed(t) && Stocked(t)
  {
    SameUnitsAgree(s, s.(applications := s.applications[a := row]));
  }

  lemma OtherStepKeepsStocked(s: State, step: Step)
    requires WellFormed(s) && Stocked(s) && Proper(s, step)
    requires step.MoveStep? || step.SignStep? || step.CancelStep? || step.PayStep?
    ensures WellFormed(Next(s, step)) && Stocked(Next(s, step))
  {
    if Outcome(s, step).Ok? {
      ApplicationKeepsStocked(s, step.application, Next(s, step).applications[step.application]);
    }
  }

  lemma StepKeepsStocked(s: State, step: Step)
    requires WellFormed(s) && Stocked(s) && Proper(s, step)
    ensures WellFormed(Next(s, step)) && Stocked(Next(s, step))
  {
    if MayExecute(step) {
      TerminationStepKeepsStocked(s, step);
    } else {
      match step
      case CreateStep(unit, buyer, totalAmount, saveDraft) =>
        if Outcome(s, step).Ok? {
          CreateKeepsStocked(s, unit, buyer, totalAmount, saveDraft);
        }
      case FinishStep(a) =>
        if a < |s.applications| {
          FinishKeepsStocked(s, a);
        }
      case RefundStep(_) => TerminationOnlyKeepsStocked(s, step);
      case WithdrawStep(_, _) => TerminationOnlyKeepsStocked(s, step);
      case _ => OtherStepKeepsStocked(s, step);
    }
  }

  predicate ProperRun(s: State, steps: seq<Step>)
    requires WellFormed(s)
    decreases |steps|
  {
    steps == [] ||
    (Proper(s, steps[0]) && (StepKeepsWellFormed(s, steps[0]); ProperRun(Next(s, steps[0]), steps[1..])))
  }

  /** In every proper run the counters count the units, and no unit is held by two applications. */
  lemma {:induction false} StockStaysTrue(s: State, steps: seq<Step>)
    requires WellFormed(s) && Stocked(s) && ProperRun(s, steps)
    ensures Stocked(Run(s, steps))
    decreases |steps|
  {
    if steps != [] {
      StepKeepsWellFormed(s, steps[0]);
      StepKeepsStocked(s, steps[0]);
      StockStaysTrue(Next(s, steps[0]), steps[1..]);
    }
  }

  /** One sold unit: its completed application may still be terminated, and the counters then miscount the units. */
  lemma CompletedThenTerminated()
    ensures var s := State([Unit(0, Sold)], [Counters(0, 0, 1)], [Application(0, 7, Completed, None, 1000.0, [])], []);
            var t := Next(s, RequestStep(0, 7, BuyerWithdrawal, 0));
            && WellFormed(s) && Agree(s) && !Agree(t)
            && t.units == [Unit(0, Available)] && t.variants == [Counters(1, -1, 1)]
  {
    var s := State([Unit(0, Sold)], [Counters(0, 0, 1)], [Application(0, 7, Completed, None, 1000.0, [])], []);
    assert Count(s.units, 0, Available, 1) == Count(s.units, 0, Available, 0);
    assert Counted(s.units, 0) == Counters(0, 0, 1);
    NothingPaid([]);
    var t := Next(s, RequestStep(0, 7, BuyerWithdrawal, 0));
    assert t.units == [Unit(0, Available)];
    assert Count(t.units, 0, Sold, 1) == Count(t.units, 0, Sold, 0);
    assert t.variants[0] != Counted(t.units, 0);
  }
}
