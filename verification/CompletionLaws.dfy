/** When the status of a payment phase agrees with its amounts, and which calls keep it so. */
module CompletionLaws {
  import opened Common
  import opened Payments
  import opened Ledger
  import opened LedgerLaws
  import opened PayAheadLaws
  import W = PhaseWorkflow

  /** A payment phase with something to pay. */
  predicate Payable(s: State, k: nat) {
    k < |s.accounts| && s.accounts[k].Some? && s.accounts[k].value.total > 0
  }

  /** A payable phase is COMPLETED exactly when payments and adjustments have reached its total. */
  predicate Tracks(s: State)
    requires |s.accounts| == |s.board.statuses|
  {
    forall k | 0 <= k < |s.accounts| :: Payable(s, k) ==> (s.board.statuses[k] == W.Completed <==> Reached(s, k))
  }

  lemma AdjustmentAppended(adjustments: seq<Adjustment>, a: Adjustment, k: nat)
    ensures AdjustmentTotal(adjustments + [a], k)
         == AdjustmentTotal(adjustments, k)
            + if a.phase != Some(k) || a.status !in {Applied, Approved} then 0
              else if a.direction == Reduction then a.amount else -a.amount
  {
    assert (adjustments + [a])[..|adjustments|] == adjustments;
  }

  /** Completing this payment pays its phase off. */
  predicate PaysOff(s: State, p: nat)
    requires p < |s.payments|
  {
    var payment := s.payments[p];
    && HasAccount(s, payment.phase)
    && var k := payment.phase.value;
       s.accounts[k].value.paid + payment.amount + AdjustmentTotal(s.adjustments, k) >= s.accounts[k].value.total
  }

  /** The phase a paying-off payment starts is itself payable and already paid. */
  predicate RestartsPaidPhase(s: State, p: nat)
    requires p < |s.payments|
  {
    PaysOff(s, p) && Payable(s, s.payments[p].phase.value + 1) && Reached(s, s.payments[p].phase.value + 1)
  }

  lemma ReachedAfter(s: State, p: nat, k: nat)
    requires WellFormed(s) && p < |s.payments| && k < |s.accounts|
    ensures var t := Complete(s, p);
            && |t.accounts| == |s.accounts| == |t.board.statuses| && Payable(t, k) == Payable(s, k)
            && (s.payments[p].phase == Some(k) ==> Reached(t, k) == PaysOff(s, p))
            && (s.payments[p].phase != Some(k) ==> Reached(t, k) == Reached(s, k))
            && t.board.statuses == if PaysOff(s, p) then W.Advance(s.board, s.payments[p].phase.value).statuses
                                   else s.board.statuses
  {}

  /**
   * Completing a payment keeps statuses and amounts in agreement exactly when it does not pay a phase off in
   * front of one that is already paid: that one is put back to IN_PROGRESS.
   */
  lemma CompletionTracksIff(s: State, p: nat)
    requires WellFormed(s) && Tracks(s) && p < |s.payments| && s.payments[p].amount >= 0
    ensures WellFormed(Complete(s, p))
    ensures Tracks(Complete(s, p)) <==> !RestartsPaidPhase(s, p)
  {
    var t := Complete(s, p);
    CompleteKeepsWellFormed(s, p);
    if RestartsPaidPhase(s, p) {
      ReachedAfter(s, p, s.payments[p].phase.value + 1);
      assert Payable(t, s.payments[p].phase.value + 1);
    } else {
      forall k | 0 <= k < |t.accounts| && Payable(t, k)
        ensures t.board.statuses[k] == W.Completed <==> Reached(t, k)
      {
        ReachedAfter(s, p, k);
        assert Payable(s, k);
      }
    }
  }

  /** The adjustment takes a paid phase back below its total; only an addition can. */
  predicate Unreaches(s: State, a: Adjustment) {
    && HasAccount(s, a.phase) && Payable(s, a.phase.value) && Reached(s, a.phase.value)
    && a.direction == Addition
    && var k := a.phase.value;
       s.accounts[k].value.paid + AdjustmentTotal(s.adjustments, k) - a.amount < s.accounts[k].value.total
  }

  lemma ReachedAdjusted(s: State, a: Adjustment, k: nat)
    requires WellFormed(s) && Adjust(s, a).Ok?
    ensures var t := Adjust(s, a).value;
            && t.accounts == s.accounts && |t.board.statuses| == |s.board.statuses|
            && (a.phase != Some(k) ==> Reached(t, k) == Reached(s, k))
            && (a.phase == Some(k) && HasAccount(s, a.phase) ==>
                  Reached(t, k) == (s.accounts[k].value.paid + AdjustmentTotal(s.adjustments, k)
                                    + (if a.direction == Reduction then a.amount else -a.amount)
                                    >= s.accounts[k].value.total))
  {
    AdjustmentAppended(s.adjustments, a.(status := Applied), k);
  }

  /** An adjustment keeps them in agreement exactly when it does not undo a phase that was reached. */
  lemma AdjustmentTracksIff(s: State, a: Adjustment)
    requires WellFormed(s) && Tracks(s) && a.amount > 0 && Adjust(s, a).Ok?
    ensures |Adjust(s, a).value.accounts| == |Adjust(s, a).value.board.statuses|
    ensures Tracks(Adjust(s, a).value) <==> !Unreaches(s, a)
  {
    var t := Adjust(s, a).value;
    if Unreaches(s, a) {
      ReachedAdjusted(s, a, a.phase.value);
      assert Payable(t, a.phase.value) && Payable(s, a.phase.value);
    } else {
      forall k | 0 <= k < |t.accounts| && Payable(t, k)
        ensures t.board.statuses[k] == W.Completed <==> Reached(t, k)
      {
        ReachedAdjusted(s, a, k);
        assert Payable(s, k);
      }
    }
  }

  lemma SameAmountsTrack(s: State, t: State)
    requires |s.accounts| == |s.board.statuses| && Tracks(s)
    requires t.accounts == s.accounts && t.board == s.board && t.adjustments == s.adjustments
    ensures Tracks(t)
  {
    forall k | 0 <= k < |t.accounts| && Payable(t, k)
      ensures t.board.statuses[k] == W.Completed <==> Reached(t, k)
    {
      assert Payable(s, k);
    }
  }

  lemma OnePhaseTracks(s: State, t: State, k: nat)
    requires |s.accounts| == |s.board.statuses| == |t.accounts| == |t.board.statuses| && Tracks(s) && k < |s.accounts|
    requires t.board == s.board && t.adjustments == s.adjustments && Payable(t, k) == Payable(s, k)
    requires forall j | 0 <= j < |s.accounts| && j != k :: t.accounts[j] == s.accounts[j]
    ensures Tracks(t) <==> (Payable(s, k) ==> Reached(t, k) == Reached(s, k))
  {
    forall j | 0 <= j < |t.accounts| && j != k && Payable(t, j)
      ensures t.board.statuses[j] == W.Completed <==> Reached(t, j)
    {
      assert Payable(s, j);
    }
  }

  /** The refund takes a phase that was reached back below its total. */
  predicate RefundUnreaches(s: State, p: nat)
    requires p < |s.payments|
  {
    var payment := s.payments[p];
    && HasAccount(s, payment.phase) && Payable(s, payment.phase.value) && Reached(s, payment.phase.value)
    && var account := s.accounts[payment.phase.value].value;
       account.paid - payment.amount + AdjustmentTotal(s.adjustments, payment.phase.value) < account.total
  }

  /** A refund keeps them in agreement exactly when it does not undo a phase that was reached. */
  lemma RefundTracksIff(s: State, p: nat)
    requires Sound(s) && Tracks(s) && Refund(s, p).Ok?
    ensures |Refund(s, p).value.accounts| == |Refund(s, p).value.board.statuses|
    ensures Tracks(Refund(s, p).value) <==> !RefundUnreaches(s, p)
  {
    var payment, t := s.payments[p], Refund(s, p).value;
    RefundNeverClamps(s, p);
    if HasAccount(s, payment.phase) {
      OnePhaseTracks(s, t, payment.phase.value);
    } else {
      SameAmountsTrack(s, t);
    }
  }

  /** What a pay-ahead of `amount` brings to installment `i`: the rest after all due before, up to what it is owed. */
  function Brought(rows: seq<Installment>, amount: int, i: nat): int
    requires i < |rows|
  {
    Max(0, Min(amount - OwedBefore(rows, i), Owed(rows[i])))
  }

  /** What it brings to the first `n` installments of a phase. */
  function Ahead(rows: seq<Installment>, amount: int, k: nat, n: nat): (brought: int)
    requires n <= |rows|
    ensures brought >= 0
  {
    if n == 0 then 0
    else Ahead(rows, amount, k, n - 1) + if rows[n - 1].phase == k then Brought(rows, amount, n - 1) else 0
  }

  /** The pay-ahead settles a phase, which it leaves in its status all the same. */
  predicate SettlesAhead(s: State, amount: int, k: nat) {
    && Payable(s, k) && !Reached(s, k)
    && s.accounts[k].value.paid + Ahead(s.installments, amount, k, |s.installments|) + AdjustmentTotal(s.adjustments, k)
       >= s.accounts[k].value.total
  }

  lemma {:induction false} NothingLeft(rows: seq<Installment>, amount: int, n: nat)
    requires n <= |rows| && amount < 0
    ensures Left(rows, amount, n) == amount
  {
    if n > 0 {
      NothingLeft(rows, amount, n - 1);
    }
  }

  lemma RowGetsBrought(rows: seq<Installment>, amount: int, i: nat)
    requires NoneOverpaid(rows, |rows|) && i < |rows|
    ensures RowAfter(rows[i], Left(rows, amount, i)).paid - rows[i].paid == Brought(rows, amount, i)
  {
    OwedMonotone(rows, 0, i);
    if amount >= 0 {
      LeftAfterDue(rows, amount, i);
    } else {
      NothingLeft(rows, amount, i);
    }
  }

  /** The installments of a phase gain exactly what is brought to them. */
  lemma {:induction false} PhaseGainsBrought(rows: seq<Installment>, amount: int, k: nat, n: nat)
    requires NoneOverpaid(rows, |rows|) && n <= |rows|
    ensures PhasePaid(RowsAfter(rows, amount, |rows|), k, n) - PhasePaid(rows, k, n) == Ahead(rows, amount, k, n)
  {
    if n > 0 {
      PhaseGainsBrought(rows, amount, k, n - 1);
      RowsAfterAt(rows, amount, |rows|, n - 1);
      RowGetsBrought(rows, amount, n - 1);
    }
  }

  /** When one phase owns all installments, it gets the amount or all that is owed, whichever is less. */
  lemma {:induction false} OnlyPhaseGetsAll(rows: seq<Installment>, amount: int, k: nat, n: nat)
    requires n <= |rows| && NoneOverpaid(rows, n) && amount >= 0
    requires forall i | 0 <= i < n :: rows[i].phase == k
    ensures Ahead(rows, amount, k, n) == Min(amount, OwedBefore(rows, n))
  {
    if n > 0 {
      OnlyPhaseGetsAll(rows, amount, k, n - 1);
    }
  }

  lemma AheadAccount(s: State, amount: int, k: nat)
    requires InstallmentsFit(s) && NoOverpaid(s) && AnyOpen(s) && k < |s.accounts|
    ensures var t := PayAhead(s, amount).value.state;
            && |t.accounts| == |s.accounts| && t.board == s.board && t.adjustments == s.adjustments
            && t.accounts[k] == Moved(s.accounts[k], Ahead(s.installments, amount, k, |s.installments|))
  {
    var n := |s.installments|;
    OpenOwed(s);
    WholeWalkOnRows(s, amount, n);
    AccountsFollowInstallments(s, amount, n, k);
    PayAheadCompletesNothing(s, amount, n);
    PhaseGainsBrought(s.installments, amount, k, n);
  }

  /** Pay-ahead keeps them in agreement exactly when it settles no phase. */
  lemma PayAheadTracksIff(s: State, amount: int)
    requires WellFormed(s) && Tracks(s) && NoOverpaid(s) && AnyOpen(s)
    ensures var t := PayAhead(s, amount).value.state;
            && |t.accounts| == |t.board.statuses|
            && (Tracks(t) <==> !exists k | 0 <= k < |s.accounts| :: SettlesAhead(s, amount, k))
  {
    var t := PayAhead(s, amount).value.state;
    SameAccountCount(s, amount, |s.installments|);
    PayAheadCompletesNothing(s, amount, |s.installments|);
    forall k | 0 <= k < |s.accounts|
      ensures Payable(t, k) == Payable(s, k)
      ensures Payable(s, k) ==>
                ((t.board.statuses[k] == W.Completed <==> Reached(t, k)) <==> !SettlesAhead(s, amount, k))
    {
      AheadAccount(s, amount, k);
    }
  }

  /** Completing a phase by hand, fully paid, keeps them in agreement unless additions still hold its total open. */
  lemma FinishTracksIff(s: State, k: nat)
    requires WellFormed(s) && Tracks(s) && FinishByHand(s, k).Ok? && PaidInFull(s, k)
    ensures |FinishByHand(s, k).value.accounts| == |FinishByHand(s, k).value.board.statuses|
    ensures Tracks(FinishByHand(s, k).value) <==> (Payable(s, k) ==> AdjustmentTotal(s.adjustments, k) >= 0)
  {
    var t := FinishByHand(s, k).value;
    assert t.accounts == s.accounts;
    forall j | 0 <= j < |t.accounts| && j != k && Payable(t, j)
      ensures t.board.statuses[j] == W.Completed <==> Reached(t, j)
    {
      assert Payable(s, j);
    }
    assert Payable(t, k) == Payable(s, k);
  }

  /** The calls after which status and amounts disagree, told from the state before. */
  predicate Crosses(s: State, op: Op)
    requires WellFormed(s)
  {
    match op
    case CreateOp(_, _, _) => false
    case ProcessOp(p, success) =>
      success && p < |s.payments| && s.payments[p].status in {Initiated, Pending} && RestartsPaidPhase(s, p)
    case RefundOp(p) => Refund(s, p).Ok? && RefundUnreaches(s, p)
    case PayAheadOp(amount) => AnyOpen(s) && exists k | 0 <= k < |s.accounts| :: SettlesAhead(s, amount, k)
    case AdjustOp(a) => Adjust(s, a).Ok? && Unreaches(s, a)
    case FinishOp(k) => FinishByHand(s, k).Ok? && Payable(s, k) && AdjustmentTotal(s.adjustments, k) < 0
  }

  /** For every call: status and amounts still agree after it exactly when it is not one of the five crossings. */
  lemma StepTracksIff(s: State, op: Op)
    requires Sound(s) && Tracks(s) && Admissible(s, op)
    ensures WellFormed(Apply(s, op))
    ensures Tracks(Apply(s, op)) <==> !Crosses(s, op)
  {
    StepKeepsWellFormed(s, op);
    match op
    case CreateOp(_, _, _) =>
      SameAmountsTrack(s, Apply(s, op));
    case ProcessOp(p, success) =>
      if Process(s, p, success).Ok? && s.payments[p].status != Completed && success {
        CompletionTracksIff(s, p);
      } else {
        SameAmountsTrack(s, Apply(s, op));
      }
    case RefundOp(p) =>
      if Refund(s, p).Ok? {
        RefundTracksIff(s, p);
      }
    case PayAheadOp(amount) =>
      if AnyOpen(s) {
        PayAheadTracksIff(s, amount);
      }
    case AdjustOp(a) =>
      if Adjust(s, a).Ok? {
        AdjustmentTracksIff(s, a);
      }
    case FinishOp(k) =>
      if FinishByHand(s, k).Ok? {
        FinishTracksIff(s, k);
      }
  }

  predicate TrackingRun(s: State, ops: seq<Op>)
    requires WellFormed(s)
    decreases |ops|
  {
    ops == [] ||
    (Admissible(s, ops[0]) && !Crosses(s, ops[0])
     && (StepKeepsWellFormed(s, ops[0]); TrackingRun(Apply(s, ops[0]), ops[1..])))
  }

  /**
   * In every admissible run without a crossing, of all kinds of calls, the status of every payable phase says
   * whether its total is reached, whichever service got it there.
   */
  lemma {:induction false} StatusTracksAmounts(s: State, ops: seq<Op>)
    requires Sound(s) && Tracks(s) && TrackingRun(s, ops)
    ensures WellFormed(Run(s, ops)) && Tracks(Run(s, ops))
    decreases |ops|
  {
    if ops != [] {
      StepKeepsSound(s, ops[0]);
      StepTracksIff(s, ops[0]);
      StatusTracksAmounts(Apply(s, ops[0]), ops[1..]);
    }
  }

  /** Pay-ahead never touches the board: a phase it pays off stays as it was. */
  lemma {:induction false} PayAheadCompletesNothing(s: State, amount: int, n: nat)
    requires InstallmentsFit(s) && n <= |s.installments|
    ensures Walk(s, amount, n).state.board == s.board && Walk(s, amount, n).state.adjustments == s.adjustments
  {
    if n > 0 {
      PayAheadCompletesNothing(s, amount, n - 1);
    }
  }

  /** Two phases of 100, the second already paid and COMPLETED; paying off the first restarts the second. */
  lemma PaidPhaseRestarted()
    ensures var s := State([Payment(None, Some(0), 100, Pending)], [],
                           [Some(Account(100, 0, 0, true)), Some(Account(100, 100, 1, true))],
                           W.Board([W.Active, W.Completed], Some(0)), []);
            WellFormed(s) && Tracks(s) && !Tracks(Complete(s, 0))
            && Complete(s, 0).board == W.Board([W.Completed, W.InProgress], Some(1))
  {
    var s := State([Payment(None, Some(0), 100, Pending)], [],
                   [Some(Account(100, 0, 0, true)), Some(Account(100, 100, 1, true))],
                   W.Board([W.Active, W.Completed], Some(0)), []);
    assert RestartsPaidPhase(s, 0);
    CompletionTracksIff(s, 0);
  }
}
