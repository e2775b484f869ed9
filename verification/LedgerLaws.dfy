/** What every run of the payment ledger keeps, and what pay-ahead allocates. */
module LedgerLaws {
  import opened Common
  import opened Payments
  import opened Ledger
  import W = PhaseWorkflow

  // ---------------------------------------------------------------- the stored amounts are a cache

  /** The `paidAmount` stored on a row, if there is such a row. */
  function StoredPaid(s: State, key: Key): Option<int> {
    match key
    case InstallmentKey(i) => if i < |s.installments| then Some(s.installments[i].paid) else None
    case PhaseKey(k) => if HasAccount(s, Some(k)) then Some(s.accounts[k].value.paid) else None
  }

  /** The stored amount exceeds the completed payments that name the row by `excess`. */
  predicate ExceedsBy(s: State, key: Key, excess: int) {
    StoredPaid(s, key).Some? ==> StoredPaid(s, key).value == PaidOn(s.payments, key) + excess
  }

  /** The stored amount is the sum of the completed payments that name the row. */
  predicate Cached(s: State, key: Key) {
    ExceedsBy(s, key, 0)
  }

  ghost predicate CacheTrue(s: State) {
    forall key: Key :: Cached(s, key)
  }

  predicate NoNegative(s: State) {
    forall p | 0 <= p < |s.payments| :: s.payments[p].amount >= 0
  }

  ghost predicate Sound(s: State) {
    WellFormed(s) && CacheTrue(s) && NoNegative(s)
  }

  /** No open installment has been paid more than it asks for. */
  predicate NoOverpaid(s: State) {
    forall i | 0 <= i < |s.installments| ::
      Open(s.installments[i]) ==> s.installments[i].paid <= s.installments[i].amount
  }

  lemma CreateKeepsSound(s: State, phase: Option<nat>, installment: Option<nat>, amount: int)
    requires Sound(s) && amount > 0 && Create(s, phase, installment, amount).Ok?
    ensures Sound(Create(s, phase, installment, amount).value)
  {
    var t := Create(s, phase, installment, amount).value;
    var p := t.payments[|s.payments|];
    assert t.payments == s.payments + [p];
    forall key: Key
      ensures Cached(t, key)
    {
      assert Cached(s, key);
      PaidOnAppend(s.payments, p, key);
    }
  }

  /** A payment row changes; the sums it counts in change with it. */
  lemma StatusMovesSums(s: State, p: nat, status: PaymentStatus, key: Key)
    requires p < |s.payments|
    ensures PaidOn(SetStatus(s, p, status).payments, key)
         == PaidOn(s.payments, key) - Share(s.payments[p], key) + Share(s.payments[p].(status := status), key)
  {
    PaidOnUpdate(s.payments, p, s.payments[p].(status := status), key);
  }

  lemma CompleteKeepsCached(s: State, p: nat, key: Key)
    requires WellFormed(s) && p < |s.payments| && s.payments[p].status != Completed && Cached(s, key)
    ensures Cached(Complete(s, p), key)
  {
    assert Linked(s, s.payments[p]);
    StatusMovesSums(s, p, Completed, key);
    assert Complete(s, p).payments == SetStatus(s, p, Completed).payments;
  }

  lemma CompleteKeepsWellFormed(s: State, p: nat)
    requires WellFormed(s) && p < |s.payments|
    ensures WellFormed(Complete(s, p))
  {
    assert Linked(s, s.payments[p]);
    forall q | 0 <= q < |s.payments|
      ensures Linked(Complete(s, p), Complete(s, p).payments[q])
    {
      CompleteKeepsLinked(s, p, q);
    }
  }

  lemma CompleteKeepsLinked(s: State, p: nat, q: nat)
    requires WellFormed(s) && p < |s.payments| && q < |s.payments|
    ensures q < |Complete(s, p).payments| && Linked(Complete(s, p), Complete(s, p).payments[q])
  {
    assert Linked(s, s.payments[p]) && Linked(s, s.payments[q]);
  }

  lemma ProcessKeepsSound(s: State, p: nat, success: bool)
    requires Sound(s) && Process(s, p, success).Ok?
    ensures Sound(Process(s, p, success).value)
  {
    if s.payments[p].status != Completed {
      var t := Process(s, p, success).value;
      if success {
        CompleteKeepsWellFormed(s, p);
      }
      forall key: Key
        ensures Cached(t, key)
      {
        assert Cached(s, key);
        if success {
          CompleteKeepsCached(s, p, key);
        } else {
          StatusMovesSums(s, p, Failed, key);
        }
      }
    }
  }

  /** The `Math.max(0, ...)` clamps of a refund never bite: the row holds at least what is given back. */
  lemma RefundNeverClamps(s: State, p: nat)
    requires Sound(s) && Refund(s, p).Ok?
    ensures var payment := s.payments[p];
            && (payment.installment.Some? ==> s.installments[payment.installment.value].paid >= payment.amount)
            && (HasAccount(s, payment.phase) ==> s.accounts[payment.phase.value].value.paid >= payment.amount)
  {
    var payment := s.payments[p];
    assert Linked(s, payment);
    if payment.installment.Some? {
      assert Cached(s, InstallmentKey(payment.installment.value));
      PaidOnAtLeast(s.payments, p, InstallmentKey(payment.installment.value));
    }
    if payment.phase.Some? {
      assert Cached(s, PhaseKey(payment.phase.value));
      PaidOnAtLeast(s.payments, p, PhaseKey(payment.phase.value));
    }
  }

  /**
   * An accepted refund keeps the stored amount of a row true exactly when the payment does not name the row or
   * the row holds at least what is given back.
   */
  lemma RefundKeepsCachedIff(s: State, p: nat, key: Key)
    requires WellFormed(s) && Refund(s, p).Ok? && Cached(s, key) && StoredPaid(s, key).Some?
    ensures Cached(Refund(s, p).value, key)
       <==> (Names(s.payments[p], key) ==> StoredPaid(s, key).value >= s.payments[p].amount)
  {
    assert Linked(s, s.payments[p]);
    StatusMovesSums(s, p, Refunded, key);
  }

  lemma RefundKeepsSound(s: State, p: nat)
    requires Sound(s) && Refund(s, p).Ok?
    ensures Sound(Refund(s, p).value)
  {
    RefundKeepsWellFormed(s, p);
    RefundNeverClamps(s, p);
    forall key: Key
      ensures Cached(Refund(s, p).value, key)
    {
      assert Cached(s, key);
      RefundKeepsOneCached(s, p, key);
    }
  }

  lemma RefundKeepsOneCached(s: State, p: nat, key: Key)
    requires WellFormed(s) && Refund(s, p).Ok? && Cached(s, key)
    requires Names(s.payments[p], key) && StoredPaid(s, key).Some? ==> StoredPaid(s, key).value >= s.payments[p].amount
    ensures Cached(Refund(s, p).value, key)
  {
    if StoredPaid(s, key).Some? {
      RefundKeepsCachedIff(s, p, key);
    }
  }

  lemma RefundKeepsWellFormed(s: State, p: nat)
    requires WellFormed(s) && Refund(s, p).Ok?
    ensures WellFormed(Refund(s, p).value)
  {
    assert Linked(s, s.payments[p]);
    forall q | 0 <= q < |s.payments|
      ensures Linked(Refund(s, p).value, Refund(s, p).value.payments[q])
    {
      assert Linked(s, s.payments[q]);
    }
  }

  lemma PayRowExplained(w: Progress, i: nat, key: Key, excess: int)
    requires InstallmentsFit(w.state) && i < |w.state.installments| && ExceedsBy(w.state, key, excess)
    ensures ExceedsBy(PayRow(w, i).state, key, excess)
  {
    var s, t := w.state, PayRow(w, i).state;
    if t != s {
      PaidOnAppend(s.payments, t.payments[|s.payments|], key);
      assert t.payments == s.payments + [t.payments[|s.payments|]];
    }
  }

  /** In a pay-ahead every installment and every phase gains exactly the created payments that name it. */
  lemma {:induction false} PayAheadExplainsRows(s: State, amount: int, n: nat, key: Key, excess: int)
    requires InstallmentsFit(s) && n <= |s.installments| && ExceedsBy(s, key, excess)
    ensures ExceedsBy(Walk(s, amount, n).state, key, excess)
  {
    if n > 0 {
      PayAheadExplainsRows(s, amount, n - 1, key, excess);
      PayRowExplained(Walk(s, amount, n - 1), n - 1, key, excess);
    }
  }

  lemma PayRowKeepsWellFormed(w: Progress, i: nat)
    requires WellFormed(w.state) && i < |w.state.installments|
    ensures WellFormed(PayRow(w, i).state)
  {
    var s, t := w.state, PayRow(w, i).state;
    forall p | 0 <= p < |t.payments|
      ensures Linked(t, t.payments[p])
    {
      if p < |s.payments| {
        assert Linked(s, s.payments[p]);
      }
    }
  }

  lemma {:induction false} WalkKeepsWellFormed(s: State, amount: int, n: nat)
    requires WellFormed(s) && n <= |s.installments|
    ensures WellFormed(Walk(s, amount, n).state)
  {
    if n > 0 {
      WalkKeepsWellFormed(s, amount, n - 1);
      PayRowKeepsWellFormed(Walk(s, amount, n - 1), n - 1);
    }
  }

  /** The walk has not yet touched the installments it still has to look at. */
  lemma {:induction false} WalkAhead(s: State, amount: int, n: nat)
    requires InstallmentsFit(s) && n <= |s.installments|
    ensures Walk(s, amount, n).state.installments[n..] == s.installments[n..]
  {
    if n > 0 {
      WalkAhead(s, amount, n - 1);
      var w := Walk(s, amount, n - 1);
      assert w.state.installments[n..] == w.state.installments[n - 1..][1..];
      assert s.installments[n..] == s.installments[n - 1..][1..];
      assert PayRow(w, n - 1).state.installments[n..] == w.state.installments[n..];
    }
  }

  lemma RowAhead(s: State, amount: int, n: nat)
    requires InstallmentsFit(s) && n < |s.installments|
    ensures Walk(s, amount, n).state.installments[n] == s.installments[n]
  {
    WalkAhead(s, amount, n);
    assert Walk(s, amount, n).state.installments[n..][0] == s.installments[n..][0];
  }

  lemma {:induction false} WalkKeepsNoNegative(s: State, amount: int, n: nat)
    requires InstallmentsFit(s) && n <= |s.installments| && NoNegative(s)
    requires forall i | 0 <= i < n :: Open(s.installments[i]) ==> s.installments[i].paid <= s.installments[i].amount
    ensures NoNegative(Walk(s, amount, n).state)
  {
    if n > 0 {
      WalkKeepsNoNegative(s, amount, n - 1);
      RowAhead(s, amount, n - 1);
    }
  }

  lemma AdjustKeepsSound(s: State, a: Adjustment)
    requires Sound(s) && Adjust(s, a).Ok?
    ensures Sound(Adjust(s, a).value)
  {
    forall key: Key
      ensures Cached(Adjust(s, a).value, key)
    {
      assert Cached(s, key);
    }
  }

  /** Completing a phase by hand keeps the stored amounts true exactly when its total has been paid to the kobo. */
  lemma FinishKeepsCacheIff(s: State, k: nat)
    requires WellFormed(s) && CacheTrue(s) && FinishByHand(s, k).Ok?
    ensures CacheTrue(FinishByHand(s, k).value) <==> PaidInFull(s, k)
  {
    var t := FinishByHand(s, k).value;
    if PaidInFull(s, k) {
      forall key: Key
        ensures Cached(t, key)
      {
        assert Cached(s, key);
      }
    } else {
      assert Cached(s, PhaseKey(k));
      assert !Cached(t, PhaseKey(k));
    }
  }

  predicate PaidInFull(s: State, k: nat) {
    HasAccount(s, Some(k)) ==> s.accounts[k].value.paid == s.accounts[k].value.total
  }

  datatype Op =
    | CreateOp(phase: Option<nat>, installment: Option<nat>, amount: int)
    | ProcessOp(payment: nat, success: bool)
    | RefundOp(payment: nat)
    | PayAheadOp(amount: int)
    | AdjustOp(adjustment: Adjustment)
    | FinishOp(finished: nat)

  /** One service call; a refused call leaves the ledger as it was. */
  function Apply(s: State, op: Op): State
    requires WellFormed(s)
  {
    var outcome := match op
      case CreateOp(phase, installment, amount) => Create(s, phase, installment, amount)
      case ProcessOp(p, success) => Process(s, p, success)
      case RefundOp(p) => Refund(s, p)
      case PayAheadOp(amount) => if AnyOpen(s) then Ok(PayAhead(s, amount).value.state) else Err(BadRequest)
      case AdjustOp(a) => Adjust(s, a)
      case FinishOp(k) => FinishByHand(s, k);
    if outcome.Ok? then outcome.value else s
  }

  /**
   * Amounts are positive, money is paid ahead only while no open installment is overpaid, and a phase is
   * completed by hand only when its total has been paid.
   */
  predicate Admissible(s: State, op: Op) {
    match op
    case CreateOp(_, _, amount) => amount > 0
    case AdjustOp(a) => a.amount > 0
    case PayAheadOp(_) => NoOverpaid(s)
    case FinishOp(k) => PaidInFull(s, k)
    case _ => true
  }

  /** The rows a payment names hold at least its amount, as far as they exist. */
  predicate CanGiveBack(s: State, p: nat)
    requires p < |s.payments|
  {
    var payment := s.payments[p];
    && (payment.installment.Some? && payment.installment.value < |s.installments| ==>
          s.installments[payment.installment.value].paid >= payment.amount)
    && (HasAccount(s, payment.phase) ==> s.accounts[payment.phase.value].value.paid >= payment.amount)
  }

  /** A call that would store an amount the payments do not explain. */
  predicate BreaksCache(s: State, op: Op)
    requires WellFormed(s)
  {
    match op
    case RefundOp(p) => Refund(s, p).Ok? && !CanGiveBack(s, p)
    case FinishOp(k) => FinishByHand(s, k).Ok? && !PaidInFull(s, k)
    case _ => false
  }

  lemma RefundKeepsCacheIff(s: State, p: nat)
    requires WellFormed(s) && CacheTrue(s) && Refund(s, p).Ok?
    ensures CacheTrue(Refund(s, p).value) <==> CanGiveBack(s, p)
  {
    var payment, t := s.payments[p], Refund(s, p).value;
    assert Linked(s, payment);
    if CanGiveBack(s, p) {
      forall key: Key
        ensures Cached(t, key)
      {
        assert Cached(s, key);
        RefundKeepsOneCached(s, p, key);
      }
    } else {
      var key := if HasAccount(s, payment.phase) && s.accounts[payment.phase.value].value.paid < payment.amount
                 then PhaseKey(payment.phase.value) else InstallmentKey(payment.installment.value);
      assert Cached(s, key);
      RefundKeepsCachedIff(s, p, key);
      assert !Cached(t, key);
    }
  }

  lemma StepKeepsCached(s: State, op: Op, key: Key)
    requires WellFormed(s) && Cached(s, key) && !op.RefundOp? && !op.FinishOp?
    ensures Cached(Apply(s, op), key)
  {
    match op
    case CreateOp(phase, installment, amount) =>
      if Create(s, phase, installment, amount).Ok? {
        var t := Create(s, phase, installment, amount).value;
        assert t.payments == s.payments + [t.payments[|s.payments|]];
        PaidOnAppend(s.payments, t.payments[|s.payments|], key);
      }
    case ProcessOp(p, success) =>
      if Process(s, p, success).Ok? && s.payments[p].status != Completed {
        if success {
          CompleteKeepsCached(s, p, key);
        } else {
          StatusMovesSums(s, p, Failed, key);
        }
      }
    case PayAheadOp(amount) => PayAheadExplainsRows(s, amount, |s.installments|, key, 0);
    case AdjustOp(_) =>
  }

  /**
   * For every call whatsoever: if all stored amounts are the sums of the completed payments before it, they are
   * afterwards exactly when it is not a refund of more than a row holds, nor a completion by hand short of the total.
   */
  lemma StepKeepsCacheIff(s: State, op: Op)
    requires WellFormed(s) && CacheTrue(s)
    ensures CacheTrue(Apply(s, op)) <==> !BreaksCache(s, op)
  {
    match op
    case RefundOp(p) =>
      if Refund(s, p).Ok? {
        RefundKeepsCacheIff(s, p);
      }
    case FinishOp(k) =>
      if FinishByHand(s, k).Ok? {
        FinishKeepsCacheIff(s, k);
      }
    case _ =>
      forall key: Key
        ensures Cached(Apply(s, op), key)
      {
        assert Cached(s, key);
        StepKeepsCached(s, op, key);
      }
  }

  lemma StepKeepsSound(s: State, op: Op)
    requires Sound(s) && Admissible(s, op)
    ensures Sound(Apply(s, op))
  {
    match op
    case CreateOp(phase, installment, amount) =>
      if Create(s, phase, installment, amount).Ok? {
        CreateKeepsSound(s, phase, installment, amount);
      }
    case ProcessOp(p, success) =>
      if Process(s, p, success).Ok? {
        ProcessKeepsSound(s, p, success);
      }
    case RefundOp(p) =>
      if Refund(s, p).Ok? {
        RefundKeepsSound(s, p);
      }
    case PayAheadOp(amount) =>
      if AnyOpen(s) {
        forall key: Key
          ensures Cached(Walk(s, amount, |s.installments|).state, key)
        {
          assert Cached(s, key);
          PayAheadExplainsRows(s, amount, |s.installments|, key, 0);
        }
        WalkKeepsNoNegative(s, amount, |s.installments|);
        WalkKeepsWellFormed(s, amount, |s.installments|);
      }
    case AdjustOp(a) =>
      if Adjust(s, a).Ok? {
        AdjustKeepsSound(s, a);
      }
    case FinishOp(k) =>
      if FinishByHand(s, k).Ok? {
        FinishKeepsCacheIff(s, k);
      }
  }

  lemma StepKeepsWellFormed(s: State, op: Op)
    requires WellFormed(s)
    ensures WellFormed(Apply(s, op))
  {
    match op
    case ProcessOp(p, success) =>
      if Process(s, p, success).Ok? && s.payments[p].status != Completed && success {
        CompleteKeepsWellFormed(s, p);
      }
    case RefundOp(p) =>
      if Refund(s, p).Ok? {
        RefundKeepsWellFormed(s, p);
      }
    case PayAheadOp(amount) =>
      WalkKeepsWellFormed(s, amount, |s.installments|);
    case _ =>
  }

  /** The ledger after a series of service calls. */
  function Run(s: State, ops: seq<Op>): State
    requires WellFormed(s)
    decreases |ops|
  {
    if ops == [] then s
    else
      StepKeepsWellFormed(s, ops[0]);
      Run(Apply(s, ops[0]), ops[1..])
  }

  predicate AdmissibleRun(s: State, ops: seq<Op>)
    requires WellFormed(s)
    decreases |ops|
  {
    ops == [] ||
    (Admissible(s, ops[0]) && (StepKeepsWellFormed(s, ops[0]); AdmissibleRun(Apply(s, ops[0]), ops[1..])))
  }

  /**
   * Over every run, each installment's and each phase's paid amount is the sum of the completed payments that
   * name it, however often a payment was processed or refunded.
   */
  lemma {:induction false} PaidAmountsAreCaches(s: State, ops: seq<Op>)
    requires Sound(s) && AdmissibleRun(s, ops)
    ensures Sound(Run(s, ops))
    decreases |ops|
  {
    if ops != [] {
      StepKeepsSound(s, ops[0]);
      PaidAmountsAreCaches(Apply(s, ops[0]), ops[1..]);
    }
  }

  predicate Settled(s: State, p: nat) {
    p < |s.payments| && s.payments[p].status !in {Initiated, Pending}
  }

  lemma StepKeepsSettled(s: State, op: Op, p: nat)
    requires WellFormed(s) && Settled(s, p)
    ensures Settled(Apply(s, op), p)
    ensures op.ProcessOp? && op.payment == p ==> Apply(s, op) == s
  {
    if op.PayAheadOp? {
      WalkKeepsPayments(s, op.amount, |s.installments|);
    }
  }

  lemma {:induction false} WalkKeepsPayments(s: State, amount: int, n: nat)
    requires InstallmentsFit(s) && n <= |s.installments|
    ensures s.payments <= Walk(s, amount, n).state.payments
  {
    if n > 0 {
      WalkKeepsPayments(s, amount, n - 1);
    }
  }

  /** Once a payment has been processed, no later notification for it changes anything, whatever happened in between. */
  lemma {:induction false} ProcessedOnce(s: State, p: nat, ops: seq<Op>, success: bool)
    requires WellFormed(s) && Settled(s, p)
    ensures WellFormed(Run(s, ops)) && Settled(Run(s, ops), p)
    ensures Apply(Run(s, ops), ProcessOp(p, success)) == Run(s, ops)
    decreases |ops|
  {
    if ops == [] {
      StepKeepsSettled(s, ProcessOp(p, success), p);
    } else {
      StepKeepsWellFormed(s, ops[0]);
      StepKeepsSettled(s, ops[0], p);
      ProcessedOnce(Apply(s, ops[0]), p, ops[1..], success);
    }
  }

  lemma ProcessingSettles(s: State, p: nat, success: bool)
    requires WellFormed(s) && Process(s, p, success).Ok?
    ensures Settled(Process(s, p, success).value, p)
  {}

  /** A ledger nobody has paid into yet is sound. */
  lemma FreshLedgerSound(s: State)
    requires WellFormed(s) && s.payments == []
    requires forall i | 0 <= i < |s.installments| :: s.installments[i].paid == 0
    requires forall k | 0 <= k < |s.accounts| :: s.accounts[k].Some? ==> s.accounts[k].value.paid == 0
    ensures Sound(s)
  {
    forall key: Key
      ensures Cached(s, key)
    {}
  }

  // ---------------------------------------------------------------- why overpaid installments matter

  /** One installment of 100, paid 10 and 120: 130 in all. */
  function Overpaid(): State {
    State([Payment(Some(0), None, 10, Completed), Payment(Some(0), None, 120, Completed)],
          [Installment(0, 100, 30, 130, Paid, 2)], [Some(Account(100, 0, 0, true))], W.Board([W.Active], Some(0)), [])
  }

  function OnceRefunded(): State {
    Apply(Overpaid(), RefundOp(0))
  }

  function Ahead(): State {
    Apply(OnceRefunded(), PayAheadOp(1))
  }

  lemma OverpaidIsSound()
    ensures Sound(Overpaid())
  {
    forall key: Key
      ensures Cached(Overpaid(), key)
    {
      TwoPayments(Overpaid().payments, key);
    }
  }

  /** Refunding the 10 leaves 120 of 100, but PARTIALLY_PAID. */
  lemma RefundLeavesOverpaid()
    ensures WellFormed(OnceRefunded())
    ensures OnceRefunded().installments == [Installment(0, 100, 30, 120, PartiallyPaid, 2)]
    ensures OnceRefunded().payments == [Payment(Some(0), None, 10, Refunded), Payment(Some(0), None, 120, Completed)]
    ensures OnceRefunded().accounts == [Some(Account(100, 0, 0, true))]
  {}

  lemma OverpaidRowTakesBack(s: State)
    requires WellFormed(s) && s.installments == [Installment(0, 100, 30, 120, PartiallyPaid, 2)]
    ensures Apply(s, PayAheadOp(1)).payments == s.payments + [Payment(Some(0), Some(0), -20, Completed)]
    ensures Apply(s, PayAheadOp(1)).installments == [Installment(0, 100, 30, 100, Paid, 2)]
  {
    assert Open(s.installments[0]);
    assert Walk(s, 1, 1) == PayRow(Walk(s, 1, 0), 0);
  }

  lemma ClampBites(s: State)
    requires WellFormed(s) && s.installments == [Installment(0, 100, 30, 100, Paid, 2)]
    requires s.payments == [Payment(Some(0), None, 10, Refunded), Payment(Some(0), None, 120, Completed),
                            Payment(Some(0), Some(0), -20, Completed)]
    ensures var clamped := Apply(s, RefundOp(1));
            clamped.installments[0].paid == 0 && PaidOn(clamped.payments, InstallmentKey(0)) == -20
  {
    var clamped := Apply(s, RefundOp(1));
    PaidOnAppend(clamped.payments[..2], clamped.payments[2], InstallmentKey(0));
    assert clamped.payments == clamped.payments[..2] + [clamped.payments[2]];
    TwoPayments(clamped.payments[..2], InstallmentKey(0));
  }

  /**
   * Refunding the 10 leaves 120 of 100, but PARTIALLY_PAID; paying 1 ahead then creates a payment of -20, and
   * refunding the 120 meets the clamp: 0 is stored although the completed payments sum to -20.
   */
  lemma OverpaidRefundClamps()
    ensures Sound(Overpaid()) && !Admissible(OnceRefunded(), PayAheadOp(1))
    ensures |Ahead().payments| == 3 && Ahead().payments[2].amount == -20
    ensures var clamped := Apply(Ahead(), RefundOp(1));
            |clamped.installments| == 1 && clamped.installments[0].paid == 0
            && PaidOn(clamped.payments, InstallmentKey(0)) == -20
  {
    OverpaidIsSound();
    RefundLeavesOverpaid();
    OverpaidRowTakesBack(OnceRefunded());
    ClampBites(Ahead());
  }

  lemma TwoPayments(payments: seq<Payment>, key: Key)
    requires |payments| == 2
    ensures PaidOn(payments, key) == Share(payments[0], key) + Share(payments[1], key)
  {
    assert payments[..1][..0] == [];
    assert PaidOn(payments[..1], key) == PaidOn(payments[..1][..0], key) + Share(payments[0], key);
  }
}
