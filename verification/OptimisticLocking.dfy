/**
 * Any number of concurrent `completePayment` transactions over shared installment and phase rows.
 *
 * A call first looks at the payment outside its transaction. Inside, it marks the payment, reads the
 * installment and the phase, and writes each back only if the stored version is the one it read. A write
 * keeps its row locked until the transaction ends and becomes visible only at the commit; a version that
 * moved rolls everything back. Reads may happen at any moment before the matching write, which covers
 * both "read committed" and "repeatable read".
 */
module OptimisticLocking {
  import opened Common
  import opened Payments

  /** A versioned row: `due` is the installment's amount, or the phase's total less its adjustments. */
  datatype Row = Row(due: int, paid: int, settled: bool, version: nat)

  /** `Ready` and `Checked` are outside the transaction, `Open` is inside it. */
  datatype Stage = Ready | Checked | Open | Committed | Aborted | Refused

  datatype Call = Call(payment: nat, stage: Stage, read: map<Key, Row>, locked: set<Key>)

  datatype State = State(payments: seq<Payment>, rows: map<Key, Row>, calls: seq<Call>)

  datatype Step =
    | Check(call: nat)
    | Begin(call: nat)
    | Read(call: nat, key: Key)
    | Write(call: nat, key: Key)
    | Commit(call: nat)
    | RollBack(call: nat)

  predicate WellFormed(s: State) {
    forall i | 0 <= i < |s.calls| :: s.calls[i].payment < |s.payments|
  }

  function PaymentOf(s: State, i: nat): Payment
    requires WellFormed(s) && i < |s.calls|
  {
    s.payments[s.calls[i].payment]
  }

  /** The rows a call has to write: those its payment names, if they exist. */
  predicate Target(s: State, i: nat, key: Key)
    requires WellFormed(s) && i < |s.calls|
  {
    key in s.rows && Names(PaymentOf(s, i), key)
  }

  /** An installment's status is rewritten by every payment; a phase is only ever marked completed. */
  function Credit(key: Key, row: Row, amount: int): Row {
    var paid := row.paid + amount;
    Row(row.due, paid, paid >= row.due || (key.PhaseKey? && row.settled), row.version + 1)
  }

  predicate LockedByOther(s: State, i: nat, key: Key) {
    exists j | 0 <= j < |s.calls| :: j != i && s.calls[j].stage == Open && key in s.calls[j].locked
  }

  predicate MarkedByOther(s: State, i: nat)
    requires i < |s.calls|
  {
    exists j | 0 <= j < |s.calls| ::
      j != i && s.calls[j].stage == Open && s.calls[j].payment == s.calls[i].payment
  }

  function SetCall(s: State, i: nat, c: Call): State
    requires i < |s.calls|
  {
    s.(calls := s.calls[i := c])
  }

  /** One step of one call; a step that is not enabled changes nothing. */
  function Next(s: State, step: Step): (t: State)
    requires WellFormed(s)
    ensures WellFormed(t) && |t.calls| == |s.calls| && |t.payments| == |s.payments|
  {
    var i := step.call;
    if i >= |s.calls| then s
    else
      var c := s.calls[i];
      match step
      case Check(_) =>
        if c.stage != Ready then s
        else if PaymentOf(s, i).status in {Initiated, Pending} then SetCall(s, i, c.(stage := Checked))
        else SetCall(s, i, c.(stage := Refused))
      case Begin(_) =>
        if c.stage != Checked || MarkedByOther(s, i) then s
        else SetCall(s, i, c.(stage := Open, read := map[], locked := {}))
      case Read(_, key) =>
        if c.stage != Open || key in c.locked || !Target(s, i, key) then s
        else SetCall(s, i, c.(read := c.read[key := s.rows[key]]))
      case Write(_, key) =>
        if c.stage != Open || key !in c.read || key in c.locked || LockedByOther(s, i, key) then s
        else if key !in s.rows || s.rows[key].version != c.read[key].version then SetCall(s, i, c.(stage := Aborted))
        else SetCall(s, i, c.(locked := c.locked + {key}))
      case Commit(_) =>
        if c.stage != Open || !(forall key | key in s.rows :: Target(s, i, key) ==> key in c.locked)
           || !(c.locked <= c.read.Keys) then s
        else
          State(s.payments[c.payment := PaymentOf(s, i).(status := Completed)],
                map key | key in s.rows ::
                  if key in c.locked then Credit(key, c.read[key], PaymentOf(s, i).amount) else s.rows[key],
                s.calls[i := c.(stage := Committed)])
      case RollBack(_) =>
        if c.stage != Open then s else SetCall(s, i, c.(stage := Aborted))
  }

  function Run(s: State, steps: seq<Step>): (t: State)
    requires WellFormed(s)
    ensures WellFormed(t) && |t.calls| == |s.calls| && |t.payments| == |s.payments|
  {
    if steps == [] then s else Next(Run(s, steps[..|steps| - 1]), steps[|steps| - 1])
  }

  // ---------------------------------------------------------------- what every step keeps

  /** An equal version means an unchanged row, and a lock keeps it that way. */
  predicate ReadsHonest(s: State, i: nat)
    requires WellFormed(s) && i < |s.calls|
  {
    var c := s.calls[i];
    c.stage == Open ==>
      && (forall key | key in c.read ::
            && Target(s, i, key)
            && c.read[key].version <= s.rows[key].version
            && (c.read[key].version == s.rows[key].version ==> c.read[key] == s.rows[key]))
      && (forall key | key in c.locked :: key in c.read && c.read[key] == s.rows[key])
  }

  predicate LocksExclusive(s: State) {
    forall i, j | 0 <= i < j < |s.calls| ::
      s.calls[i].stage == Open && s.calls[j].stage == Open ==> s.calls[i].locked !! s.calls[j].locked
  }

  predicate Consistent(s: State) {
    && WellFormed(s)
    && LocksExclusive(s)
    && (forall i | 0 <= i < |s.calls| :: ReadsHonest(s, i))
  }

  function Contribution(s: State, i: nat, key: Key): int
    requires WellFormed(s) && i < |s.calls|
  {
    if s.calls[i].stage == Committed && Names(PaymentOf(s, i), key) then PaymentOf(s, i).amount else 0
  }

  /** What the first `n` calls have credited to a row. */
  function Credited(s: State, key: Key, n: nat): int
    requires WellFormed(s) && n <= |s.calls|
  {
    if n == 0 then 0 else Credited(s, key, n - 1) + Contribution(s, n - 1, key)
  }

  /** A run starts with every call still to be made. */
  predicate Initial(s: State) {
    && WellFormed(s)
    && (forall i | 0 <= i < |s.calls| :: s.calls[i].stage == Ready)
    && (forall p | 0 <= p < |s.payments| :: s.payments[p].amount > 0)
  }

  /** Everything but the status of a payment stays as it was. */
  predicate SamePayments(s: State, t: State) {
    && |s.payments| == |t.payments|
    && forall p | 0 <= p < |s.payments| :: t.payments[p] == s.payments[p].(status := t.payments[p].status)
  }

  /** A step that touches no row only has to leave its own call honest and its locks to itself. */
  lemma CallStep(s: State, i: nat, c: Call)
    requires Consistent(s) && i < |s.calls| && c.payment == s.calls[i].payment
    requires ReadsHonest(SetCall(s, i, c), i)
    requires c.stage == Open ==> forall key | key in c.locked :: !LockedByOther(s, i, key)
    ensures Consistent(SetCall(s, i, c))
  {
    var t := SetCall(s, i, c);
    forall j | 0 <= j < |t.calls|
      ensures ReadsHonest(t, j)
    {
      assert ReadsHonest(s, j);
    }
    forall j, k | 0 <= j < k < |t.calls| && t.calls[j].stage == Open && t.calls[k].stage == Open
      ensures t.calls[j].locked !! t.calls[k].locked
    {
      if j == i {
        assert forall key | key in c.locked :: !LockedByOther(s, i, key);
        assert s.calls[k].stage == Open;
      } else if k == i {
        assert forall key | key in c.locked :: !LockedByOther(s, i, key);
        assert s.calls[j].stage == Open;
      }
    }
  }

  lemma OwnLocks(s: State, i: nat)
    requires Consistent(s) && i < |s.calls| && s.calls[i].stage == Open
    ensures forall key | key in s.calls[i].locked :: !LockedByOther(s, i, key)
  {}

  predicate Commits(s: State, i: nat)
    requires WellFormed(s)
  {
    i < |s.calls| && s.calls[i].stage == Open && Next(s, Commit(i)).calls[i].stage == Committed
  }

  /** A commit writes exactly the rows its payment names, each from a read that is still current. */
  lemma CommitCredits(s: State, i: nat)
    requires Consistent(s) && Commits(s, i)
    ensures Next(s, Commit(i)).rows.Keys == s.rows.Keys
    ensures forall key | key in s.rows ::
      Next(s, Commit(i)).rows[key]
      == if Target(s, i, key) then Credit(key, s.rows[key], PaymentOf(s, i).amount) else s.rows[key]
  {
    assert ReadsHonest(s, i);
  }

  lemma CommitKeepsOthers(s: State, i: nat, j: nat)
    requires Consistent(s) && Commits(s, i) && j < |s.calls|
    ensures ReadsHonest(Next(s, Commit(i)), j)
  {
    var t := Next(s, Commit(i));
    CommitCredits(s, i);
    assert ReadsHonest(s, i) && ReadsHonest(s, j);
    if j != i && s.calls[j].stage == Open {
      forall key | key in s.calls[j].read
        ensures Target(t, j, key)
      {
        assert Target(s, j, key);
      }
      forall key | key in s.calls[j].locked
        ensures t.rows[key] == s.rows[key]
      {
        OwnLocks(s, j);
        assert !LockedByOther(s, j, key);
        assert key !in s.calls[i].locked;
      }
    }
  }

  lemma CommitKeepsConsistent(s: State, i: nat)
    requires Consistent(s) && Commits(s, i)
    ensures Consistent(Next(s, Commit(i)))
  {
    forall j | 0 <= j < |s.calls|
      ensures ReadsHonest(Next(s, Commit(i)), j)
    {
      CommitKeepsOthers(s, i, j);
    }
  }

  lemma StepKeepsConsistent(s: State, step: Step)
    requires Consistent(s)
    ensures Consistent(Next(s, step))
  {
    var i := step.call;
    if i < |s.calls| && Next(s, step) != s {
      var t := Next(s, step);
      assert ReadsHonest(s, i);
      if step.Commit? {
        CommitKeepsConsistent(s, i);
      } else {
        assert t == SetCall(s, i, t.calls[i]);
        if s.calls[i].stage == Open {
          OwnLocks(s, i);
        }
        CallStep(s, i, t.calls[i]);
      }
    }
  }

  lemma StepKeepsPayments(s: State, step: Step)
    requires WellFormed(s)
    ensures SamePayments(s, Next(s, step))
  {}

  // ---------------------------------------------------------------- no update is lost

  lemma {:induction false} CreditedAfter(s: State, t: State, i: nat, key: Key, n: nat)
    requires WellFormed(s) && WellFormed(t) && |s.calls| == |t.calls| && i < |s.calls| && n <= |s.calls|
    requires forall j | 0 <= j < |s.calls| && j != i :: Contribution(t, j, key) == Contribution(s, j, key)
    ensures Credited(t, key, n) - Credited(s, key, n)
         == if i < n then Contribution(t, i, key) - Contribution(s, i, key) else 0
  {
    if n > 0 {
      CreditedAfter(s, t, i, key, n - 1);
    }
  }

  lemma StepConserves(s: State, step: Step, key: Key)
    requires Consistent(s) && key in s.rows
    ensures var t := Next(s, step);
            && key in t.rows
            && t.rows[key].paid - s.rows[key].paid == Credited(t, key, |t.calls|) - Credited(s, key, |s.calls|)
  {
    var i, t := step.call, Next(s, step);
    if i < |s.calls| && t != s {
      CreditedAfter(s, t, i, key, |s.calls|);
      if step.Commit? {
        CommitCredits(s, i);
      }
    }
  }

  /** What a row may look like after a run that started from `start`. */
  predicate RowTrue(key: Key, start: Row, row: Row) {
    && row.due == start.due && row.paid >= start.paid && row.version >= start.version
    && (row.version == start.version ==> row == start)
    && (row.version > start.version ==>
          row.settled == (row.paid >= row.due || (key.PhaseKey? && start.settled)))
  }

  lemma StepKeepsRowTrue(s: State, step: Step, key: Key, start: Row)
    requires Consistent(s) && key in s.rows && RowTrue(key, start, s.rows[key])
    requires forall p | 0 <= p < |s.payments| :: s.payments[p].amount > 0
    ensures key in Next(s, step).rows && RowTrue(key, start, Next(s, step).rows[key])
  {
    var i := step.call;
    if i < |s.calls| && Next(s, step) != s && step.Commit? {
      CommitCredits(s, i);
    }
  }

  /**
   * Under every interleaving, every row ends with its start value plus the payments of the calls that
   * committed, its status agrees with its amounts, and no amount of any payment changed.
   */
  lemma {:induction false} NoLostUpdate(s: State, steps: seq<Step>, key: Key)
    requires Initial(s) && key in s.rows
    ensures var t := Run(s, steps);
            && Consistent(t) && SamePayments(s, t) && key in t.rows
            && t.rows[key].paid == s.rows[key].paid + Credited(t, key, |t.calls|)
            && RowTrue(key, s.rows[key], t.rows[key])
  {
    if steps == [] {
      NothingCredited(s, key, |s.calls|);
    } else {
      var before, step := steps[..|steps| - 1], steps[|steps| - 1];
      NoLostUpdate(s, before, key);
      var m := Run(s, before);
      StepKeepsConsistent(m, step);
      StepKeepsPayments(m, step);
      StepConserves(m, step, key);
      StepKeepsRowTrue(m, step, key, s.rows[key]);
    }
  }

  lemma {:induction false} NothingCredited(s: State, key: Key, n: nat)
    requires Initial(s) && n <= |s.calls|
    ensures Credited(s, key, n) == 0
  {
    if n > 0 {
      NothingCredited(s, key, n - 1);
    }
  }

  // ---------------------------------------------------------------- calls that end

  /** A call whose transaction is over, one way or the other, or that never got one. */
  predicate Over(stage: Stage) {
    stage in {Committed, Aborted, Refused}
  }

  /** Rows and payments change at a commit only, and a call that is over stays as it is. */
  lemma OnlyCommitsWrite(s: State, step: Step, j: nat)
    requires WellFormed(s) && j < |s.calls|
    ensures !step.Commit? ==> Next(s, step).rows == s.rows && Next(s, step).payments == s.payments
    ensures Over(s.calls[j].stage) ==> Next(s, step).calls[j] == s.calls[j]
    ensures step.call != j ==> Next(s, step).calls[j] == s.calls[j]
  {}

  /** No two open transactions are about one payment. */
  predicate PaymentsExclusive(s: State) {
    forall i, j | 0 <= i < j < |s.calls| && s.calls[i].stage == Open && s.calls[j].stage == Open ::
      s.calls[i].payment != s.calls[j].payment
  }

  lemma StepKeepsPaymentsExclusive(s: State, step: Step)
    requires WellFormed(s) && PaymentsExclusive(s)
    ensures PaymentsExclusive(Next(s, step))
  {
    var t := Next(s, step);
    forall i, j | 0 <= i < j < |t.calls| && t.calls[i].stage == Open && t.calls[j].stage == Open
      ensures t.calls[i].payment != t.calls[j].payment
    {
      OnlyCommitsWrite(s, step, i);
      OnlyCommitsWrite(s, step, j);
    }
  }

  lemma {:induction false} RunKeepsPaymentsExclusive(s: State, steps: seq<Step>)
    requires Initial(s)
    ensures PaymentsExclusive(Run(s, steps))
  {
    if steps != [] {
      RunKeepsPaymentsExclusive(s, steps[..|steps| - 1]);
      StepKeepsPaymentsExclusive(Run(s, steps[..|steps| - 1]), steps[|steps| - 1]);
    }
  }

  /** Outside a transaction a call is checked, then refused or begun; inside, it may always give up. */
  lemma StagesOfACall(s: State, i: nat)
    requires WellFormed(s) && i < |s.calls|
    ensures s.calls[i].stage == Ready ==>
              Next(s, Check(i)).calls[i].stage
              == if PaymentOf(s, i).status in {Initiated, Pending} then Checked else Refused
    ensures s.calls[i].stage == Checked && (forall j | 0 <= j < |s.calls| :: s.calls[j].stage != Open) ==>
              Next(s, Begin(i)).calls[i].stage == Open
    ensures s.calls[i].stage == Open ==> Next(s, RollBack(i)).calls[i].stage == Aborted
  {}

  /** A row that moved since it was read ends the call with nothing written. */
  lemma StaleReadAborts(s: State, i: nat, key: Key)
    requires WellFormed(s) && i < |s.calls| && s.calls[i].stage == Open && key in s.calls[i].read
    requires key !in s.calls[i].locked && !LockedByOther(s, i, key)
    requires key in s.rows && s.rows[key].version != s.calls[i].read[key].version
    ensures Next(s, Write(i, key)).calls[i].stage == Aborted && Next(s, Write(i, key)).rows == s.rows
  {}

  // ---------------------------------------------------------------- each payment once

  /** How many of the first `n` calls committed payment `p`. */
  function Times(s: State, p: nat, n: nat): nat
    requires WellFormed(s) && n <= |s.calls|
  {
    if n == 0 then 0
    else Times(s, p, n - 1) + if s.calls[n - 1].stage == Committed && s.calls[n - 1].payment == p then 1 else 0
  }

  function Weighted(s: State, key: Key, m: nat, n: nat): int
    requires WellFormed(s) && m <= |s.payments| && n <= |s.calls|
  {
    if m == 0 then 0
    else
      Weighted(s, key, m - 1, n)
      + if Names(s.payments[m - 1], key) then Times(s, m - 1, n) * s.payments[m - 1].amount else 0
  }

  lemma {:induction false} WeightedStep(s: State, key: Key, m: nat, n: nat)
    requires WellFormed(s) && m <= |s.payments| && 0 < n <= |s.calls|
    ensures Weighted(s, key, m, n) - Weighted(s, key, m, n - 1)
         == if s.calls[n - 1].payment < m then Contribution(s, n - 1, key) else 0
  {
    if m > 0 {
      WeightedStep(s, key, m - 1, n);
      assert (Times(s, m - 1, n - 1) + 1) * s.payments[m - 1].amount
          == Times(s, m - 1, n - 1) * s.payments[m - 1].amount + s.payments[m - 1].amount;
    }
  }

  lemma {:induction false} NothingWeighted(s: State, key: Key, m: nat)
    requires WellFormed(s) && m <= |s.payments|
    ensures Weighted(s, key, m, 0) == 0
  {
    if m > 0 {
      NothingWeighted(s, key, m - 1);
    }
  }

  /** Adding up by call or by payment gives the same credit. */
  lemma {:induction false} CreditedByPayment(s: State, key: Key, n: nat)
    requires WellFormed(s) && n <= |s.calls|
    ensures Credited(s, key, n) == Weighted(s, key, |s.payments|, n)
  {
    if n == 0 {
      NothingWeighted(s, key, |s.payments|);
    } else {
      CreditedByPayment(s, key, n - 1);
      WeightedStep(s, key, |s.payments|, n);
    }
  }

  /** The payments naming a row that a run turned to COMPLETED, added up over the first `m`. */
  function CompletedSum(s: State, t: State, key: Key, m: nat): int
    requires m <= |s.payments| == |t.payments|
  {
    if m == 0 then 0
    else
      CompletedSum(s, t, key, m - 1)
      + if t.payments[m - 1].status == Completed && s.payments[m - 1].status != Completed
           && Names(t.payments[m - 1], key)
        then t.payments[m - 1].amount else 0
  }

  /** A payment's status records whether some call committed it, and only payments found open are committed. */
  predicate StatusTrue(s: State, t: State) {
    && WellFormed(t) && |s.payments| == |t.payments|
    && (forall i | 0 <= i < |t.calls| && t.calls[i].stage in {Checked, Open, Committed} ::
          s.payments[t.calls[i].payment].status in {Initiated, Pending})
    && (forall p | 0 <= p < |t.payments| ::
          t.payments[p].status == if Times(t, p, |t.calls|) > 0 then Completed else s.payments[p].status)
  }

  lemma {:induction false} TimesAfter(s: State, t: State, i: nat, p: nat, n: nat)
    requires WellFormed(s) && WellFormed(t) && |s.calls| == |t.calls| && i < |s.calls| && n <= |s.calls|
    requires forall j | 0 <= j < |s.calls| && j != i :: t.calls[j] == s.calls[j]
    requires s.calls[i].stage != Committed && t.calls[i].payment == s.calls[i].payment
    ensures Times(t, p, n) - Times(s, p, n)
         == if i < n && t.calls[i].stage == Committed && t.calls[i].payment == p then 1 else 0
  {
    if n > 0 {
      TimesAfter(s, t, i, p, n - 1);
    }
  }

  lemma StepKeepsStatusTrue(s: State, m: State, step: Step)
    requires StatusTrue(s, m)
    ensures StatusTrue(s, Next(m, step))
  {
    var i, t := step.call, Next(m, step);
    if i < |m.calls| && t != m {
      forall p | 0 <= p < |t.payments|
        ensures t.payments[p].status == if Times(t, p, |t.calls|) > 0 then Completed else s.payments[p].status
      {
        TimesAfter(m, t, i, p, |m.calls|);
      }
    }
  }

  lemma {:induction false} NeverCommitted(s: State, p: nat, n: nat)
    requires Initial(s) && n <= |s.calls|
    ensures Times(s, p, n) == 0
  {
    if n > 0 {
      NeverCommitted(s, p, n - 1);
    }
  }

  lemma {:induction false} RunKeepsStatusTrue(s: State, steps: seq<Step>)
    requires Initial(s)
    ensures StatusTrue(s, Run(s, steps))
  {
    if steps == [] {
      forall p | 0 <= p < |s.payments|
        ensures Times(s, p, |s.calls|) == 0
      {
        NeverCommitted(s, p, |s.calls|);
      }
    } else {
      RunKeepsStatusTrue(s, steps[..|steps| - 1]);
      StepKeepsStatusTrue(s, Run(s, steps[..|steps| - 1]), steps[|steps| - 1]);
    }
  }

  lemma Repeated(times: nat, amount: int)
    requires amount > 0
    ensures times * amount >= if times > 0 then amount else 0
    ensures times * amount == (if times > 0 then amount else 0) <==> times <= 1
  {
    if times > 1 {
      assert times * amount == amount + (times - 1) * amount;
      assert (times - 1) * amount > 0;
    }
  }

  predicate OnceEach(t: State, key: Key, m: nat)
    requires WellFormed(t) && m <= |t.payments|
  {
    forall p | 0 <= p < m :: Names(t.payments[p], key) ==> Times(t, p, |t.calls|) <= 1
  }

  lemma {:induction false} WeightedAgainstCompleted(s: State, t: State, key: Key, m: nat)
    requires StatusTrue(s, t) && m <= |t.payments|
    requires forall p | 0 <= p < |t.payments| :: t.payments[p].amount > 0
    requires forall p | 0 <= p < |t.payments| && Times(t, p, |t.calls|) > 0 :: s.payments[p].status != Completed
    ensures Weighted(t, key, m, |t.calls|) >= CompletedSum(s, t, key, m)
    ensures Weighted(t, key, m, |t.calls|) == CompletedSum(s, t, key, m) <==> OnceEach(t, key, m)
  {
    if m > 0 {
      WeightedAgainstCompleted(s, t, key, m - 1);
      Repeated(Times(t, m - 1, |t.calls|), t.payments[m - 1].amount);
      assert OnceEach(t, key, m)
        <==> (OnceEach(t, key, m - 1) && (Names(t.payments[m - 1], key) ==> Times(t, m - 1, |t.calls|) <= 1));
    }
  }

  lemma {:induction false} CommittedWasOpen(s: State, t: State, p: nat, n: nat)
    requires StatusTrue(s, t) && n <= |t.calls| && Times(t, p, n) > 0
    ensures p < |s.payments| && s.payments[p].status in {Initiated, Pending}
  {
    if Times(t, p, n - 1) > 0 {
      CommittedWasOpen(s, t, p, n - 1);
    }
  }

  /** In one run the paid amount adds up exactly when no payment naming the row was committed by two calls. */
  lemma PaidMatchesPaymentsIff(s: State, steps: seq<Step>, key: Key)
    requires Initial(s) && key in s.rows
    ensures var t := Run(s, steps);
            key in t.rows
            && (t.rows[key].paid == s.rows[key].paid + CompletedSum(s, t, key, |s.payments|)
                <==> OnceEach(t, key, |t.payments|))
  {
    var t := Run(s, steps);
    NoLostUpdate(s, steps, key);
    RunKeepsStatusTrue(s, steps);
    CreditedByPayment(t, key, |t.calls|);
    forall p | 0 <= p < |t.payments| && Times(t, p, |t.calls|) > 0
      ensures s.payments[p].status != Completed
    {
      CommittedWasOpen(s, t, p, |t.calls|);
    }
    WeightedAgainstCompleted(s, t, key, |t.payments|);
  }

  /** Some payment that is open at the start and names the row is brought by two calls. */
  predicate CalledTwice(s: State, key: Key)
    requires WellFormed(s)
  {
    exists i, j | 0 <= i < j < |s.calls| ::
      && s.calls[i].payment == s.calls[j].payment
      && PaymentOf(s, i).status in {Initiated, Pending} && Names(PaymentOf(s, i), key)
  }

  predicate AddsUp(s: State, steps: seq<Step>, key: Key)
    requires WellFormed(s)
  {
    var t := Run(s, steps);
    && key in s.rows && key in t.rows
    && t.rows[key].paid == s.rows[key].paid + CompletedSum(s, t, key, |s.payments|)
  }

  /** One call per payment commits it at most once. */
  lemma {:induction false} SingleCallOnce(t: State, p: nat, n: nat)
    requires WellFormed(t) && n <= |t.calls|
    requires forall i, j | 0 <= i < j < n :: !(t.calls[i].payment == t.calls[j].payment == p)
    ensures Times(t, p, n) <= 1
    ensures Times(t, p, n) == 1 ==> exists i | 0 <= i < n :: t.calls[i].payment == p
  {
    if n > 0 {
      SingleCallOnce(t, p, n - 1);
    }
  }

  lemma {:induction false} RunKeepsTargets(s: State, steps: seq<Step>)
    requires WellFormed(s)
    ensures forall i | 0 <= i < |s.calls| :: Run(s, steps).calls[i].payment == s.calls[i].payment
  {
    if steps != [] {
      RunKeepsTargets(s, steps[..|steps| - 1]);
    }
  }

  lemma OpenPaymentOnce(s: State, t: State, key: Key, p: nat)
    requires WellFormed(s) && WellFormed(t) && |t.calls| == |s.calls| && p < |s.payments|
    requires forall i | 0 <= i < |s.calls| :: t.calls[i].payment == s.calls[i].payment
    requires !CalledTwice(s, key) && Names(s.payments[p], key) && s.payments[p].status in {Initiated, Pending}
    ensures Times(t, p, |t.calls|) <= 1
  {
    forall i, j | 0 <= i < j < |t.calls|
      ensures !(t.calls[i].payment == t.calls[j].payment == p)
    {
      assert s.calls[i].payment == t.calls[i].payment && s.calls[j].payment == t.calls[j].payment;
    }
    SingleCallOnce(t, p, |t.calls|);
  }

  /** Without two calls for one open payment, every interleaving adds up. */
  lemma SingleCallsAddUp(s: State, steps: seq<Step>, key: Key)
    requires Initial(s) && key in s.rows && !CalledTwice(s, key)
    ensures AddsUp(s, steps, key)
  {
    var t := Run(s, steps);
    PaidMatchesPaymentsIff(s, steps, key);
    assert OnceEach(t, key, |t.payments|) by {
      NoLostUpdate(s, steps, key);
      RunKeepsTargets(s, steps);
      RunKeepsStatusTrue(s, steps);
      forall p | 0 <= p < |t.payments| && Names(t.payments[p], key)
        ensures Times(t, p, |t.calls|) <= 1
      {
        if s.payments[p].status in {Initiated, Pending} {
          OpenPaymentOnce(s, t, key, p);
        } else if Times(t, p, |t.calls|) > 0 {
          CommittedWasOpen(s, t, p, |t.calls|);
        }
      }
    }
  }

  /** Calls for distinct payments always leave every row equal to its start plus the payments completed. */
  lemma DistinctPaymentsAddUp(s: State, steps: seq<Step>, key: Key)
    requires Initial(s) && key in s.rows
    requires forall i, j | 0 <= i < j < |s.calls| :: s.calls[i].payment != s.calls[j].payment
    ensures AddsUp(s, steps, key)
  {
    SingleCallsAddUp(s, steps, key);
  }

  // ---------------------------------------------------------------- two calls for one payment

  lemma Extend(s: State, steps: seq<Step>, step: Step)
    requires WellFormed(s)
    ensures Run(s, steps + [step]) == Next(Run(s, steps), step)
  {
    assert (steps + [step])[..|steps|] == steps;
  }

  ghost predicate Reaches(s: State, t: State)
    requires WellFormed(s)
  {
    exists steps: seq<Step> :: Run(s, steps) == t
  }

  lemma ReachesNext(s: State, t: State, step: Step)
    requires WellFormed(s) && WellFormed(t) && Reaches(s, t)
    ensures Reaches(s, Next(t, step))
  {
    var steps: seq<Step> :| Run(s, steps) == t;
    Extend(s, steps, step);
  }

  /** Call `i` is inside its transaction and nobody else is. */
  predicate AloneInside(m: State, i: nat) {
    && WellFormed(m) && i < |m.calls| && m.calls[i].stage == Open && m.calls[i].locked <= m.calls[i].read.Keys
    && forall j | 0 <= j < |m.calls| && j != i :: m.calls[j].stage != Open
  }

  /** A call alone inside a transaction reads and writes one row it names, if the row exists. */
  lemma ReadAndWrite(s: State, m: State, i: nat, key: Key) returns (t: State)
    requires WellFormed(s) && Reaches(s, m) && AloneInside(m, i) && Names(PaymentOf(m, i), key)
    ensures Reaches(s, t) && AloneInside(t, i) && t.rows == m.rows && t.payments == m.payments
    ensures |t.calls| == |m.calls| && t.calls[i].payment == m.calls[i].payment
    ensures forall j | 0 <= j < |m.calls| && j != i :: t.calls[j] == m.calls[j]
    ensures m.calls[i].locked <= t.calls[i].locked && (key in t.rows ==> key in t.calls[i].locked)
  {
    if key !in m.rows || key in m.calls[i].locked {
      return m;
    }
    var read := Next(m, Read(i, key));
    ReachesNext(s, m, Read(i, key));
    ReachesNext(s, read, Write(i, key));
    return Next(read, Write(i, key));
  }

  lemma WritesAll(s: State, m: State, i: nat) returns (t: State)
    requires WellFormed(s) && Reaches(s, m) && AloneInside(m, i)
    ensures Reaches(s, t) && AloneInside(t, i) && t.rows == m.rows && t.payments == m.payments
    ensures |t.calls| == |m.calls| && t.calls[i].payment == m.calls[i].payment
    ensures forall j | 0 <= j < |m.calls| && j != i :: t.calls[j] == m.calls[j]
    ensures forall key | key in t.rows && Target(t, i, key) :: key in t.calls[i].locked
  {
    t := m;
    var payment := PaymentOf(m, i);
    if payment.installment.Some? {
      t := ReadAndWrite(s, t, i, InstallmentKey(payment.installment.value));
    }
    if payment.phase.Some? {
      t := ReadAndWrite(s, t, i, PhaseKey(payment.phase.value));
    }
  }

  /** A checked call that finds nobody inside can go all the way to its commit. */
  lemma CommitChecked(s: State, m: State, i: nat) returns (t: State)
    requires WellFormed(s) && Reaches(s, m) && WellFormed(m) && i < |m.calls| && m.calls[i].stage == Checked
    requires forall j | 0 <= j < |m.calls| :: m.calls[j].stage != Open
    ensures Reaches(s, t) && WellFormed(t) && |t.calls| == |m.calls|
    ensures forall j | 0 <= j < |m.calls| && j != i :: t.calls[j] == m.calls[j]
    ensures t.calls[i].stage == Committed && t.calls[i].payment == m.calls[i].payment
  {
    var begun := Next(m, Begin(i));
    ReachesNext(s, m, Begin(i));
    var written := WritesAll(s, begun, i);
    ReachesNext(s, written, Commit(i));
    t := Next(written, Commit(i));
  }

  lemma {:induction false} CommittedTwice(t: State, i: nat, j: nat, n: nat)
    requires WellFormed(t) && i < j && i < |t.calls| && n <= |t.calls|
    requires t.calls[i].stage == Committed
    requires j < |t.calls| && t.calls[j].stage == Committed && t.calls[i].payment == t.calls[j].payment
    ensures Times(t, t.calls[i].payment, n) >= (if i < n then 1 else 0) + (if j < n then 1 else 0)
  {
    if n > 0 {
      CommittedTwice(t, i, j, n - 1);
    }
  }

  /** Check `i`, check `j`, commit `i`, commit `j`: one payment is credited twice. */
  lemma TwoCallsCommit(s: State, i: nat, j: nat) returns (t: State)
    requires Initial(s) && i < j < |s.calls| && s.calls[i].payment == s.calls[j].payment
    requires PaymentOf(s, i).status in {Initiated, Pending}
    ensures Reaches(s, t) && WellFormed(t) && |t.calls| == |s.calls| && |t.payments| == |s.payments|
    ensures Times(t, s.calls[i].payment, |t.calls|) >= 2
  {
    assert Run(s, []) == s;
    var first := Next(s, Check(i));
    ReachesNext(s, s, Check(i));
    var both := Next(first, Check(j));
    ReachesNext(s, first, Check(j));
    var one := CommitChecked(s, both, i);
    t := CommitChecked(s, one, j);
    CommittedTwice(t, i, j, |t.calls|);
  }

  /**
   * The versions protect a row, not a payment. The paid amount is the start value plus the completed payments
   * under every interleaving exactly when no two calls are for one open payment that names the row.
   */
  lemma AlwaysAddsUpIff(s: State, key: Key)
    requires Initial(s) && key in s.rows
    ensures (forall steps: seq<Step> :: AddsUp(s, steps, key)) <==> !CalledTwice(s, key)
  {
    if CalledTwice(s, key) {
      var i, j :| 0 <= i < j < |s.calls| && s.calls[i].payment == s.calls[j].payment
        && PaymentOf(s, i).status in {Initiated, Pending} && Names(PaymentOf(s, i), key);
      var t := TwoCallsCommit(s, i, j);
      var steps: seq<Step> :| Run(s, steps) == t;
      NoLostUpdate(s, steps, key);
      PaidMatchesPaymentsIff(s, steps, key);
      assert Names(t.payments[s.calls[i].payment], key);
      assert !AddsUp(s, steps, key);
    } else {
      forall steps: seq<Step>
        ensures AddsUp(s, steps, key)
      {
        SingleCallsAddUp(s, steps, key);
      }
    }
  }

  /** A checked call that meets nobody else inside a transaction commits in four steps. */
  lemma CommitAlone(s: State, steps: seq<Step>, i: nat, key: Key) returns (more: seq<Step>)
    requires WellFormed(s)
    requires var m := Run(s, steps);
             && i < |m.calls| && m.calls[i].stage == Checked && Target(m, i, key)
             && (forall other | other in m.rows :: Target(m, i, other) ==> other == key)
             && (forall j | 0 <= j < |m.calls| :: m.calls[j].stage != Open)
    ensures var m, t := Run(s, steps), Run(s, more);
            && t.rows == m.rows[key := Credit(key, m.rows[key], PaymentOf(m, i).amount)]
            && t.payments == m.payments[m.calls[i].payment := PaymentOf(m, i).(status := Completed)]
            && (forall j | 0 <= j < |t.calls| && j != i :: t.calls[j] == m.calls[j])
            && t.calls[i].stage == Committed
  {
    var begun, read, written := steps + [Begin(i)], steps + [Begin(i)] + [Read(i, key)],
      steps + [Begin(i)] + [Read(i, key)] + [Write(i, key)];
    more := written + [Commit(i)];
    Extend(s, steps, Begin(i));
    Extend(s, begun, Read(i, key));
    Extend(s, read, Write(i, key));
    Extend(s, written, Commit(i));
  }

  /** One pending payment of 100 on an installment of 100, notified twice. */
  function Twins(): (s: State)
    ensures Initial(s)
  {
    var call := Call(0, Ready, map[], {});
    State([Payment(Some(0), None, 100, Pending)], map[InstallmentKey(0) := Row(100, 0, false, 0)], [call, call])
  }

  lemma TwinsChecked() returns (steps: seq<Step>)
    ensures var t := Run(Twins(), steps);
            t.rows == Twins().rows && t.payments == Twins().payments
            && t.calls[0].stage == t.calls[1].stage == Checked
  {
    var s := Twins();
    steps := [Check(0)] + [Check(1)];
    Extend(s, [], Check(0));
    assert [] + [Check(0)] == [Check(0)];
    Extend(s, [Check(0)], Check(1));
  }

  lemma OnlyTarget(s: State, i: nat)
    requires WellFormed(s) && i < |s.calls| && s.rows.Keys == {InstallmentKey(0)}
    requires PaymentOf(s, i).installment == Some(0)
    ensures Target(s, i, InstallmentKey(0))
    ensures forall other | other in s.rows :: Target(s, i, other) ==> other == InstallmentKey(0)
  {}

  lemma TwinsCommitOnce() returns (steps: seq<Step>)
    ensures var t := Run(Twins(), steps);
            && t.rows == map[InstallmentKey(0) := Row(100, 100, true, 1)] && t.payments[0].amount == 100
            && t.payments[0].installment == Some(0)
            && t.calls[1].stage == Checked && t.calls[0].stage == Committed && t.calls[1].payment == 0
            && |t.payments| == 1 && |t.calls| == 2
  {
    var checked := TwinsChecked();
    RunKeepsTargets(Twins(), checked);
    OnlyTarget(Run(Twins(), checked), 0);
    steps := CommitAlone(Twins(), checked, 0, InstallmentKey(0));
  }

  lemma CreditedAgain(row: Row)
    requires row == Row(100, 100, true, 1)
    ensures Credit(InstallmentKey(0), row, 100) == Row(100, 200, true, 2)
  {}

  lemma TwinsCommitTwice() returns (steps: seq<Step>)
    ensures Run(Twins(), steps).rows == map[InstallmentKey(0) := Row(100, 200, true, 2)]
  {
    var first := TwinsCommitOnce();
    OnlyTarget(Run(Twins(), first), 1);
    CreditedAgain(Run(Twins(), first).rows[InstallmentKey(0)]);
    steps := CommitAlone(Twins(), first, 1, InstallmentKey(0));
  }

  /** Two notifications for one payment, both checked before either transaction begins, credit it twice. */
  lemma CheckedTwiceCreditedTwice()
    ensures exists steps: seq<Step> ::
      Run(Twins(), steps).rows == map[InstallmentKey(0) := Row(100, 200, true, 2)]
  {
    var steps := TwinsCommitTwice();
  }
}
