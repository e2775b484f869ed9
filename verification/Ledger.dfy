/**
 * The payment ledger of one application, in whole kobo: payments, the installments and phase accounts that
 * cache what was paid on them, adjustments, and the phase board that a settled phase moves on.
 * Rows are named by their position; installments are listed by due date.
 */
module Ledger {
  import opened Common
  import opened Payments
  import W = PhaseWorkflow

  datatype InstallmentStatus = Unpaid | Paid | Overdue | PartiallyPaid | Waived

  datatype Installment = Installment(phase: nat, amount: int, dueDate: int, paid: int, status: InstallmentStatus,
                                     version: nat)

  /** The PaymentPhase extension of a phase. */
  datatype Account = Account(total: int, paid: int, version: nat, collectFunds: bool)

  datatype Direction = Reduction | Addition

  datatype AdjustmentStatus = Requested | Approved | Applied | Reversed

  datatype SourceType = Manual | Promo | RsaPfa | BankDirect | System

  datatype Adjustment = Adjustment(phase: Option<nat>, installment: Option<nat>, direction: Direction, amount: int,
                                   sourceType: SourceType, sourceReference: string, status: AdjustmentStatus)

  datatype State = State(payments: seq<Payment>, installments: seq<Installment>,
                         accounts: seq<Option<Account>>, board: W.Board, adjustments: seq<Adjustment>)

  /** Every installment belongs to a phase that has an account. */
  predicate InstallmentsFit(s: State) {
    forall i | 0 <= i < |s.installments| ::
      s.installments[i].phase < |s.accounts| && s.accounts[s.installments[i].phase].Some?
  }

  /** The foreign keys of the schema hold. */
  predicate WellFormed(s: State) {
    && |s.accounts| == |s.board.statuses|
    && InstallmentsFit(s)
    && (forall p | 0 <= p < |s.payments| :: Linked(s, s.payments[p]))
  }

  /** The order in which pay-ahead goes through the installments. */
  predicate ByDueDate(rows: seq<Installment>) {
    forall i, j | 0 <= i < j < |rows| :: rows[i].dueDate <= rows[j].dueDate
  }

  predicate Linked(s: State, p: Payment) {
    && (p.installment.Some? ==> p.installment.value < |s.installments|)
    && (p.phase.Some? ==> p.phase.value < |s.accounts|)
  }

  // ---------------------------------------------------------------- create, process, refund

  function Create(s: State, phase: Option<nat>, installment: Option<nat>, amount: int): Result<State>
    requires WellFormed(s)
  {
    if phase.Some? && phase.value >= |s.accounts| then Err(BadRequest)
    else if phase.Some? && s.accounts[phase.value].Some? && !s.accounts[phase.value].value.collectFunds
    then Err(BadRequest)
    else if installment.Some? && installment.value >= |s.installments| then Err(NotFound)
    else if installment.Some? && !s.accounts[s.installments[installment.value].phase].value.collectFunds
    then Err(BadRequest)
    else
      var named := if phase.None? && installment.Some? then Some(s.installments[installment.value].phase) else phase;
      Ok(s.(payments := s.payments + [Payment(installment, named, amount, Pending)]))
  }

  function PayInstallment(row: Installment, amount: int): Installment {
    var paid := row.paid + amount;
    row.(paid := paid, status := if paid >= row.amount then Paid else PartiallyPaid)
  }

  /** Reductions less additions, over the adjustments of a phase that are in force. */
  function AdjustmentTotal(adjustments: seq<Adjustment>, phase: nat): int {
    if adjustments == [] then 0
    else
      var last := adjustments[|adjustments| - 1];
      AdjustmentTotal(adjustments[..|adjustments| - 1], phase)
      + if last.phase != Some(phase) || last.status !in {Applied, Approved} then 0
        else if last.direction == Reduction then last.amount else -last.amount
  }

  predicate HasAccount(s: State, phase: Option<nat>) {
    phase.Some? && phase.value < |s.accounts| && s.accounts[phase.value].Some?
  }

  /** Payments and adjustments together have reached the total of the phase. */
  predicate Reached(s: State, k: nat) {
    && k < |s.accounts| && s.accounts[k].Some?
    && s.accounts[k].value.total - (s.accounts[k].value.paid + AdjustmentTotal(s.adjustments, k)) <= 0
  }

  function SetStatus(s: State, p: nat, status: PaymentStatus): State
    requires p < |s.payments|
  {
    s.(payments := s.payments[p := s.payments[p].(status := status)])
  }

  /** The installment a completed payment names, after it. */
  function CreditInstallment(s: State, p: Payment): State {
    if p.installment.Some? && p.installment.value < |s.installments| then
      var row := s.installments[p.installment.value];
      s.(installments := s.installments[p.installment.value :=
           PayInstallment(row, p.amount).(version := row.version + 1)])
    else s
  }

  /** The account of the phase a completed payment names, after it. */
  function CreditAccount(s: State, p: Payment): State {
    if HasAccount(s, p.phase) then
      var row := s.accounts[p.phase.value].value;
      s.(accounts := s.accounts[p.phase.value := Some(row.(paid := row.paid + p.amount, version := row.version + 1))])
    else s
  }

  function Complete(s: State, p: nat): State
    requires WellFormed(s) && p < |s.payments|
  {
    var payment := s.payments[p];
    var credited := CreditAccount(CreditInstallment(SetStatus(s, p, Completed), payment), payment);
    if HasAccount(s, payment.phase) && Reached(credited, payment.phase.value)
    then credited.(board := W.Advance(credited.board, payment.phase.value))
    else credited
  }

  /** `process`: a completed payment is left alone, anything else that is not open is refused. */
  function Process(s: State, p: nat, success: bool): Result<State>
    requires WellFormed(s)
  {
    if p >= |s.payments| then Err(NotFound)
    else if s.payments[p].status == Completed then Ok(s)
    else if s.payments[p].status !in {Initiated, Pending} then Err(BadRequest)
    else Ok(if success then Complete(s, p) else SetStatus(s, p, Failed))
  }

  function UnpayInstallment(row: Installment, amount: int): Installment {
    var paid := Max(0, row.paid - amount);
    row.(paid := paid, status := if paid == 0 then Unpaid else PartiallyPaid)
  }

  /** The installment a refunded payment names, without it. */
  function DebitInstallment(s: State, p: Payment): State
    requires Linked(s, p)
  {
    if p.installment.None? then s
    else
      var i := p.installment.value;
      s.(installments := s.installments[i := UnpayInstallment(s.installments[i], p.amount)])
  }

  /** The account of the phase a refunded payment names, without it. */
  function DebitAccount(s: State, p: Payment): State {
    if !HasAccount(s, p.phase) then s
    else
      var row := s.accounts[p.phase.value].value;
      s.(accounts := s.accounts[p.phase.value := Some(row.(paid := Max(0, row.paid - p.amount)))])
  }

  function Refund(s: State, p: nat): Result<State>
    requires WellFormed(s)
  {
    if p >= |s.payments| then Err(NotFound)
    else if s.payments[p].status != Completed then Err(BadRequest)
    else Ok(DebitAccount(DebitInstallment(SetStatus(s, p, Refunded), s.payments[p]), s.payments[p]))
  }

  // ---------------------------------------------------------------- pay ahead

  predicate Open(row: Installment) {
    row.status in {Unpaid, PartiallyPaid}
  }

  datatype Progress = Progress(state: State, remaining: int, settled: nat)

  /** One installment in turn: skipped unless it is open and money is left. */
  function PayRow(w: Progress, i: nat): Progress
    requires InstallmentsFit(w.state) && i < |w.state.installments|
  {
    var s, row := w.state, w.state.installments[i];
    if w.remaining <= 0 || !Open(row) then w
    else
      var amount := Min(w.remaining, row.amount - row.paid);
      var account := s.accounts[row.phase].value;
      var after := PayInstallment(row, amount);
      Progress(s.(payments := s.payments + [Payment(Some(i), Some(row.phase), amount, Completed)],
                  installments := s.installments[i := after],
                  accounts := s.accounts[row.phase := Some(account.(paid := account.paid + amount))]),
               w.remaining - amount,
               w.settled + if after.status == Paid then 1 else 0)
  }

  /** The first `n` installments, in order of due date. */
  function Walk(s: State, amount: int, n: nat): (w: Progress)
    requires InstallmentsFit(s) && n <= |s.installments|
    ensures InstallmentsFit(w.state) && |w.state.installments| == |s.installments|
  {
    if n == 0 then Progress(s, amount, 0) else PayRow(Walk(s, amount, n - 1), n - 1)
  }

  predicate AnyOpen(s: State) {
    exists i | 0 <= i < |s.installments| :: Open(s.installments[i])
  }

  function PayAhead(s: State, amount: int): Result<Progress>
    requires InstallmentsFit(s)
  {
    if AnyOpen(s) then Ok(Walk(s, amount, |s.installments|)) else Err(BadRequest)
  }

  // ---------------------------------------------------------------- adjustments

  predicate Duplicate(s: State, a: Adjustment) {
    a.sourceReference != ""
    && exists i | 0 <= i < |s.adjustments| ::
         && s.adjustments[i].sourceReference == a.sourceReference
         && s.adjustments[i].sourceType == a.sourceType
         && s.adjustments[i].status != Reversed
  }

  /** `createAdjustment`: a phase that reaches its total is completed, but no other phase is started. */
  function Adjust(s: State, a: Adjustment): Result<State>
    requires WellFormed(s)
  {
    if a.phase.Some? && a.phase.value >= |s.accounts| then Err(BadRequest)
    else if a.installment.Some? && a.installment.value >= |s.installments| then Err(BadRequest)
    else if Duplicate(s, a) then Err(Conflict)
    else
      var added := s.(adjustments := s.adjustments + [a.(status := Applied)]);
      Ok(if HasAccount(s, a.phase) && Reached(added, a.phase.value)
         then added.(board := s.board.(statuses := s.board.statuses[a.phase.value := W.Completed]))
         else added)
  }

  // ---------------------------------------------------------------- completing a payment phase by hand

  predicate StillDue(row: Installment, k: nat) {
    row.phase == k && row.status !in {Paid, Waived}
  }

  /**
   * `complete` on a phase: refused while an installment is due; it stores the total as paid, whatever was paid.
   * Open stages of a documentation phase are not rows of the ledger.
   */
  function FinishByHand(s: State, k: nat): Result<State>
    requires WellFormed(s)
  {
    if k >= |s.accounts| then Err(NotFound)
    else if s.board.statuses[k] == W.Completed then Err(BadRequest)
    else if s.accounts[k].None? then Ok(s.(board := s.board.(statuses := s.board.statuses[k := W.Completed])))
    else if exists i | 0 <= i < |s.installments| :: StillDue(s.installments[i], k) then Err(BadRequest)
    else
      var account := s.accounts[k].value;
      Ok(s.(board := s.board.(statuses := s.board.statuses[k := W.Completed]),
            accounts := s.accounts[k := Some(account.(paid := account.total))]))
  }

  // ---------------------------------------------------------------- the service

  /** The rows of one application, updated in place by the service. */
  class PaymentService {
    var payments: seq<Payment>
    var installments: seq<Installment>
    var accounts: seq<Option<Account>>
    var statuses: seq<W.PhaseStatus>
    var currentPhase: Option<nat>
    var adjustments: seq<Adjustment>

    ghost function Contents(): State
      reads this
    {
      State(payments, installments, accounts, W.Board(statuses, currentPhase), adjustments)
    }

    ghost predicate Valid()
      reads this
    {
      WellFormed(Contents()) && ByDueDate(installments)
    }

    method CreatePayment(phase: Option<nat>, installment: Option<nat>, amount: int) returns (r: Result<nat>)
      requires Valid()
      modifies this
      ensures Valid()
      ensures var spec := Create(old(Contents()), phase, installment, amount);
              if spec.Ok? then r == Ok(|old(payments)|) && Contents() == spec.value
              else r == Err(spec.error) && Contents() == old(Contents())
    {
      if phase.Some? {
        if phase.value >= |accounts| {
          return Err(BadRequest);
        }
        if accounts[phase.value].Some? && !accounts[phase.value].value.collectFunds {
          return Err(BadRequest);
        }
      }
      var phaseId := phase;
      if installment.Some? {
        if installment.value >= |installments| {
          return Err(NotFound);
        }
        var row := installments[installment.value];
        if !accounts[row.phase].value.collectFunds {
          return Err(BadRequest);
        }
        if phaseId.None? {
          phaseId := Some(row.phase);
        }
      }
      payments := payments + [Payment(installment, phaseId, amount, Pending)];
      return Ok(|payments| - 1);
    }

    method AppliedAdjustmentTotal(phase: nat) returns (total: int)
      ensures total == AdjustmentTotal(adjustments, phase)
    {
      total := 0;
      for i := 0 to |adjustments|
        invariant total == AdjustmentTotal(adjustments[..i], phase)
      {
        assert adjustments[..i + 1][..i] == adjustments[..i];
        var a := adjustments[i];
        if a.phase == Some(phase) && (a.status == Applied || a.status == Approved) {
          total := if a.direction == Reduction then total + a.amount else total - a.amount;
        }
      }
      assert adjustments[..|adjustments|] == adjustments;
    }

    /** The installment part of the transaction: the new amount decides between PAID and PARTIALLY_PAID. */
    method PayOnInstallment(payment: Payment)
      requires Valid() && Linked(Contents(), payment)
      modifies this`installments
      ensures Valid() && Contents() == CreditInstallment(old(Contents()), payment)
    {
      if payment.installment.Some? {
        var i := payment.installment.value;
        var row := installments[i];
        var newPaidAmount := row.paid + payment.amount;
        var isPaid := newPaidAmount >= row.amount;
        installments := installments[i := row.(paid := newPaidAmount,
                                               status := if isPaid then Paid else PartiallyPaid,
                                               version := row.version + 1)];
      }
    }

    method HandOver(k: nat)
      requires Valid() && k < |statuses|
      modifies this`statuses, this`currentPhase
      ensures Valid() && Contents() == old(Contents()).(board := W.Advance(old(Contents()).board, k))
    {
      statuses := statuses[k := W.Completed];
      if k + 1 < |statuses| {
        statuses := statuses[k + 1 := W.InProgress];
        currentPhase := Some(k + 1);
      }
    }

    /** The phase part: the account is credited, and a phase that is fully paid hands over to the next one. */
    method PayOnPhase(payment: Payment)
      requires Valid() && Linked(Contents(), payment)
      modifies this`accounts, this`statuses, this`currentPhase
      ensures Valid()
      ensures var credited := CreditAccount(old(Contents()), payment);
              Contents() == if HasAccount(credited, payment.phase) && Reached(credited, payment.phase.value)
                            then credited.(board := W.Advance(credited.board, payment.phase.value))
                            else credited
    {
      if payment.phase.Some? && accounts[payment.phase.value].Some? {
        var k := payment.phase.value;
        var account := accounts[k].value;
        var newPaidAmount := account.paid + payment.amount;
        var adjustmentTotal := AppliedAdjustmentTotal(k);
        var newRemainingAmount := account.total - (newPaidAmount + adjustmentTotal);
        accounts := accounts[k := Some(account.(paid := newPaidAmount, version := account.version + 1))];
        if newRemainingAmount <= 0 {
          HandOver(k);
        }
      }
    }

    method CompletePayment(p: nat)
      requires Valid() && p < |payments|
      modifies this
      ensures Valid() && Contents() == Complete(old(Contents()), p)
    {
      var payment := payments[p];
      assert Linked(Contents(), payment);
      payments := payments[p := payment.(status := Completed)];
      PayOnInstallment(payment);
      PayOnPhase(payment);
    }

    method ProcessPayment(p: nat, success: bool) returns (r: Result<()>)
      requires Valid()
      modifies this
      ensures Valid()
      ensures var spec := Process(old(Contents()), p, success);
              if spec.Ok? then r == Ok(()) && Contents() == spec.value
              else r == Err(spec.error) && Contents() == old(Contents())
    {
      if p >= |payments| {
        return Err(NotFound);
      }
      var payment := payments[p];
      if payment.status == Completed {
        return Ok(());
      }
      if payment.status != Initiated && payment.status != Pending {
        return Err(BadRequest);
      }
      if success {
        CompletePayment(p);
      } else {
        payments := payments[p := payment.(status := Failed)];
      }
      return Ok(());
    }

    method RefundOnInstallment(payment: Payment)
      requires Valid() && Linked(Contents(), payment)
      modifies this`installments
      ensures Valid() && Contents() == DebitInstallment(old(Contents()), payment)
    {
      if payment.installment.Some? {
        var row := installments[payment.installment.value];
        var newPaidAmount := Max(0, row.paid - payment.amount);
        installments := installments[payment.installment.value :=
          row.(paid := newPaidAmount, status := if newPaidAmount == 0 then Unpaid else PartiallyPaid)];
      }
    }

    method RefundOnPhase(payment: Payment)
      requires Valid() && Linked(Contents(), payment)
      modifies this`accounts
      ensures Valid() && Contents() == DebitAccount(old(Contents()), payment)
    {
      if payment.phase.Some? && accounts[payment.phase.value].Some? {
        var account := accounts[payment.phase.value].value;
        accounts := accounts[payment.phase.value := Some(account.(paid := Max(0, account.paid - payment.amount)))];
      }
    }

    method RefundPayment(p: nat) returns (r: Result<()>)
      requires Valid()
      modifies this
      ensures Valid()
      ensures var spec := Refund(old(Contents()), p);
              if spec.Ok? then r == Ok(()) && Contents() == spec.value
              else r == Err(spec.error) && Contents() == old(Contents())
    {
      if p >= |payments| {
        return Err(NotFound);
      }
      var payment := payments[p];
      if payment.status != Completed {
        return Err(BadRequest);
      }
      assert Linked(Contents(), payment);
      payments := payments[p := payment.(status := Refunded)];
      RefundOnInstallment(payment);
      RefundOnPhase(payment);
      return Ok(());
    }

    /** One pass of the pay-ahead loop over an open installment. */
    method PayAheadOn(i: nat, remainingAmount: int) returns (paymentAmount: int, isPaid: bool)
      requires Valid() && i < |installments| && Open(installments[i]) && remainingAmount > 0
      modifies this`payments, this`installments, this`accounts
      ensures Valid()
      ensures forall settled: nat ::
        PayRow(Progress(old(Contents()), remainingAmount, settled), i)
        == Progress(Contents(), remainingAmount - paymentAmount, settled + if isPaid then 1 else 0)
    {
      var row := installments[i];
      var amountOwed := row.amount - row.paid;
      paymentAmount := Min(remainingAmount, amountOwed);
      payments := payments + [Payment(Some(i), Some(row.phase), paymentAmount, Completed)];
      var newPaidAmount := row.paid + paymentAmount;
      isPaid := newPaidAmount >= row.amount;
      installments := installments[i := row.(paid := newPaidAmount, status := if isPaid then Paid else PartiallyPaid)];
      var account := accounts[row.phase].value;
      accounts := accounts[row.phase := Some(account.(paid := account.paid + paymentAmount))];
    }

    method AnyPending() returns (pending: bool)
      ensures pending <==> AnyOpen(Contents())
    {
      pending := false;
      for i := 0 to |installments|
        invariant pending <==> exists j | 0 <= j < i :: Open(installments[j])
      {
        if Open(installments[i]) {
          pending := true;
        }
      }
    }

    /** Returns what was paid, how many installments were settled, and the credit left over. */
    method PayAheadOnInstallments(amount: int) returns (r: Result<(int, nat, int)>)
      requires Valid()
      modifies this
      ensures Valid()
      ensures var spec := PayAhead(old(Contents()), amount);
              if spec.Ok? then
                && Contents() == spec.value.state
                && r == Ok((amount - spec.value.remaining, spec.value.settled, spec.value.remaining))
              else r == Err(spec.error) && Contents() == old(Contents())
    {
      ghost var start := Contents();
      var pending := AnyPending();
      if !pending {
        return Err(BadRequest);
      }
      var remainingAmount, settled: nat := amount, 0;
      var i := 0;
      while i < |installments| && remainingAmount > 0
        invariant Valid() && i <= |installments| == |start.installments|
        invariant Walk(start, amount, i) == Progress(Contents(), remainingAmount, settled)
        decreases |installments| - i
      {
        if Open(installments[i]) {
          var paymentAmount, isPaid := PayAheadOn(i, remainingAmount);
          remainingAmount := remainingAmount - paymentAmount;
          if isPaid {
            settled := settled + 1;
          }
        }
        i := i + 1;
      }
      if i < |installments| {
        WalkStops(start, amount, i, |installments|);
      }
      return Ok((amount - remainingAmount, settled, remainingAmount));
    }

    method CompleteByHand(k: nat) returns (r: Result<()>)
      requires Valid()
      modifies this
      ensures Valid()
      ensures var spec := FinishByHand(old(Contents()), k);
              if spec.Ok? then r == Ok(()) && Contents() == spec.value
              else r == Err(spec.error) && Contents() == old(Contents())
    {
      if k >= |accounts| {
        return Err(NotFound);
      }
      if statuses[k] == W.Completed {
        return Err(BadRequest);
      }
      if accounts[k].Some? {
        var unpaid := 0;
        for i := 0 to |installments|
          invariant unpaid >= 0 && (unpaid > 0 <==> exists j | 0 <= j < i :: StillDue(installments[j], k))
        {
          if StillDue(installments[i], k) {
            unpaid := unpaid + 1;
          }
        }
        if unpaid > 0 {
          return Err(BadRequest);
        }
      }
      statuses := statuses[k := W.Completed];
      if accounts[k].Some? {
        var account := accounts[k].value;
        accounts := accounts[k := Some(account.(paid := account.total))];
      }
      return Ok(());
    }

    method CreateAdjustment(a: Adjustment) returns (r: Result<()>)
      requires Valid()
      modifies this
      ensures Valid()
      ensures var spec := Adjust(old(Contents()), a);
              if spec.Ok? then r == Ok(()) && Contents() == spec.value
              else r == Err(spec.error) && Contents() == old(Contents())
    {
      ghost var start := Contents();
      if a.phase.Some? && a.phase.value >= |accounts| {
        return Err(BadRequest);
      }
      if a.installment.Some? && a.installment.value >= |installments| {
        return Err(BadRequest);
      }
      if a.sourceReference != "" {
        for i := 0 to |adjustments|
          invariant Contents() == start
          invariant forall j | 0 <= j < i ::
            !(adjustments[j].sourceReference == a.sourceReference && adjustments[j].sourceType == a.sourceType
              && adjustments[j].status != Reversed)
        {
          var other := adjustments[i];
          if other.sourceReference == a.sourceReference && other.sourceType == a.sourceType
             && other.status != Reversed {
            return Err(Conflict);
          }
        }
      }
      adjustments := adjustments + [a.(status := Applied)];
      if a.phase.Some? && accounts[a.phase.value].Some? {
        var account := accounts[a.phase.value].value;
        var adjustmentTotal := AppliedAdjustmentTotal(a.phase.value);
        if account.total - (account.paid + adjustmentTotal) <= 0 && statuses[a.phase.value] != W.Completed {
          statuses := statuses[a.phase.value := W.Completed];
        }
      }
      return Ok(());
    }
  }

  /** Once the money has run out, no further installment is touched. */
  lemma {:induction false} WalkStops(s: State, amount: int, i: nat, n: nat)
    requires InstallmentsFit(s) && i <= n <= |s.installments| && Walk(s, amount, i).remaining <= 0
    ensures Walk(s, amount, n) == Walk(s, amount, i)
  {
    if i < n {
      WalkStops(s, amount, i, n - 1);
    }
  }
}
