/** Pay-ahead is the greedy allocation by due date, and two of them in a row are one. */
module PayAheadLaws {
  import opened Common
  import opened Payments
  import opened Ledger
  import opened LedgerLaws

  function Owed(row: Installment): int {
    if Open(row) then row.amount - row.paid else 0
  }

  /** What the first `n` installments still ask for. */
  function OwedBefore(rows: seq<Installment>, n: nat): int
    requires n <= |rows|
  {
    if n == 0 then 0 else OwedBefore(rows, n - 1) + Owed(rows[n - 1])
  }

  /** No open installment among the first `n` has been paid more than it asks for. */
  predicate NoneOverpaid(rows: seq<Installment>, n: nat)
    requires n <= |rows|
  {
    forall i | 0 <= i < n :: Owed(rows[i]) >= 0
  }

  lemma {:induction false} OwedMonotone(rows: seq<Installment>, m: nat, n: nat)
    requires m <= n <= |rows| && NoneOverpaid(rows, n)
    ensures 0 <= OwedBefore(rows, m) <= OwedBefore(rows, n)
  {
    if m < n {
      OwedMonotone(rows, m, n - 1);
    } else if m > 0 {
      OwedMonotone(rows, m - 1, n - 1);
    }
  }

  /** The money left when the loop reaches installment `n`. */
  function Left(rows: seq<Installment>, amount: int, n: nat): int
    requires n <= |rows|
  {
    if n == 0 then amount
    else
      var left := Left(rows, amount, n - 1);
      if left <= 0 || !Open(rows[n - 1]) then left else left - Min(left, Owed(rows[n - 1]))
  }

  /** It is what is over after everything due before. */
  lemma {:induction false} LeftAfterDue(rows: seq<Installment>, amount: int, n: nat)
    requires n <= |rows| && NoneOverpaid(rows, n) && amount >= 0
    ensures Left(rows, amount, n) == Max(amount - OwedBefore(rows, n), 0)
  {
    if n > 0 {
      LeftAfterDue(rows, amount, n - 1);
      OwedMonotone(rows, n - 1, n);
    }
  }

  /** An installment after a pay-ahead that reaches it with `left` still to spend. */
  function RowAfter(row: Installment, left: int): Installment {
    if left <= 0 || !Open(row) then row else PayInstallment(row, Min(left, Owed(row)))
  }

  /** The first `n` installments after a pay-ahead of `amount`. */
  function RowsAfter(rows: seq<Installment>, amount: int, n: nat): (after: seq<Installment>)
    requires n <= |rows|
    ensures |after| == n
  {
    if n == 0 then [] else RowsAfter(rows, amount, n - 1) + [RowAfter(rows[n - 1], Left(rows, amount, n - 1))]
  }

  lemma {:induction false} RowsAfterAt(rows: seq<Installment>, amount: int, n: nat, j: nat)
    requires j < n <= |rows|
    ensures RowsAfter(rows, amount, n)[j] == RowAfter(rows[j], Left(rows, amount, j))
  {
    if j < n - 1 {
      RowsAfterAt(rows, amount, n - 1, j);
    }
  }

  lemma OwedRowAfter(row: Installment, left: int)
    requires Owed(row) >= 0
    ensures Owed(RowAfter(row, left)) == Owed(row) - if left <= 0 then 0 else Min(left, Owed(row))
  {}

  // ---------------------------------------------------------------- the loop over the store

  lemma PayRowOnRows(w: Progress, i: nat)
    requires InstallmentsFit(w.state) && i < |w.state.installments|
    ensures var row, t := w.state.installments[i], PayRow(w, i);
            && t.remaining == (if w.remaining <= 0 || !Open(row) then w.remaining
                               else w.remaining - Min(w.remaining, Owed(row)))
            && t.state.installments == w.state.installments[i := RowAfter(row, w.remaining)]
  {}

  /** One pass of the loop carries the rows and the money on by one. */
  lemma PassOnRows(w: Progress, rows: seq<Installment>, amount: int, i: nat)
    requires InstallmentsFit(w.state) && i < |w.state.installments| == |rows|
    requires w.remaining == Left(rows, amount, i) && w.state.installments == RowsAfter(rows, amount, i) + rows[i..]
    ensures PayRow(w, i).remaining == Left(rows, amount, i + 1)
    ensures PayRow(w, i).state.installments == RowsAfter(rows, amount, i + 1) + rows[i + 1..]
  {
    PayRowOnRows(w, i);
    ReplaceNext(RowsAfter(rows, amount, i), rows, i, RowAfter(rows[i], Left(rows, amount, i)));
  }

  lemma {:induction false} WalkOnRows(s: State, amount: int, n: nat)
    requires InstallmentsFit(s) && n <= |s.installments|
    ensures Walk(s, amount, n).remaining == Left(s.installments, amount, n)
    ensures Walk(s, amount, n).state.installments == RowsAfter(s.installments, amount, n) + s.installments[n..]
  {
    if n > 0 {
      WalkOnRows(s, amount, n - 1);
      PassOnRows(Walk(s, amount, n - 1), s.installments, amount, n - 1);
    }
  }

  lemma ReplaceNext(done: seq<Installment>, rows: seq<Installment>, i: nat, row: Installment)
    requires |done| == i < |rows|
    ensures (done + rows[i..])[i] == rows[i]
    ensures (done + rows[i..])[i := row] == (done + [row]) + rows[i + 1..]
  {}

  function TotalOwed(s: State): int {
    OwedBefore(s.installments, |s.installments|)
  }

  lemma WholeWalkOnRows(s: State, amount: int, n: nat)
    requires InstallmentsFit(s) && n == |s.installments|
    ensures Walk(s, amount, n).remaining == Left(s.installments, amount, n)
    ensures Walk(s, amount, n).state.installments == RowsAfter(s.installments, amount, n)
  {
    WalkOnRows(s, amount, n);
    assert s.installments[n..] == [];
  }

  lemma PayAheadOnRows(s: State, amount: int)
    requires InstallmentsFit(s) && AnyOpen(s)
    ensures PayAhead(s, amount).Ok?
    ensures PayAhead(s, amount).value.remaining == Left(s.installments, amount, |s.installments|)
    ensures PayAhead(s, amount).value.state.installments == RowsAfter(s.installments, amount, |s.installments|)
  {
    WholeWalkOnRows(s, amount, |s.installments|);
  }

  lemma OpenOwed(s: State)
    requires NoOverpaid(s)
    ensures NoneOverpaid(s.installments, |s.installments|)
  {}

  /**
   * The greedy allocation: an installment is settled if the amount covers everything due up to it, gets the
   * rest of the amount if that runs out on it, and is left alone otherwise.
   */
  lemma GreedyByDueDate(s: State, amount: int, j: nat)
    requires InstallmentsFit(s) && NoOverpaid(s) && AnyOpen(s) && amount >= 0 && j < |s.installments|
    ensures var row, after := s.installments[j], PayAhead(s, amount).value.state.installments[j];
            var before, through := OwedBefore(s.installments, j), OwedBefore(s.installments, j + 1);
            after == if !Open(row) || amount <= before then row
                     else if amount >= through then row.(paid := row.amount, status := Paid)
                     else row.(paid := row.paid + (amount - before), status := PartiallyPaid)
  {
    PayAheadOnRows(s, amount);
    OpenOwed(s);
    LeftAfterDue(s.installments, amount, j);
    RowsAfterAt(s.installments, amount, |s.installments|, j);
  }

  /** What is paid is the smaller of the amount and the total owed; the rest comes back as credit. */
  lemma PaysWhatIsOwed(s: State, amount: int)
    requires InstallmentsFit(s) && NoOverpaid(s) && AnyOpen(s) && amount >= 0
    ensures var left := PayAhead(s, amount).value.remaining;
            amount - left == Min(amount, TotalOwed(s)) && left == Max(amount - TotalOwed(s), 0)
  {
    PayAheadOnRows(s, amount);
    OpenOwed(s);
    LeftAfterDue(s.installments, amount, |s.installments|);
  }

  // ---------------------------------------------------------------- the payments created

  function AmountSum(payments: seq<Payment>): int {
    if payments == [] then 0 else AmountSum(payments[..|payments| - 1]) + payments[|payments| - 1].amount
  }

  lemma PayRowSpends(w: Progress, i: nat)
    requires InstallmentsFit(w.state) && i < |w.state.installments|
    ensures w.state.payments <= PayRow(w, i).state.payments
    ensures AmountSum(PayRow(w, i).state.payments) - AmountSum(w.state.payments) == w.remaining - PayRow(w, i).remaining
  {
    var s, t := w.state, PayRow(w, i).state;
    if t != s {
      var p := t.payments[|s.payments|];
      assert t.payments == s.payments + [p];
      assert (s.payments + [p])[..|s.payments|] == s.payments;
    }
  }

  /** The payments created add up to what was paid. */
  lemma {:induction false} CreatedPaymentsAddUp(s: State, amount: int, n: nat)
    requires InstallmentsFit(s) && n <= |s.installments|
    ensures s.payments <= Walk(s, amount, n).state.payments
    ensures AmountSum(Walk(s, amount, n).state.payments) - AmountSum(s.payments)
         == amount - Walk(s, amount, n).remaining
  {
    if n > 0 {
      CreatedPaymentsAddUp(s, amount, n - 1);
      SpendingOn(s.payments, amount, Walk(s, amount, n - 1), n - 1);
    }
  }

  lemma SpendingOn(before: seq<Payment>, amount: int, w: Progress, i: nat)
    requires InstallmentsFit(w.state) && i < |w.state.installments| && before <= w.state.payments
    requires AmountSum(w.state.payments) - AmountSum(before) == amount - w.remaining
    ensures before <= PayRow(w, i).state.payments
    ensures AmountSum(PayRow(w, i).state.payments) - AmountSum(before) == amount - PayRow(w, i).remaining
  {
    PayRowSpends(w, i);
  }

  // ---------------------------------------------------------------- the accounts follow the installments

  function PhasePaid(rows: seq<Installment>, k: nat, n: nat): int
    requires n <= |rows|
  {
    if n == 0 then 0 else PhasePaid(rows, k, n - 1) + if rows[n - 1].phase == k then rows[n - 1].paid else 0
  }

  lemma {:induction false} PhasePaidUpdate(rows: seq<Installment>, i: nat, row: Installment, k: nat, n: nat)
    requires i < |rows| && n <= |rows| && row.phase == rows[i].phase
    ensures PhasePaid(rows[i := row], k, n) - PhasePaid(rows, k, n)
         == if i < n && row.phase == k then row.paid - rows[i].paid else 0
  {
    if n > 0 {
      PhasePaidUpdate(rows, i, row, k, n - 1);
    }
  }

  /** What the installments of a phase have been paid in all. */
  function PhaseTotal(s: State, k: nat): int {
    PhasePaid(s.installments, k, |s.installments|)
  }

  function Moved(account: Option<Account>, amount: int): Option<Account> {
    if account.None? then None else Some(account.value.(paid := account.value.paid + amount))
  }

  /** Between `s` and `t`, the account of phase `k` has moved by what the installments of the phase have. */
  predicate Follows(s: State, t: State, k: nat) {
    && k < |s.accounts| == |t.accounts|
    && t.accounts[k] == Moved(s.accounts[k], PhaseTotal(t, k) - PhaseTotal(s, k))
  }

  lemma FollowsOn(s: State, t: State, u: State, k: nat)
    requires Follows(s, t, k) && Follows(t, u, k)
    ensures Follows(s, u, k)
  {}

  lemma FollowersAgree(s: State, u: State, v: State, k: nat)
    requires Follows(s, u, k) && Follows(s, v, k) && u.installments == v.installments
    ensures u.accounts[k] == v.accounts[k]
  {}

  lemma PayRowMovesAccount(w: Progress, i: nat, k: nat)
    requires InstallmentsFit(w.state) && i < |w.state.installments| && k < |w.state.accounts|
    ensures Follows(w.state, PayRow(w, i).state, k)
  {
    var s, t := w.state, PayRow(w, i).state;
    PayRowOnRows(w, i);
    PhasePaidUpdate(s.installments, i, t.installments[i], k, |s.installments|);
  }

  /** Pay-ahead moves a phase's account by exactly what it moves the installments of the phase. */
  lemma {:induction false} AccountsFollowInstallments(s: State, amount: int, n: nat, k: nat)
    requires InstallmentsFit(s) && n <= |s.installments| && k < |s.accounts|
    ensures Follows(s, Walk(s, amount, n).state, k)
  {
    if n > 0 {
      AccountsFollowInstallments(s, amount, n - 1, k);
      var w := Walk(s, amount, n - 1);
      PayRowMovesAccount(w, n - 1, k);
      FollowsOn(s, w.state, PayRow(w, n - 1).state, k);
    }
  }

  // ---------------------------------------------------------------- two in a row

  lemma RowsStillSound(rows: seq<Installment>, a: int)
    requires NoneOverpaid(rows, |rows|)
    ensures NoneOverpaid(RowsAfter(rows, a, |rows|), |rows|)
  {
    forall j | 0 <= j < |rows|
      ensures Owed(RowsAfter(rows, a, |rows|)[j]) >= 0
    {
      RowsAfterAt(rows, a, |rows|, j);
      OwedRowAfter(rows[j], Left(rows, a, j));
    }
  }

  lemma {:induction false} OwedAfter(rows: seq<Installment>, a: int, n: nat)
    requires NoneOverpaid(rows, |rows|) && n <= |rows| && a >= 0
    ensures OwedBefore(RowsAfter(rows, a, |rows|), n) == Max(OwedBefore(rows, n) - a, 0)
  {
    if n > 0 {
      OwedAfter(rows, a, n - 1);
      RowsAfterAt(rows, a, |rows|, n - 1);
      OwedRowAfter(rows[n - 1], Left(rows, a, n - 1));
      LeftAfterDue(rows, a, n - 1);
    }
  }

  /** Paying `a` and then `b` reaches an installment, together, with what paying `a + b` reaches it with. */
  lemma LeftAddsUp(rows: seq<Installment>, a: int, b: int, n: nat)
    requires NoneOverpaid(rows, |rows|) && n <= |rows| && a >= 0 && b >= 0
    ensures Left(RowsAfter(rows, a, |rows|), b, n) >= 0 && Left(rows, a, n) >= 0
    ensures Left(rows, a, n) + Left(RowsAfter(rows, a, |rows|), b, n) == Left(rows, a + b, n)
    ensures Left(rows, a, n) > 0 ==> Left(RowsAfter(rows, a, |rows|), b, n) == b
  {
    RowsStillSound(rows, a);
    OwedAfter(rows, a, n);
    LeftAfterDue(rows, a, n);
    LeftAfterDue(RowsAfter(rows, a, |rows|), b, n);
    LeftAfterDue(rows, a + b, n);
    OwedMonotone(rows, 0, n);
  }

  lemma RowComposes(row: Installment, x: int, y: int)
    requires Owed(row) >= 0 && x >= 0 && y >= 0
    ensures RowAfter(RowAfter(row, x), y) == RowAfter(row, x + y)
  {}

  lemma RowsCompose(rows: seq<Installment>, a: int, b: int)
    requires NoneOverpaid(rows, |rows|) && a >= 0 && b >= 0
    ensures RowsAfter(RowsAfter(rows, a, |rows|), b, |rows|) == RowsAfter(rows, a + b, |rows|)
  {
    forall j | 0 <= j < |rows|
      ensures RowsAfter(RowsAfter(rows, a, |rows|), b, |rows|)[j] == RowsAfter(rows, a + b, |rows|)[j]
    {
      RowsAfterAt(rows, a, |rows|, j);
      RowsAfterAt(RowsAfter(rows, a, |rows|), b, |rows|, j);
      RowsAfterAt(rows, a + b, |rows|, j);
      LeftAddsUp(rows, a, b, j);
      RowComposes(rows[j], Left(rows, a, j), Left(RowsAfter(rows, a, |rows|), b, j));
    }
  }

  lemma {:induction false} SomethingOwed(s: State, n: nat)
    requires n <= |s.installments| && OwedBefore(s.installments, n) > 0
    ensures AnyOpen(s)
  {
    if Owed(s.installments[n - 1]) <= 0 {
      SomethingOwed(s, n - 1);
    }
  }

  lemma AccountsAgree(s: State, t: State, u: State, v: State)
    requires forall k | 0 <= k < |s.accounts| :: Follows(s, t, k) && Follows(t, u, k) && Follows(s, v, k)
    requires u.installments == v.installments && |u.accounts| == |v.accounts| == |s.accounts|
    ensures u.accounts == v.accounts
  {
    forall k | 0 <= k < |s.accounts|
      ensures u.accounts[k] == v.accounts[k]
    {
      FollowsOn(s, t, u, k);
      FollowersAgree(s, u, v, k);
    }
  }

  lemma AccountsCompose(s: State, t: State, a: int, b: int, n: nat)
    requires InstallmentsFit(s) && n == |s.installments| && t == Walk(s, a, n).state
    requires Walk(t, b, n).state.installments == Walk(s, a + b, n).state.installments
    ensures Walk(t, b, n).state.accounts == Walk(s, a + b, n).state.accounts
  {
    SameAccountCount(s, a, n);
    SameAccountCount(t, b, n);
    SameAccountCount(s, a + b, n);
    forall k | 0 <= k < |s.accounts|
      ensures Follows(s, t, k) && Follows(t, Walk(t, b, n).state, k) && Follows(s, Walk(s, a + b, n).state, k)
    {
      AccountsFollowInstallments(s, a, n, k);
      AccountsFollowInstallments(t, b, n, k);
      AccountsFollowInstallments(s, a + b, n, k);
    }
    AccountsAgree(s, t, Walk(t, b, n).state, Walk(s, a + b, n).state);
  }

  lemma {:induction false} SameAccountCount(s: State, amount: int, n: nat)
    requires InstallmentsFit(s) && n <= |s.installments|
    ensures |Walk(s, amount, n).state.accounts| == |s.accounts|
  {
    if n > 0 {
      SameAccountCount(s, amount, n - 1);
    }
  }

  lemma RowsOfWalksCompose(s: State, t: State, a: int, b: int, n: nat)
    requires InstallmentsFit(s) && NoOverpaid(s) && 0 <= a < TotalOwed(s) && b >= 0
    requires n == |s.installments| && t == Walk(s, a, n).state
    ensures Walk(t, b, n).state.installments == Walk(s, a + b, n).state.installments
    ensures Walk(t, b, n).remaining == Walk(s, a + b, n).remaining
  {
    var rows := s.installments;
    OpenOwed(s);
    WholeWalkOnRows(s, a, n);
    WholeWalkOnRows(t, b, n);
    WholeWalkOnRows(s, a + b, n);
    RowsCompose(rows, a, b);
    LeftAddsUp(rows, a, b, n);
    LeftAfterDue(rows, a, n);
  }

  lemma WalksCompose(s: State, t: State, a: int, b: int, n: nat)
    requires InstallmentsFit(s) && NoOverpaid(s) && 0 <= a < TotalOwed(s) && b >= 0
    requires n == |s.installments| && t == Walk(s, a, n).state
    ensures Walk(t, b, n).state.installments == Walk(s, a + b, n).state.installments
    ensures Walk(t, b, n).state.accounts == Walk(s, a + b, n).state.accounts
    ensures Walk(t, b, n).remaining == Walk(s, a + b, n).remaining
  {
    RowsOfWalksCompose(s, t, a, b, n);
    AccountsCompose(s, t, a, b, n);
  }

  lemma FirstLeavesWork(s: State, a: int)
    requires InstallmentsFit(s) && NoOverpaid(s) && AnyOpen(s) && 0 <= a < TotalOwed(s)
    ensures var t := PayAhead(s, a).value.state;
            && t == Walk(s, a, |s.installments|).state && AnyOpen(t) && InstallmentsFit(t) && NoOverpaid(t)
            && t.installments == RowsAfter(s.installments, a, |s.installments|)
  {
    var n := |s.installments|;
    OpenOwed(s);
    PayAheadOnRows(s, a);
    OwedAfter(s.installments, a, n);
    RowsStillSound(s.installments, a);
    SomethingOwed(PayAhead(s, a).value.state, n);
  }

  /**
   * Paying ahead `a`, short of the total owed, and then `b` leaves the same installments, the same phase
   * accounts and the same credit as paying `a + b` at once.
   */
  lemma PayAheadComposes(s: State, a: int, b: int)
    requires InstallmentsFit(s) && NoOverpaid(s) && 0 <= a < TotalOwed(s) && b >= 0
    ensures AnyOpen(s) && AnyOpen(PayAhead(s, a).value.state)
    ensures var twice, once := PayAhead(PayAhead(s, a).value.state, b).value, PayAhead(s, a + b).value;
            && twice.state.installments == once.state.installments
            && twice.state.accounts == once.state.accounts
            && twice.remaining == once.remaining
  {
    OpenOwed(s);
    SomethingOwed(s, |s.installments|);
    FirstLeavesWork(s, a);
    WalksCompose(s, PayAhead(s, a).value.state, a, b, |s.installments|);
  }

  /** If money reaches an installment, every open one due earlier has been settled. */
  lemma EarlierDueFirst(s: State, amount: int, i: nat, j: nat)
    requires InstallmentsFit(s) && NoOverpaid(s) && AnyOpen(s) && amount >= 0
    requires ByDueDate(s.installments) && i < |s.installments| && j < |s.installments|
    requires Open(s.installments[i]) && s.installments[i].dueDate < s.installments[j].dueDate
    requires PayAhead(s, amount).value.state.installments[j] != s.installments[j]
    ensures PayAhead(s, amount).value.state.installments[i]
         == s.installments[i].(paid := s.installments[i].amount, status := Paid)
  {
    GreedyByDueDate(s, amount, i);
    GreedyByDueDate(s, amount, j);
    OpenOwed(s);
    assert i < j;
    OwedMonotone(s.installments, i, i + 1);
    OwedMonotone(s.installments, i + 1, j);
  }

  // ---------------------------------------------------------------- negative payments

  /**
   * With an overpaid open installment `i` (and none before it), pay-ahead creates a negative payment exactly
   * when the amount exceeds what is owed before `i`.
   */
  lemma NegativePaymentIff(s: State, amount: int, i: nat)
    requires InstallmentsFit(s) && NoNegative(s) && amount >= 0 && i < |s.installments|
    requires NoneOverpaid(s.installments, i) && Owed(s.installments[i]) < 0
    ensures NoNegative(PayAhead(s, amount).value.state) <==> amount <= OwedBefore(s.installments, i)
  {
    var n := |s.installments|;
    assert Open(s.installments[i]);
    WalkOnRows(s, amount, i);
    LeftAfterDue(s.installments, amount, i);
    if amount <= OwedBefore(s.installments, i) {
      forall k | 0 <= k < i && Open(s.installments[k])
        ensures s.installments[k].paid <= s.installments[k].amount
      {
        assert Owed(s.installments[k]) >= 0;
      }
      WalkKeepsNoNegative(s, amount, i);
      WalkStops(s, amount, i, n);
    } else {
      var w := Walk(s, amount, i);
      RowAhead(s, amount, i);
      var t := Walk(s, amount, i + 1).state;
      assert t.payments[|w.state.payments|].amount < 0;
      PaymentsGrow(s, amount, i + 1, n);
      assert PayAhead(s, amount).value.state.payments[|w.state.payments|].amount < 0;
    }
  }

  lemma {:induction false} PaymentsGrow(s: State, amount: int, m: nat, n: nat)
    requires InstallmentsFit(s) && m <= n <= |s.installments|
    ensures Walk(s, amount, m).state.payments <= Walk(s, amount, n).state.payments
  {
    if m < n {
      PaymentsGrow(s, amount, m, n - 1);
      PayRowSpends(Walk(s, amount, n - 1), n - 1);
    }
  }
}
