/** Payment rows, and the installments and phases they name. */
module Payments {
  import opened Common

  datatype PaymentStatus = Initiated | Pending | Completed | Failed | Refunded

  datatype Payment = Payment(installment: Option<nat>, phase: Option<nat>, amount: int, status: PaymentStatus)

  /** What a payment can be credited to. */
  datatype Key = InstallmentKey(id: nat) | PhaseKey(id: nat)

  predicate Names(p: Payment, key: Key) {
    match key
    case InstallmentKey(id) => p.installment == Some(id)
    case PhaseKey(id) => p.phase == Some(id)
  }

  function Share(p: Payment, key: Key): int {
    if p.status == Completed && Names(p, key) then p.amount else 0
  }

  /** The completed payments that name a row, added up. */
  function PaidOn(payments: seq<Payment>, key: Key): int {
    if payments == [] then 0
    else PaidOn(payments[..|payments| - 1], key) + Share(payments[|payments| - 1], key)
  }

  lemma PaidOnAppend(payments: seq<Payment>, p: Payment, key: Key)
    ensures PaidOn(payments + [p], key) == PaidOn(payments, key) + Share(p, key)
  {
    assert (payments + [p])[..|payments|] == payments;
  }

  lemma {:induction false} PaidOnUpdate(payments: seq<Payment>, i: nat, p: Payment, key: Key)
    requires i < |payments|
    ensures PaidOn(payments[i := p], key) == PaidOn(payments, key) - Share(payments[i], key) + Share(p, key)
  {
    var last := |payments| - 1;
    if i < last {
      PaidOnUpdate(payments[..last], i, p, key);
      assert payments[i := p][..last] == payments[..last][i := p];
    } else {
      assert payments[i := p][..last] == payments[..last];
    }
  }

  /** With no negative amount around, the sum is at least any one of its parts. */
  lemma {:induction false} PaidOnAtLeast(payments: seq<Payment>, i: nat, key: Key)
    requires i <= |payments| && forall j | 0 <= j < |payments| :: payments[j].amount >= 0
    ensures PaidOn(payments, key) >= if i < |payments| then Share(payments[i], key) else 0
  {
    if payments != [] {
      var last := |payments| - 1;
      PaidOnAtLeast(payments[..last], if i < last then i else last, key);
    }
  }
}
