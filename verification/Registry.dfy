/**
 * Applications, the units they reserve, the unit counters of the variants, and terminations. Rows are named by
 * their position in their table.
 */
module Registry {
  import opened Common
  import opened Settlement

  datatype UnitStatus = Available | Reserved | Sold | Rented | Unavailable

  datatype Unit = Unit(variant: nat, status: UnitStatus)

  datatype Counters = Counters(available: int, reserved: int, sold: int)

  datatype ApplicationStatus = Draft | Pending | Active | Completed | Cancelled | Terminated | Transferred | Superseded

  datatype Trigger = Submit | Approve | Reject | Cancel | Complete | Terminate | Transfer | Supersede

  datatype Application = Application(unit: nat, buyer: nat, status: ApplicationStatus, signedOn: Option<int>,
                                     totalAmount: real, payments: seq<Entry>)

  datatype TerminationStatus =
    | Requested | PendingReview | PendingRefund | RefundInProgress | RefundCompleted | Finished | Rejected | Withdrawn

  datatype RefundStatus = NotApplicable | RefundPending | Initiated | Refunded

  datatype Termination = Termination(application: nat, initiator: nat, status: TerminationStatus,
                                     refundStatus: RefundStatus, settlement: Amounts, executed: bool)

  datatype State = State(units: seq<Unit>, variants: seq<Counters>, applications: seq<Application>,
                         terminations: seq<Termination>)

  predicate WellFormed(s: State) {
    && (forall u | 0 <= u < |s.units| :: s.units[u].variant < |s.variants|)
    && (forall a | 0 <= a < |s.applications| :: s.applications[a].unit < |s.units|)
    && (forall t | 0 <= t < |s.terminations| :: s.terminations[t].application < |s.applications|)
  }

  // ---------------------------------------------------------------- applications

  function GetNextState(status: ApplicationStatus, trigger: Trigger): Option<ApplicationStatus> {
    match (status, trigger)
    case (Draft, Submit) => Some(Pending)
    case (Draft, Cancel) => Some(Cancelled)
    case (Pending, Approve) => Some(Active)
    case (Pending, Reject) => Some(Cancelled)
    case (Pending, Cancel) => Some(Cancelled)
    case (Active, Complete) => Some(Completed)
    case (Active, Terminate) => Some(Terminated)
    case (Active, Transfer) => Some(Transferred)
    case (Active, Supersede) => Some(Superseded)
    case (Superseded, Transfer) => Some(Transferred)
    case (Superseded, Cancel) => Some(Cancelled)
    case _ => None
  }

  predicate Busy(status: ApplicationStatus) {
    status in {Draft, Pending, Active}
  }

  predicate Duplicate(s: State, unit: nat, buyer: nat) {
    exists a | 0 <= a < |s.applications| ::
      s.applications[a].unit == unit && s.applications[a].buyer == buyer && Busy(s.applications[a].status)
  }

  /** A unit changes its status; the counters of its variant move by the amounts given. */
  function MoveUnit(s: State, u: nat, status: UnitStatus, available: int, reserved: int, sold: int): State
    requires u < |s.units| && s.units[u].variant < |s.variants|
  {
    var v := s.units[u].variant;
    var c := s.variants[v];
    s.(units := s.units[u := s.units[u].(status := status)],
       variants := s.variants[v := Counters(c.available + available, c.reserved + reserved, c.sold + sold)])
  }

  function SetApplication(s: State, a: nat, status: ApplicationStatus): State
    requires a < |s.applications|
  {
    s.(applications := s.applications[a := s.applications[a].(status := status)])
  }

  /** `create`: only an available unit, and only once per buyer; a draft may be kept unsubmitted. */
  function CreateApplication(s: State, unit: nat, buyer: nat, totalAmount: real, saveDraft: bool): Result<State>
    requires WellFormed(s)
  {
    if unit >= |s.units| then Err(NotFound)
    else if s.units[unit].status != Available then Err(BadRequest)
    else if Duplicate(s, unit, buyer) then Err(Conflict)
    else
      var reserved := MoveUnit(s, unit, Reserved, -1, 1, 0);
      Ok(reserved.(applications := s.applications
           + [Application(unit, buyer, if saveDraft then Draft else Pending, None, totalAmount, [])]))
  }

  function Move(s: State, a: nat, trigger: Trigger): Result<State> {
    if a >= |s.applications| then Err(NotFound)
    else
      match GetNextState(s.applications[a].status, trigger)
      case Some(status) => Ok(SetApplication(s, a, status))
      case None => Err(BadRequest)
  }

  /** `sign` makes the application ACTIVE whatever its status was. */
  function Sign(s: State, a: nat, user: nat, today: int): Result<State> {
    if a >= |s.applications| then Err(NotFound)
    else if s.applications[a].signedOn.Some? then Err(BadRequest)
    else if s.applications[a].buyer != user then Err(Forbidden)
    else Ok(s.(applications := s.applications[a := s.applications[a].(signedOn := Some(today), status := Active)]))
  }

  function CancelApplication(s: State, a: nat): Result<State> {
    if a >= |s.applications| then Err(NotFound)
    else if s.applications[a].status in {Completed, Cancelled} then Err(BadRequest)
    else Ok(SetApplication(s, a, Cancelled))
  }

  function RecordPayment(s: State, a: nat, amount: real): Result<State> {
    if a >= |s.applications| then Err(NotFound)
    else
      var application := s.applications[a];
      var paid := application.(payments := application.payments + [Entry(true, amount)]);
      Ok(s.(applications := s.applications[a := paid]))
  }

  /** The last phase is completed: the application is completed and its unit sold. */
  function CompleteApplication(s: State, a: nat): Result<State>
    requires WellFormed(s)
  {
    if a >= |s.applications| then Err(NotFound)
    else Ok(MoveUnit(SetApplication(s, a, Completed), s.applications[a].unit, Sold, 0, -1, 1))
  }

  // ---------------------------------------------------------------- terminations

  predicate Live(status: TerminationStatus) {
    status in {Requested, PendingReview, PendingRefund, RefundInProgress}
  }

  predicate LiveTermination(s: State, a: nat) {
    exists t | 0 <= t < |s.terminations| :: s.terminations[t].application == a && Live(s.terminations[t].status)
  }

  function SetTermination(s: State, t: nat, row: Termination): State
    requires t < |s.terminations|
  {
    s.(terminations := s.terminations[t := row])
  }

  /** `executeTermination`: the application ends, its unit is released, the record is closed. */
  function Execute(s: State, t: nat): Result<State>
    requires WellFormed(s) && t < |s.terminations|
  {
    var row := s.terminations[t];
    if row.status !in {PendingRefund, RefundCompleted, Finished} && row.refundStatus != NotApplicable
    then Err(BadRequest)
    else
      var ended := SetApplication(s, row.application, Terminated);
      var released := MoveUnit(ended, s.applications[row.application].unit, Available, 1, -1, 0);
      Ok(SetTermination(released, t, row.(status := Finished, executed := true)))
  }

  function DaysSigned(a: Application, today: int): Option<int> {
    match a.signedOn
    case Some(day) => Some(today - day)
    case None => None
  }

  function SettlementOf(a: Application, reason: TerminationType, today: int): Amounts {
    CalculateSettlement(reason, a.totalAmount, TotalPaid(a.payments), DaysSigned(a, today), DEFAULT_POLICIES)
  }

  function RefundStatusOf(a: Application, reason: TerminationType, today: int): RefundStatus {
    if TotalPaid(a.payments) > 0.0 && SettlementOf(a, reason, today).net > 0.0 then RefundPending else NotApplicable
  }

  predicate AutoApproved(a: Application) {
    a.signedOn.None? && !HasPayments(a.payments)
  }

  function Append(s: State, row: Termination): State {
    s.(terminations := s.terminations + [row])
  }

  lemma AppendWellFormed(s: State, row: Termination)
    requires WellFormed(s) && row.application < |s.applications|
    ensures WellFormed(Append(s, row))
  {}

  function RequestTermination(s: State, a: nat, user: nat, reason: TerminationType, today: int): Result<State>
    requires WellFormed(s)
  {
    if a >= |s.applications| then Err(NotFound)
    else if s.applications[a].status in {Cancelled, Terminated} then Err(BadRequest)
    else if LiveTermination(s, a) then Err(BadRequest)
    else
      var application := s.applications[a];
      var refund := RefundStatusOf(application, reason, today);
      var row := Termination(a, user, if AutoApproved(application) then PendingRefund else Requested, refund,
                             SettlementOf(application, reason, today), false);
      AppendWellFormed(s, row);
      if AutoApproved(application) && refund == NotApplicable then Execute(Append(s, row), |s.terminations|)
      else Ok(Append(s, row))
  }

  /** `adminTerminate` does not ask whether another termination is under way. */
  function AdminTerminate(s: State, a: nat, admin: nat, reason: TerminationType, bypass: bool, today: int)
    : Result<State>
    requires WellFormed(s)
  {
    if a >= |s.applications| then Err(NotFound)
    else if s.applications[a].status in {Cancelled, Terminated} then Err(BadRequest)
    else
      var application := s.applications[a];
      var refund := RefundStatusOf(application, reason, today);
      var row := Termination(a, admin, if bypass then PendingRefund else PendingReview, refund,
                             SettlementOf(application, reason, today), false);
      AppendWellFormed(s, row);
      if bypass && refund == NotApplicable then Execute(Append(s, row), |s.terminations|)
      else Ok(Append(s, row))
  }

  datatype Override = Override(refundable: Option<real>, penalty: Option<real>, forfeited: Option<real>,
                               adminFee: Option<real>)

  function Or(given: Option<real>, otherwise: real): real {
    match given
    case Some(value) => value
    case None => otherwise
  }

  function Overridden(a: Amounts, over: Override): Amounts {
    var refundable, penalty := Or(over.refundable, a.refundable), Or(over.penalty, a.penalty);
    var forfeited, adminFee := Or(over.forfeited, a.forfeited), Or(over.adminFee, a.adminFee);
    Amounts(refundable, penalty, forfeited, adminFee, MaxReal(0.0, refundable - penalty - forfeited - adminFee))
  }

  function Approved(row: Termination, over: Option<Override>): Termination {
    row.(status := if row.refundStatus != NotApplicable then PendingRefund else Finished,
         settlement := match over case Some(o) => Overridden(row.settlement, o) case None => row.settlement)
  }

  function ReviewTermination(s: State, t: nat, approve: bool, over: Option<Override>): Result<State>
    requires WellFormed(s)
  {
    if t >= |s.terminations| then Err(NotFound)
    else if s.terminations[t].status !in {Requested, PendingReview} then Err(BadRequest)
    else if !approve then Ok(SetTermination(s, t, s.terminations[t].(status := Rejected)))
    else
      var row := Approved(s.terminations[t], over);
      if row.refundStatus == NotApplicable || row.settlement.net <= 0.0 then Execute(SetTermination(s, t, row), t)
      else Ok(SetTermination(s, t, row))
  }

  function ProcessRefund(s: State, t: nat): Result<State> {
    if t >= |s.terminations| then Err(NotFound)
    else if s.terminations[t].status != PendingRefund then Err(BadRequest)
    else if s.terminations[t].settlement.net <= 0.0 then Err(BadRequest)
    else Ok(SetTermination(s, t, s.terminations[t].(status := RefundInProgress, refundStatus := Initiated)))
  }

  function CompleteRefund(s: State, t: nat, actual: Option<real>): Result<State>
    requires WellFormed(s)
  {
    if t >= |s.terminations| then Err(NotFound)
    else if s.terminations[t].status != RefundInProgress then Err(BadRequest)
    else
      var row := s.terminations[t];
      var paid := row.(status := RefundCompleted, refundStatus := Refunded,
                       settlement := row.settlement.(net := Or(actual, row.settlement.net)));
      Execute(SetTermination(s, t, paid), t)
  }

  function CancelTermination(s: State, t: nat, user: nat): Result<State> {
    if t >= |s.terminations| then Err(NotFound)
    else if s.terminations[t].status !in {Requested, PendingReview} then Err(BadRequest)
    else if s.terminations[t].initiator != user then Err(Forbidden)
    else Ok(SetTermination(s, t, s.terminations[t].(status := Withdrawn)))
  }

  // ---------------------------------------------------------------- the service

  /** The tables, updated in place by the three services. */
  class Store {
    var units: seq<Unit>
    var variants: seq<Counters>
    var applications: seq<Application>
    var terminations: seq<Termination>

    ghost function Contents(): State
      reads this
    {
      State(units, variants, applications, terminations)
    }

    ghost predicate Valid()
      reads this
    {
      WellFormed(Contents())
    }

    method Update(u: nat, status: UnitStatus, available: int, reserved: int, sold: int)
      requires Valid() && u < |units|
      modifies this`units, this`variants
      ensures Valid() && Contents() == MoveUnit(old(Contents()), u, status, available, reserved, sold)
    {
      units := units[u := units[u].(status := status)];
      var v := units[u].variant;
      var c := variants[v];
      variants := variants[v := Counters(c.available + available, c.reserved + reserved, c.sold + sold)];
    }

    method Create(unit: nat, buyer: nat, totalAmount: real, saveDraft: bool) returns (r: Result<nat>)
      requires Valid()
      modifies this
      ensures Valid()
      ensures var spec := CreateApplication(old(Contents()), unit, buyer, totalAmount, saveDraft);
              if spec.Ok? then r == Ok(|old(applications)|) && Contents() == spec.value
              else r == Err(spec.error) && Contents() == old(Contents())
    {
      if unit >= |units| {
        return Err(NotFound);
      }
      if units[unit].status != Available {
        return Err(BadRequest);
      }
      for a := 0 to |applications|
        invariant forall b | 0 <= b < a ::
          !(applications[b].unit == unit && applications[b].buyer == buyer && Busy(applications[b].status))
      {
        if applications[a].unit == unit && applications[a].buyer == buyer && Busy(applications[a].status) {
          return Err(Conflict);
        }
      }
      Update(unit, Reserved, -1, 1, 0);
      applications := applications + [Application(unit, buyer, Draft, None, totalAmount, [])];
      var a := |applications| - 1;
      if !saveDraft {
        applications := applications[a := applications[a].(status := Pending)];
      }
      return Ok(a);
    }

    method FinishApplication(a: nat) returns (r: Result<()>)
      requires Valid()
      modifies this
      ensures Valid()
      ensures var spec := CompleteApplication(old(Contents()), a);
              if spec.Ok? then r == Ok(()) && Contents() == spec.value
              else r == Err(spec.error) && Contents() == old(Contents())
    {
      if a >= |applications| {
        return Err(NotFound);
      }
      applications := applications[a := applications[a].(status := Completed)];
      Update(applications[a].unit, Sold, 0, -1, 1);
      return Ok(());
    }

    method ExecuteTermination(t: nat) returns (r: Result<()>)
      requires Valid() && t < |terminations|
      modifies this
      ensures Valid()
      ensures var spec := Execute(old(Contents()), t);
              if spec.Ok? then r == Ok(()) && Contents() == spec.value
              else r == Err(spec.error) && Contents() == old(Contents())
    {
      var row := terminations[t];
      if row.status != PendingRefund && row.status != RefundCompleted && row.status != Finished
         && row.refundStatus != NotApplicable {
        return Err(BadRequest);
      }
      applications := applications[row.application := applications[row.application].(status := Terminated)];
      Update(applications[row.application].unit, Available, 1, -1, 0);
      terminations := terminations[t := row.(status := Finished, executed := true)];
      return Ok(());
    }

    method Transition(a: nat, trigger: Trigger) returns (r: Result<()>)
      requires Valid()
      modifies this`applications
      ensures Valid()
      ensures var spec := Move(old(Contents()), a, trigger);
              if spec.Ok? then r == Ok(()) && Contents() == spec.value
              else r == Err(spec.error) && Contents() == old(Contents())
    {
      if a >= |applications| {
        return Err(NotFound);
      }
      var toStatus := GetNextState(applications[a].status, trigger);
      if toStatus.None? {
        return Err(BadRequest);
      }
      applications := applications[a := applications[a].(status := toStatus.value)];
      return Ok(());
    }

    method SignApplication(a: nat, user: nat, today: int) returns (r: Result<()>)
      requires Valid()
      modifies this`applications
      ensures Valid()
      ensures var spec := Sign(old(Contents()), a, user, today);
              if spec.Ok? then r == Ok(()) && Contents() == spec.value
              else r == Err(spec.error) && Contents() == old(Contents())
    {
      if a >= |applications| {
        return Err(NotFound);
      }
      if applications[a].signedOn.Some? {
        return Err(BadRequest);
      }
      if applications[a].buyer != user {
        return Err(Forbidden);
      }
      applications := applications[a := applications[a].(signedOn := Some(today), status := Active)];
      return Ok(());
    }

    method FindLive(a: nat) returns (found: bool)
      ensures found <==> LiveTermination(Contents(), a)
    {
      found := false;
      for t := 0 to |terminations|
        invariant found <==> exists u | 0 <= u < t :: terminations[u].application == a && Live(terminations[u].status)
      {
        if terminations[t].application == a && Live(terminations[t].status) {
          found := true;
        }
      }
    }

    /** Adds a termination and, if asked to, executes it at once; a refused execution undoes the addition. */
    method File(row: Termination, immediately: bool) returns (r: Result<()>)
      requires Valid() && row.application < |applications|
      modifies this
      ensures Valid()
      ensures var added := Append(old(Contents()), row);
              var spec := if immediately then Execute(added, |old(terminations)|) else Ok(added);
              if spec.Ok? then r == Ok(()) && Contents() == spec.value
              else r == Err(spec.error) && Contents() == old(Contents())
    {
      var before := terminations;
      terminations := terminations + [row];
      if !immediately {
        return Ok(());
      }
      r := ExecuteTermination(|terminations| - 1);
      if r.Err? {
        terminations := before;
      }
    }

    method Request(a: nat, user: nat, reason: TerminationType, today: int) returns (r: Result<()>)
      requires Valid()
      modifies this
      ensures Valid()
      ensures var spec := RequestTermination(old(Contents()), a, user, reason, today);
              if spec.Ok? then r == Ok(()) && Contents() == spec.value
              else r == Err(spec.error) && Contents() == old(Contents())
    {
      if a >= |applications| {
        return Err(NotFound);
      }
      var application := applications[a];
      if application.status == Cancelled || application.status == Terminated {
        return Err(BadRequest);
      }
      var existing := FindLive(a);
      if existing {
        return Err(BadRequest);
      }
      var autoApproveEligible := AutoApproved(application);
      var refundStatus := RefundStatusOf(application, reason, today);
      var row := Termination(a, user, if autoApproveEligible then PendingRefund else Requested, refundStatus,
                             SettlementOf(application, reason, today), false);
      r := File(row, autoApproveEligible && refundStatus == NotApplicable);
    }

    method TerminateByAdmin(a: nat, admin: nat, reason: TerminationType, bypass: bool, today: int)
      returns (r: Result<()>)
      requires Valid()
      modifies this
      ensures Valid()
      ensures var spec := AdminTerminate(old(Contents()), a, admin, reason, bypass, today);
              if spec.Ok? then r == Ok(()) && Contents() == spec.value
              else r == Err(spec.error) && Contents() == old(Contents())
    {
      if a >= |applications| {
        return Err(NotFound);
      }
      var application := applications[a];
      if application.status == Cancelled || application.status == Terminated {
        return Err(BadRequest);
      }
      var refundStatus := RefundStatusOf(application, reason, today);
      var row := Termination(a, admin, if bypass then PendingRefund else PendingReview, refundStatus,
                             SettlementOf(application, reason, today), false);
      r := File(row, bypass && refundStatus == NotApplicable);
    }

    /** Replaces a termination and, if asked to, executes it at once; a refused execution undoes the change. */
    method Save(t: nat, row: Termination, immediately: bool) returns (r: Result<()>)
      requires Valid() && t < |terminations| && row.application == terminations[t].application
      modifies this
      ensures Valid()
      ensures var saved := SetTermination(old(Contents()), t, row);
              var spec := if immediately then Execute(saved, t) else Ok(saved);
              if spec.Ok? then r == Ok(()) && Contents() == spec.value
              else r == Err(spec.error) && Contents() == old(Contents())
    {
      var before := terminations;
      terminations := terminations[t := row];
      if !immediately {
        return Ok(());
      }
      r := ExecuteTermination(t);
      if r.Err? {
        terminations := before;
      }
    }

    method Review(t: nat, approve: bool, over: Option<Override>) returns (r: Result<()>)
      requires Valid()
      modifies this
      ensures Valid()
      ensures var spec := ReviewTermination(old(Contents()), t, approve, over);
              if spec.Ok? then r == Ok(()) && Contents() == spec.value
              else r == Err(spec.error) && Contents() == old(Contents())
    {
      if t >= |terminations| {
        return Err(NotFound);
      }
      var row := terminations[t];
      if row.status != Requested && row.status != PendingReview {
        return Err(BadRequest);
      }
      if !approve {
        terminations := terminations[t := row.(status := Rejected)];
        return Ok(());
      }
      var updated := Approved(row, over);
      r := Save(t, updated, updated.refundStatus == NotApplicable || updated.settlement.net <= 0.0);
    }

    method StartRefund(t: nat) returns (r: Result<()>)
      requires Valid()
      modifies this`terminations
      ensures Valid()
      ensures var spec := ProcessRefund(old(Contents()), t);
              if spec.Ok? then r == Ok(()) && Contents() == spec.value
              else r == Err(spec.error) && Contents() == old(Contents())
    {
      if t >= |terminations| {
        return Err(NotFound);
      }
      if terminations[t].status != PendingRefund || terminations[t].settlement.net <= 0.0 {
        return Err(BadRequest);
      }
      terminations := terminations[t := terminations[t].(status := RefundInProgress, refundStatus := Initiated)];
      return Ok(());
    }

    method FinishRefund(t: nat, actual: Option<real>) returns (r: Result<()>)
      requires Valid()
      modifies this
      ensures Valid()
      ensures var spec := CompleteRefund(old(Contents()), t, actual);
              if spec.Ok? then r == Ok(()) && Contents() == spec.value
              else r == Err(spec.error) && Contents() == old(Contents())
    {
      if t >= |terminations| {
        return Err(NotFound);
      }
      var row := terminations[t];
      if row.status != RefundInProgress {
        return Err(BadRequest);
      }
      var settlement := row.settlement.(net := Or(actual, row.settlement.net));
      r := Save(t, row.(status := RefundCompleted, refundStatus := Refunded, settlement := settlement), true);
    }

    method Withdraw(t: nat, user: nat) returns (r: Result<()>)
      requires Valid()
      modifies this`terminations
      ensures Valid()
      ensures var spec := CancelTermination(old(Contents()), t, user);
              if spec.Ok? then r == Ok(()) && Contents() == spec.value
              else r == Err(spec.error) && Contents() == old(Contents())
    {
      if t >= |terminations| {
        return Err(NotFound);
      }
      if terminations[t].status != Requested && terminations[t].status != PendingReview {
        return Err(BadRequest);
      }
      if terminations[t].initiator != user {
        return Err(Forbidden);
      }
      terminations := terminations[t := terminations[t].(status := Withdrawn)];
      return Ok(());
    }
  }
}
