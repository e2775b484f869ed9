/**
 * How an application gets completed along with its phases. Four services end phases: some of their calls look
 * whether it was the last one and complete the application, others do not.
 */
module ApplicationCompletion {
  import opened Common
  import W = PhaseWorkflow
  import R = Registry
  import L = Ledger
  import C = CompletionLaws

  datatype Progress = Progress(board: W.Board, status: R.ApplicationStatus)

  datatype Event =
    | PhaseCall(step: W.Step)
    | StagesEnded(phase: nat)
    | PaymentPhaseCompleted(phase: nat)
    | Transition(trigger: R.Trigger)
    | Signed
    | Closed(reason: R.ApplicationStatus)

  // ---------------------------------------------------------------- what one event does

  /** The last approval stage of a documentation phase ends: the next phase starts, or the application is completed. */
  function EndStages(p: Progress, k: nat): Progress
    requires k < |p.board.statuses|
  {
    Progress(W.Advance(p.board, k), if k + 1 < |p.board.statuses| then p.status else R.Completed)
  }

  /** PAYMENT_PHASE_COMPLETED: the same for a phase that may be completed already; at the end no phase is current. */
  function CompleteAndActivateNext(p: Progress, k: nat): Progress
    requires k < |p.board.statuses|
  {
    var ended := EndStages(p, k);
    if k + 1 < |p.board.statuses| then ended else ended.(board := ended.board.(current := None))
  }

  function Move(p: Progress, trigger: R.Trigger): Progress {
    match R.GetNextState(p.status, trigger)
    case None => p
    case Some(status) =>
      Progress(if trigger == R.Submit && status == R.Pending then W.StartFirst(p.board) else p.board, status)
  }

  /** `complete` is the one call of the phase service that looks at the other phases. */
  predicate CompletesByHand(phases: seq<W.Phase>, b: W.Board, step: W.Step)
    requires |phases| == |b.statuses|
  {
    && step.CompleteManually? && W.CompletePhase(phases, b, step.phase, step.openItems).Ok?
    && W.AllDone(W.Next(phases, b, step))
  }

  /** One event; a refused call changes nothing. */
  function Next(phases: seq<W.Phase>, p: Progress, e: Event): (after: Progress)
    requires |phases| == |p.board.statuses|
    ensures |after.board.statuses| == |phases|
  {
    match e
    case PhaseCall(step) =>
      Progress(W.Next(phases, p.board, step), if CompletesByHand(phases, p.board, step) then R.Completed else p.status)
    case StagesEnded(k) => if k < |phases| then EndStages(p, k) else p
    case PaymentPhaseCompleted(k) => if k < |phases| then CompleteAndActivateNext(p, k) else p
    case Transition(trigger) => Move(p, trigger)
    case Signed => p.(status := R.Active)
    case Closed(reason) => if Ends(reason) then p.(status := reason) else p
  }

  /** What other services make of an application: cancelled, terminated, transferred or superseded. */
  predicate Ends(status: R.ApplicationStatus) {
    status in {R.Cancelled, R.Terminated, R.Transferred, R.Superseded}
  }

  function Run(phases: seq<W.Phase>, p: Progress, events: seq<Event>): (after: Progress)
    requires |phases| == |p.board.statuses|
    ensures |after.board.statuses| == |phases|
    decreases |events|
  {
    if events == [] then p else Run(phases, Next(phases, p, events[0]), events[1..])
  }

  // ---------------------------------------------------------------- the board

  /** Both events keep the frontier under the very condition under which any automatic completion does. */
  lemma EventsKeepFrontierIff(p: Progress, c: nat, k: nat)
    requires W.FrontierAt(p.board, c) && k < |p.board.statuses|
    ensures var kept := k == c || k + 1 == c || (k + 2 == c && W.NothingUnderWay(p.board, c));
            && (W.Frontier(EndStages(p, k).board) <==> kept)
            && (W.Frontier(CompleteAndActivateNext(p, k).board) <==> kept)
  {
    W.AdvanceKeepsFrontierIff(p.board, c, k);
    var b, t := W.Advance(p.board, k), CompleteAndActivateNext(p, k).board;
    if k + 1 == |b.statuses| {
      if W.Frontier(b) {
        assert W.FrontierAt(t, |t.statuses|);
      } else {
        W.NotAFrontier(t, c, k);
      }
    }
  }

  // ---------------------------------------------------------------- applications left behind

  predicate AllCompleted(b: W.Board) {
    forall i | 0 <= i < |b.statuses| :: b.statuses[i] == W.Completed
  }

  /** Every phase is COMPLETED, and the application still goes on. */
  predicate Stranded(p: Progress) {
    AllCompleted(p.board) && R.Busy(p.status)
  }

  /** All phases but `k` are COMPLETED. */
  predicate OnlyOneLeft(b: W.Board, k: nat) {
    forall i | 0 <= i < |b.statuses| && i != k :: b.statuses[i] == W.Completed
  }

  /** The call completes phase `k` without looking whether it is the last. */
  predicate EndsSilently(phases: seq<W.Phase>, b: W.Board, step: W.Step, k: nat)
    requires |phases| == |b.statuses|
  {
    match step
    case AnswerQuestionnaire(j, auto) => j == k && auto && W.Answer(phases, b, k, auto).Ok?
    case ReviewQuestionnaire(j, approve) => j == k && approve && W.Review(phases, b, k, approve).Ok?
    case FinishDocumentation(j) => j == k
    case PayOff(j) => j == k
    case _ => false
  }

  /** What leaves an application behind: a silent end of the last open phase, or the signing of one that had ended. */
  predicate Strands(phases: seq<W.Phase>, p: Progress, e: Event)
    requires |phases| == |p.board.statuses| > 0
  {
    || (e.PhaseCall? && R.Busy(p.status) && EndsLastOpen(phases, p.board, e.step))
    || (e.Signed? && !R.Busy(p.status) && AllCompleted(p.board))
  }

  /** Settling a phase looks neither for the end nor for the next phase, so any phase can be the last one open. */
  predicate EndsLastOpen(phases: seq<W.Phase>, b: W.Board, step: W.Step)
    requires |phases| == |b.statuses| > 0
  {
    if step.Settle? then step.phase < |phases| && OnlyOneLeft(b, step.phase)
    else OnlyOneLeft(b, |phases| - 1) && EndsSilently(phases, b, step, |phases| - 1)
  }

  lemma LastCompleted(b: W.Board, k: nat, status: W.PhaseStatus)
    requires k < |b.statuses|
    ensures AllCompleted(b.(statuses := b.statuses[k := status]))
       <==> status == W.Completed && OnlyOneLeft(b, k)
  {
    var t := b.(statuses := b.statuses[k := status]);
    assert t.statuses[k] == status;
    assert forall i | 0 <= i < |b.statuses| && i != k :: t.statuses[i] == b.statuses[i];
  }

  lemma AdvanceCompletesAllIff(b: W.Board, k: nat)
    requires k < |b.statuses|
    ensures AllCompleted(W.Advance(b, k)) <==> k == |b.statuses| - 1 && OnlyOneLeft(b, k)
  {
    var t := W.Advance(b, k);
    if k + 1 < |b.statuses| {
      assert t.statuses[k + 1] == W.InProgress;
    } else {
      LastCompleted(b, k, W.Completed);
    }
  }

  lemma CallCompletesAllIff(phases: seq<W.Phase>, b: W.Board, step: W.Step)
    requires |phases| == |b.statuses| > 0 && !AllCompleted(b)
    ensures AllCompleted(W.Next(phases, b, step))
       <==> || EndsLastOpen(phases, b, step)
            || (step.CompleteManually? && W.CompletePhase(phases, b, step.phase, step.openItems).Ok?
                && AllCompleted(W.Next(phases, b, step)))
  {
    match step
    case AnswerQuestionnaire(k, auto) =>
      if W.Answer(phases, b, k, auto).Ok? {
        AdvanceCompletesAllIff(b, k);
        LastCompleted(b, k, W.AwaitingApproval);
      }
    case ReviewQuestionnaire(k, approve) =>
      if W.Review(phases, b, k, approve).Ok? {
        AdvanceCompletesAllIff(b, k);
        LastCompleted(b, k, W.Failed);
      }
    case FinishDocumentation(k) =>
      if k < |phases| {
        AdvanceCompletesAllIff(b, k);
      }
    case PayOff(k) =>
      if k < |phases| {
        AdvanceCompletesAllIff(b, k);
      }
    case Activate(k) =>
      if W.ActivatePhase(phases, b, k).Ok? {
        LastCompleted(b, k, W.Active);
        LastCompleted(b, k, W.InProgress);
      }
    case Submit => LastCompleted(b, 0, W.InProgress);
    case Reopen(k, reset) =>
      if W.ReopenPhase(b, k, reset).Ok? {
        assert W.ReopenPhase(b, k, reset).value.statuses[k] == W.InProgress;
      }
    case Settle(k) =>
      if k < |phases| {
        LastCompleted(b, k, W.Completed);
      }
    case Skip(k) =>
      if W.SkipPhase(b, k).Ok? {
        LastCompleted(b, k, W.Skipped);
      }
    case Revert(k) =>
      if W.RevertApproval(phases, b, k).Ok? {
        LastCompleted(b, k, W.InProgress);
      }
    case CompleteManually(_, _) =>
  }

  /** Re-running a call on a board that is all completed changes it, or leaves it all completed. */
  lemma CompletedBoardStays(phases: seq<W.Phase>, b: W.Board, step: W.Step)
    requires |phases| == |b.statuses| > 0 && AllCompleted(b)
    ensures !CompletesByHand(phases, b, step)
    ensures AllCompleted(W.Next(phases, b, step)) <==> !Restarts(phases, step)
  {
    assert b.statuses[0] == W.Completed;
    match step
    case Revert(k) =>
      if W.RevertApproval(phases, b, k).Ok? {
        LastCompleted(b, k, W.InProgress);
      }
    case FinishDocumentation(k) =>
      if k < |phases| {
        AdvanceCompletesAllIff(b, k);
      }
    case PayOff(k) =>
      if k < |phases| {
        AdvanceCompletesAllIff(b, k);
      }
    case Reopen(k, reset) =>
      if k < |phases| {
        assert W.ReopenPhase(b, k, reset).value.statuses[k] == W.InProgress;
      }
    case _ =>
  }

  /** A call that puts some phase of an all-completed board back in progress. */
  predicate Restarts(phases: seq<W.Phase>, step: W.Step) {
    match step
    case FinishDocumentation(k) => k + 1 < |phases|
    case PayOff(k) => k + 1 < |phases|
    case Reopen(k, _) => k < |phases|
    case Revert(k) => k < |phases| && phases[k].category == W.Documentation
    case _ => false
  }

  /**
   * For every event, whatever the phases are: it leaves an application behind exactly when it ends the last open
   * phase by a call that does not look for the end, or makes an ended application active by signing it.
   */
  lemma StrandsIff(phases: seq<W.Phase>, p: Progress, e: Event)
    requires |phases| == |p.board.statuses| > 0 && !Stranded(p)
    ensures Stranded(Next(phases, p, e)) <==> Strands(phases, p, e)
  {
    match e
    case PhaseCall(step) =>
      if R.Busy(p.status) {
        CallCompletesAllIff(phases, p.board, step);
      }
    case StagesEnded(k) =>
      if k < |phases| {
        AdvanceCompletesAllIff(p.board, k);
      }
    case PaymentPhaseCompleted(k) =>
      if k < |phases| {
        AdvanceCompletesAllIff(p.board, k);
      }
    case Transition(trigger) =>
      LastCompleted(p.board, 0, W.InProgress);
    case Signed =>
    case Closed(_) =>
  }

  predicate NeverStrands(phases: seq<W.Phase>, p: Progress, events: seq<Event>)
    requires |phases| == |p.board.statuses| > 0
    decreases |events|
  {
    events == [] || (!Strands(phases, p, events[0]) && NeverStrands(phases, Next(phases, p, events[0]), events[1..]))
  }

  /** Over every run without such an event, no application is left behind. */
  lemma {:induction false} NobodyLeftBehind(phases: seq<W.Phase>, p: Progress, events: seq<Event>)
    requires |phases| == |p.board.statuses| > 0 && !Stranded(p) && NeverStrands(phases, p, events)
    ensures !Stranded(Run(phases, p, events))
    decreases |events|
  {
    if events != [] {
      StrandsIff(phases, p, events[0]);
      NobodyLeftBehind(phases, Next(phases, p, events[0]), events[1..]);
    }
  }

  // ---------------------------------------------------------------- the way out

  /** The events that complete an application left behind. */
  predicate Rescues(phases: seq<W.Phase>, p: Progress, e: Event) {
    match e
    case StagesEnded(k) => k + 1 == |phases|
    case PaymentPhaseCompleted(k) => k + 1 == |phases|
    case Transition(trigger) => trigger == R.Complete && p.status == R.Active
    case _ => false
  }

  /**
   * An application left behind is completed at once exactly by the end of the last approval stage, by the event
   * of its last payment phase, or by the COMPLETE transition of an active application; `complete` refuses.
   */
  lemma RescueIff(phases: seq<W.Phase>, p: Progress, e: Event)
    requires |phases| == |p.board.statuses| > 0 && Stranded(p)
    ensures Next(phases, p, e).status == R.Completed <==> Rescues(phases, p, e)
  {
    if e.PhaseCall? {
      CompletedBoardStays(phases, p.board, e.step);
    }
  }

  /**
   * At the frontier, paying off the last phase leaves the application behind, and `complete` is then refused for
   * every phase; the PAYMENT_PHASE_COMPLETED event of that phase completes it.
   */
  lemma PaidOffLastPhaseStrandsApplication(phases: seq<W.Phase>, p: Progress, k: nat, other: nat, openItems: nat)
    requires |phases| == |p.board.statuses| > 0 && W.Frontier(p.board) && R.Busy(p.status)
    requires k == |phases| - 1 && W.IsActive(p.board.statuses[k])
    ensures var paid := Next(phases, p, PhaseCall(W.PayOff(k)));
            && Stranded(paid) && W.CompletePhase(phases, paid.board, other, openItems).Err?
            && Next(phases, paid, PaymentPhaseCompleted(k)).status == R.Completed
  {
    var c :| W.FrontierAt(p.board, c);
    assert k == c;
    StrandsIff(phases, p, PhaseCall(W.PayOff(k)));
  }

  /** Otherwise it stays behind, exactly until a phase is put back in progress or the application is ended. */
  lemma StaysBehindIff(phases: seq<W.Phase>, p: Progress, e: Event)
    requires |phases| == |p.board.statuses| > 0 && Stranded(p) && !Rescues(phases, p, e)
    ensures Stranded(Next(phases, p, e))
       <==> match e
            case PhaseCall(step) => !Restarts(phases, step)
            case StagesEnded(k) => k >= |phases|
            case PaymentPhaseCompleted(k) => k >= |phases|
            case Transition(trigger) =>
              R.GetNextState(p.status, trigger).None? || R.Busy(R.GetNextState(p.status, trigger).value)
            case Closed(reason) => !Ends(reason)
            case Signed => true
  {
    match e
    case PhaseCall(step) => CompletedBoardStays(phases, p.board, step);
    case StagesEnded(k) =>
      if k < |phases| {
        AdvanceCompletesAllIff(p.board, k);
      }
    case PaymentPhaseCompleted(k) =>
      if k < |phases| {
        AdvanceCompletesAllIff(p.board, k);
      }
    case Transition(_) => assert p.board.statuses[0] == W.Completed;
    case Signed =>
    case Closed(_) =>
  }

  /** Reopening a phase and completing it by hand completes the application exactly when nothing later was reset. */
  lemma ReopenedRescueIff(phases: seq<W.Phase>, p: Progress, j: nat, reset: bool)
    requires |phases| == |p.board.statuses| && Stranded(p) && j < |phases|
    ensures Run(phases, p, [PhaseCall(W.Reopen(j, reset)), PhaseCall(W.CompleteManually(j, 0))]).status == R.Completed
       <==> (!reset || j == |phases| - 1)
  {
    var reopen, finish := PhaseCall(W.Reopen(j, reset)), PhaseCall(W.CompleteManually(j, 0));
    var again := Next(phases, p, reopen);
    var done := Next(phases, again, finish);
    assert [reopen, finish][1..] == [finish] && [finish][1..] == [];
    assert Run(phases, again, [finish]) == Run(phases, done, []) == done;
    if reset && j < |phases| - 1 {
      assert done.board.statuses[j + 1] == W.Pending;
    } else {
      assert forall i | 0 <= i < |phases| :: done.board.statuses[i] == W.Completed;
    }
  }

  // ---------------------------------------------------------------- completed too early

  /** All phases but the last are finished. */
  predicate BeforeLastDone(b: W.Board) {
    forall i | 0 <= i < |b.statuses| - 1 :: b.statuses[i] in {W.Completed, W.Skipped}
  }

  /**
   * An event that completes an application leaves no phase unfinished exactly when it is `complete`, an end of
   * the last phase with all before it finished, or a transition with all finished: only `complete` checks.
   */
  lemma CompletedInFullIff(phases: seq<W.Phase>, p: Progress, e: Event)
    requires |phases| == |p.board.statuses| && p.status != R.Completed && Next(phases, p, e).status == R.Completed
    ensures W.AllDone(Next(phases, p, e).board)
       <==> (e.PhaseCall? || (if e.Transition? then W.AllDone(p.board) else BeforeLastDone(p.board)))
  {
    if e.StagesEnded? || e.PaymentPhaseCompleted? {
      var t := Next(phases, p, e).board;
      assert forall i | 0 <= i < |phases| - 1 :: t.statuses[i] == p.board.statuses[i];
      assert t.statuses[|phases| - 1] == W.Completed;
    }
  }

  /**
   * At the frontier `c`, an end of the last phase that completes the application leaves no phase unfinished
   * exactly when the last phase is the frontier, or completed already.
   */
  lemma FrontierCompletesInFullIff(phases: seq<W.Phase>, p: Progress, c: nat, e: Event)
    requires |phases| == |p.board.statuses| && W.FrontierAt(p.board, c) && (e.StagesEnded? || e.PaymentPhaseCompleted?)
    requires p.status != R.Completed && Next(phases, p, e).status == R.Completed
    ensures W.AllDone(Next(phases, p, e).board) <==> c + 1 >= |phases|
  {
    CompletedInFullIff(phases, p, e);
    assert c + 1 < |phases| ==> p.board.statuses[c] !in {W.Completed, W.Skipped};
  }

  /** Neither phase has begun; the event of the second one completes the application all the same. */
  lemma CompletedTooEarly(phases: seq<W.Phase>)
    requires |phases| == 2
    ensures var p := Progress(W.Board([W.Pending, W.Pending], None), R.Active);
            && W.Frontier(p.board)
            && Next(phases, p, StagesEnded(1)) == Progress(W.Board([W.Pending, W.Completed], None), R.Completed)
  {
    assert W.FrontierAt(W.Board([W.Pending, W.Pending], None), 0);
  }

  // ---------------------------------------------------------------- adjustments

  /** What an adjustment does to the board: it settles the phase, if payments and adjustments reach its total. */
  lemma AdjustmentSettles(phases: seq<W.Phase>, s: L.State, a: L.Adjustment)
    requires |phases| == |s.board.statuses| && L.WellFormed(s) && L.Adjust(s, a).Ok?
    ensures L.Adjust(s, a).value.board
         == if ReachesTotal(s, a) then W.Next(phases, s.board, W.Settle(a.phase.value)) else s.board
  {
    C.ReachedAdjusted(s, a, if a.phase.Some? then a.phase.value else 0);
  }

  predicate ReachesTotal(s: L.State, a: L.Adjustment) {
    && L.HasAccount(s, a.phase)
    && var account := s.accounts[a.phase.value].value;
       account.paid + L.AdjustmentTotal(s.adjustments, a.phase.value)
       + (if a.direction == L.Reduction then a.amount else -a.amount) >= account.total
  }

  /**
   * An adjustment leaves an application behind exactly when it reaches the total of a phase and all others are
   * COMPLETED already; nobody is told, and `complete` is refused from then on.
   */
  lemma AdjustmentStrandsIff(phases: seq<W.Phase>, s: L.State, a: L.Adjustment, status: R.ApplicationStatus)
    requires |phases| == |s.board.statuses| > 0 && L.WellFormed(s) && L.Adjust(s, a).Ok?
    requires R.Busy(status) && !Stranded(Progress(s.board, status))
    ensures Stranded(Progress(L.Adjust(s, a).value.board, status))
       <==> ReachesTotal(s, a) && OnlyOneLeft(s.board, a.phase.value)
  {
    AdjustmentSettles(phases, s, a);
    if ReachesTotal(s, a) {
      StrandsIff(phases, Progress(s.board, status), PhaseCall(W.Settle(a.phase.value)));
    }
  }

  /** A wallet payment that settles a phase, followed by its event, amounts to the event alone. */
  lemma EventMakesUpForSettling(phases: seq<W.Phase>, p: Progress, k: nat)
    requires |phases| == |p.board.statuses| && k < |phases|
    ensures Next(phases, Next(phases, p, PhaseCall(W.Settle(k))), PaymentPhaseCompleted(k))
         == Next(phases, p, PaymentPhaseCompleted(k))
  {
    var b := p.board;
    assert b.statuses[k := W.Completed][k := W.Completed] == b.statuses[k := W.Completed];
  }

  // ---------------------------------------------------------------- the services

  /** The rows of one application that the approval workflow and the phase orchestrator update. */
  class Store {
    var statuses: seq<W.PhaseStatus>
    var currentPhase: Option<nat>
    var status: R.ApplicationStatus

    ghost function Contents(): Progress
      reads this
    {
      Progress(W.Board(statuses, currentPhase), status)
    }

    /** `completePhaseAndActivateNext` of the orchestrator; a completed phase is not marked again. */
    method CompletePhaseAndActivateNext(k: nat) returns (applicationCompleted: bool)
      requires k < |statuses|
      modifies this
      ensures Contents() == CompleteAndActivateNext(old(Contents()), k)
      ensures applicationCompleted == (k + 1 == |old(statuses)|)
    {
      if statuses[k] != W.Completed {
        statuses := statuses[k := W.Completed];
      }
      applicationCompleted := k + 1 == |statuses|;
      if applicationCompleted {
        status, currentPhase := R.Completed, None;
      } else {
        statuses := statuses[k + 1 := W.InProgress];
        currentPhase := Some(k + 1);
      }
      assert old(statuses)[k] == W.Completed ==> old(statuses)[k := W.Completed] == old(statuses);
    }

    /** `transition`, with the first phase started by SUBMIT. */
    method MoveTo(trigger: R.Trigger) returns (r: Result<()>)
      modifies this
      ensures r.Ok? <==> R.GetNextState(old(status), trigger).Some?
      ensures r.Err? ==> r.error == BadRequest
      ensures Contents() == Move(old(Contents()), trigger)
    {
      var toStatus := R.GetNextState(status, trigger);
      if toStatus.None? {
        return Err(BadRequest);
      }
      status := toStatus.value;
      if trigger == R.Submit && status == R.Pending && |statuses| > 0 && statuses[0] == W.Pending {
        statuses := statuses[0 := W.InProgress];
        currentPhase := Some(0);
      }
      return Ok(());
    }
  }
}
