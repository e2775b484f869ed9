/** When each call of the phase workflow is taken and what it leaves in every row, told without its own functions. */
module WorkflowOutcomes {
  import opened Common
  import opened PhaseWorkflow
  import R = Registry
  import A = ApplicationCompletion

  /** Phase `k` gets a status, every other phase keeps its own, and `current` is the phase pointed at. */
  predicate OnlyChanged(b: Board, t: Board, k: nat, status: PhaseStatus, current: Option<nat>) {
    && |t.statuses| == |b.statuses| && k < |b.statuses| && t.statuses[k] == status && t.current == current
    && forall i | 0 <= i < |b.statuses| && i != k :: t.statuses[i] == b.statuses[i]
  }

  /** Phase `k` is COMPLETED, the one after it IN_PROGRESS and pointed at, if there is one; all others are untouched. */
  predicate HandedOver(b: Board, t: Board, k: nat) {
    && |t.statuses| == |b.statuses| && k < |b.statuses| && t.statuses[k] == Completed
    && (k + 1 < |b.statuses| ==> t.statuses[k + 1] == InProgress && t.current == Some(k + 1))
    && (k + 1 == |b.statuses| ==> t.current == b.current)
    && forall i | 0 <= i < |b.statuses| && i != k && i != k + 1 :: t.statuses[i] == b.statuses[i]
  }

  // ---------------------------------------------------------------- submission

  /** SUBMIT takes a draft to PENDING and starts its first phase; the board is left alone if that phase has begun. */
  lemma SubmissionStartsFirstPhase(p: A.Progress)
    requires p.status == R.Draft
    ensures A.Move(p, R.Submit).status == R.Pending
    ensures |p.board.statuses| > 0 && p.board.statuses[0] == Pending ==>
              OnlyChanged(p.board, A.Move(p, R.Submit).board, 0, InProgress, Some(0))
    ensures |p.board.statuses| == 0 || p.board.statuses[0] != Pending ==> A.Move(p, R.Submit).board == p.board
  {}

  /** No other transition touches a phase, and a transition that the status does not allow changes nothing. */
  lemma OtherTransitionsLeavePhases(p: A.Progress, trigger: R.Trigger)
    ensures trigger != R.Submit || p.status != R.Draft ==> A.Move(p, trigger).board == p.board
    ensures R.GetNextState(p.status, trigger).None? ==> A.Move(p, trigger) == p
    ensures R.GetNextState(p.status, trigger).Some? ==>
              A.Move(p, trigger).status == R.GetNextState(p.status, trigger).value
  {}

  /** The transitions there are: a draft is submitted, a pending application decided, an active one ended four ways. */
  lemma TransitionsIff(from: R.ApplicationStatus, trigger: R.Trigger, to: R.ApplicationStatus)
    ensures R.GetNextState(from, trigger) == Some(to)
       <==> || (from == R.Draft && ((trigger == R.Submit && to == R.Pending)
                                    || (trigger == R.Cancel && to == R.Cancelled)))
            || (from == R.Pending && ((trigger == R.Approve && to == R.Active)
                                      || (trigger in {R.Reject, R.Cancel} && to == R.Cancelled)))
            || (from == R.Active && ((trigger == R.Complete && to == R.Completed)
                                     || (trigger == R.Terminate && to == R.Terminated)
                                     || (trigger == R.Transfer && to == R.Transferred)
                                     || (trigger == R.Supersede && to == R.Superseded)))
            || (from == R.Superseded && ((trigger == R.Transfer && to == R.Transferred)
                                         || (trigger == R.Cancel && to == R.Cancelled)))
  {}

  // ---------------------------------------------------------------- the calls

  lemma ActivationOutcome(phases: seq<Phase>, b: Board, k: nat)
    requires |phases| == |b.statuses|
    ensures var r := ActivatePhase(phases, b, k);
            && (r.Ok? <==> && k < |phases| && b.statuses[k] == Pending
                           && (phases[k].requiresPrevious && k > 0 ==> b.statuses[k - 1] in {Completed, Superseded}))
            && (r.Err? ==> (r.error == NotFound <==> k >= |phases|) && r.error in {NotFound, BadRequest})
            && (r.Ok? && phases[k].category == Documentation ==> OnlyChanged(b, r.value, k, InProgress, Some(k)))
            && (r.Ok? && phases[k].category != Documentation ==> OnlyChanged(b, r.value, k, Active, Some(k)))
  {}

  lemma AnswersOutcome(phases: seq<Phase>, b: Board, k: nat, autoComplete: bool)
    requires |phases| == |b.statuses|
    ensures var r := Answer(phases, b, k, autoComplete);
            && (r.Ok? <==> k < |phases| && phases[k].category == Questionnaire && b.statuses[k] == InProgress)
            && (r.Err? ==> (r.error == NotFound <==> k >= |phases|) && r.error in {NotFound, BadRequest})
            && (r.Ok? && autoComplete ==> HandedOver(b, r.value, k))
            && (r.Ok? && !autoComplete ==> OnlyChanged(b, r.value, k, AwaitingApproval, b.current))
  {}

  lemma ReviewOutcome(phases: seq<Phase>, b: Board, k: nat, approve: bool)
    requires |phases| == |b.statuses|
    ensures var r := Review(phases, b, k, approve);
            && (r.Ok? <==> k < |phases| && phases[k].category == Questionnaire && b.statuses[k] == AwaitingApproval)
            && (r.Err? ==> (r.error == NotFound <==> k >= |phases|) && r.error in {NotFound, BadRequest})
            && (r.Ok? && approve ==> HandedOver(b, r.value, k))
            && (r.Ok? && !approve ==> OnlyChanged(b, r.value, k, Failed, b.current))
  {}

  lemma ManualCompletionOutcome(phases: seq<Phase>, b: Board, k: nat, openItems: nat)
    requires |phases| == |b.statuses|
    ensures var r := CompletePhase(phases, b, k, openItems);
            && (r.Ok? <==> && k < |phases| && b.statuses[k] != Completed
                           && (phases[k].category in {Payment, Documentation} ==> openItems == 0))
            && (r.Err? ==> (r.error == NotFound <==> k >= |phases|) && r.error in {NotFound, BadRequest})
            && (r.Ok? ==> OnlyChanged(b, r.value, k, Completed, b.current))
            && (r.Ok? ==> (AllDone(r.value)
                           <==> forall i | 0 <= i < |phases| && i != k :: b.statuses[i] in {Completed, Skipped}))
  {
    var r := CompletePhase(phases, b, k, openItems);
    if r.Ok? {
      assert forall i | 0 <= i < |phases| && i != k :: r.value.statuses[i] == b.statuses[i];
    }
  }

  lemma ReopeningOutcome(b: Board, k: nat, reset: bool)
    ensures var r := ReopenPhase(b, k, reset);
            && (r.Ok? <==> k < |b.statuses| && b.statuses[k] == Completed)
            && (r.Err? ==> (r.error == NotFound <==> k >= |b.statuses|) && r.error in {NotFound, BadRequest})
            && (r.Ok? && !reset ==> OnlyChanged(b, r.value, k, InProgress, Some(k)))
            && (r.Ok? ==> && |r.value.statuses| == |b.statuses| && r.value.current == Some(k)
                          && r.value.statuses[k] == InProgress
                          && (forall i | 0 <= i < k :: r.value.statuses[i] == b.statuses[i])
                          && (reset ==> forall i | k < i < |b.statuses| :: r.value.statuses[i] == Pending))
  {}

  lemma OtherCallsOutcome(phases: seq<Phase>, b: Board, k: nat)
    requires |phases| == |b.statuses|
    ensures k < |phases| ==> HandedOver(b, Next(phases, b, PayOff(k)), k)
    ensures k < |phases| ==> HandedOver(b, Next(phases, b, FinishDocumentation(k)), k)
    ensures k < |phases| ==> OnlyChanged(b, Next(phases, b, Settle(k)), k, Completed, b.current)
    ensures SkipPhase(b, k).Ok? <==> k < |phases| && b.statuses[k] == Pending
    ensures SkipPhase(b, k).Err? ==> SkipPhase(b, k).error == if k >= |phases| then NotFound else BadRequest
    ensures RevertApproval(phases, b, k).Err? ==>
              RevertApproval(phases, b, k).error == if k >= |phases| then NotFound else BadRequest
    ensures SettlePhase(b, k).Err? ==> SettlePhase(b, k).error == NotFound
    ensures SkipPhase(b, k).Ok? ==> OnlyChanged(b, Next(phases, b, Skip(k)), k, Skipped, b.current)
    ensures k < |phases| && phases[k].category == Documentation && b.statuses[k] == Completed ==>
              OnlyChanged(b, Next(phases, b, Revert(k)), k, InProgress, b.current)
    ensures k >= |phases| || phases[k].category != Documentation || b.statuses[k] != Completed ==>
              Next(phases, b, Revert(k)) == b
    ensures k >= |phases| ==> Next(phases, b, PayOff(k)) == Next(phases, b, FinishDocumentation(k))
                              == Next(phases, b, Settle(k)) == Next(phases, b, Skip(k)) == b
  {}

  /** The two ends that look for the last phase hand over like the others, or complete the application. */
  lemma EndsOutcome(p: A.Progress, k: nat)
    requires k < |p.board.statuses|
    ensures HandedOver(p.board, A.EndStages(p, k).board, k)
    ensures A.EndStages(p, k).status == if k + 1 == |p.board.statuses| then R.Completed else p.status
    ensures A.CompleteAndActivateNext(p, k).status == A.EndStages(p, k).status
    ensures A.CompleteAndActivateNext(p, k).board.statuses == A.EndStages(p, k).board.statuses
    ensures A.CompleteAndActivateNext(p, k).board.current == if k + 1 == |p.board.statuses| then None else Some(k + 1)
  {}

  /** As events: the end of the stages leaves `currentPhaseId` on the last phase, the payment event clears it. */
  lemma EndEventsOutcome(phases: seq<Phase>, p: A.Progress, k: nat)
    requires |phases| == |p.board.statuses|
    ensures k < |phases| ==> HandedOver(p.board, A.Next(phases, p, A.StagesEnded(k)).board, k)
    ensures k + 1 == |phases| ==>
              && A.Next(phases, p, A.StagesEnded(k)).board.current == p.board.current
              && A.Next(phases, p, A.PaymentPhaseCompleted(k)).board.current.None?
              && A.Next(phases, p, A.StagesEnded(k)).status == R.Completed
              && A.Next(phases, p, A.PaymentPhaseCompleted(k)).status == R.Completed
    ensures k + 1 < |phases| ==> A.Next(phases, p, A.StagesEnded(k)) == A.Next(phases, p, A.PaymentPhaseCompleted(k))
    ensures k >= |phases| ==> A.Next(phases, p, A.StagesEnded(k)) == A.Next(phases, p, A.PaymentPhaseCompleted(k)) == p
    ensures A.Next(phases, p, A.Signed) == p.(status := R.Active)
    ensures A.Next(phases, p, A.Closed(R.Cancelled)) == p.(status := R.Cancelled)
    ensures A.Next(phases, p, A.Closed(R.Terminated)) == p.(status := R.Terminated)
    ensures A.Next(phases, p, A.Closed(R.Transferred)) == p.(status := R.Transferred)
    ensures A.Next(phases, p, A.Closed(R.Superseded)) == p.(status := R.Superseded)
  {}

  // ---------------------------------------------------------------- a whole application

  /** Phases 0 to `m` - 1 paid off one after the other. */
  function PayOffs(m: nat): seq<Step> {
    if m == 0 then [] else PayOffs(m - 1) + [PayOff(m - 1)]
  }

  lemma {:induction false} RunAppend(phases: seq<Phase>, b: Board, steps: seq<Step>, step: Step)
    requires |phases| == |b.statuses|
    ensures Run(phases, b, steps + [step]) == Next(phases, Run(phases, b, steps), step)
    decreases |steps|
  {
    if steps == [] {
      assert [step][1..] == [];
      assert Run(phases, b, [step]) == Run(phases, Next(phases, b, step), []);
    } else {
      assert (steps + [step])[0] == steps[0] && (steps + [step])[1..] == steps[1..] + [step];
      RunAppend(phases, Next(phases, b, steps[0]), steps[1..], step);
    }
  }

  /** Submitted and paid off phase by phase, the application always stands at the next phase, which is pointed at. */
  lemma {:induction false} PhaseByPhase(phases: seq<Phase>, b: Board, m: nat)
    requires |phases| == |b.statuses| && m < |phases|
    requires forall i | 0 <= i < |phases| :: b.statuses[i] == Pending
    ensures var t := Run(phases, b, [Submit] + PayOffs(m));
            && t.current == Some(m) && t.statuses[m] == InProgress
            && (forall i | 0 <= i < m :: t.statuses[i] == Completed)
            && (forall i | m < i < |phases| :: t.statuses[i] == Pending)
  {
    if m == 0 {
      assert [Submit] + PayOffs(0) == [] + [Submit];
      RunAppend(phases, b, [], Submit);
    } else {
      PhaseByPhase(phases, b, m - 1);
      assert [Submit] + PayOffs(m) == ([Submit] + PayOffs(m - 1)) + [PayOff(m - 1)];
      RunAppend(phases, b, [Submit] + PayOffs(m - 1), PayOff(m - 1));
    }
  }
}
