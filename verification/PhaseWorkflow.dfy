/**
 * The phases of one application: an ordered list of statuses and `currentPhaseId`. Orders are
 * consecutive, so a phase is named by its position and "the next phase" is the next position.
 */
module PhaseWorkflow {
  import opened Common

  datatype PhaseStatus = Pending | InProgress | AwaitingApproval | Active | Completed | Skipped | Failed | Superseded

  datatype Category = Questionnaire | Documentation | Payment | Gate

  datatype Phase = Phase(category: Category, requiresPrevious: bool)

  datatype Board = Board(statuses: seq<PhaseStatus>, current: Option<nat>)

  datatype Step =
    | Submit
    | Activate(phase: nat)
    | AnswerQuestionnaire(phase: nat, autoComplete: bool)
    | ReviewQuestionnaire(phase: nat, approve: bool)
    | FinishDocumentation(phase: nat)
    | PayOff(phase: nat)
    | CompleteManually(phase: nat, openItems: nat)
    | Reopen(phase: nat, reset: bool)
    | Settle(phase: nat)
    | Skip(phase: nat)
    | Revert(phase: nat)

  // ---------------------------------------------------------------- what one step does

  /** A phase is completed and the one after it is started, whatever its status was. */
  function Advance(b: Board, k: nat): (after: Board)
    requires k < |b.statuses|
    ensures |after.statuses| == |b.statuses|
  {
    var done := b.statuses[k := Completed];
    if k + 1 < |done| then Board(done[k + 1 := InProgress], Some(k + 1)) else Board(done, b.current)
  }

  function StartFirst(b: Board): Board {
    if |b.statuses| > 0 && b.statuses[0] == Pending then Board(b.statuses[0 := InProgress], Some(0)) else b
  }

  function ActivatePhase(phases: seq<Phase>, b: Board, k: nat): Result<Board>
    requires |phases| == |b.statuses|
  {
    if k >= |phases| then Err(NotFound)
    else if b.statuses[k] != Pending then Err(BadRequest)
    else if phases[k].requiresPrevious && k > 0 && b.statuses[k - 1] !in {Completed, Superseded} then Err(BadRequest)
    else Ok(Board(b.statuses[k := if phases[k].category == Documentation then InProgress else Active], Some(k)))
  }

  function Answer(phases: seq<Phase>, b: Board, k: nat, autoComplete: bool): Result<Board>
    requires |phases| == |b.statuses|
  {
    if k >= |phases| then Err(NotFound)
    else if phases[k].category != Questionnaire || b.statuses[k] != InProgress then Err(BadRequest)
    else Ok(if autoComplete then Advance(b, k) else b.(statuses := b.statuses[k := AwaitingApproval]))
  }

  function Review(phases: seq<Phase>, b: Board, k: nat, approve: bool): Result<Board>
    requires |phases| == |b.statuses|
  {
    if k >= |phases| then Err(NotFound)
    else if phases[k].category != Questionnaire || b.statuses[k] != AwaitingApproval then Err(BadRequest)
    else Ok(if approve then Advance(b, k) else b.(statuses := b.statuses[k := Failed]))
  }

  /** `complete`: refused while installments or stages are open; it starts no other phase. */
  function CompletePhase(phases: seq<Phase>, b: Board, k: nat, openItems: nat): Result<Board>
    requires |phases| == |b.statuses|
  {
    if k >= |phases| then Err(NotFound)
    else if b.statuses[k] == Completed then Err(BadRequest)
    else if phases[k].category in {Payment, Documentation} && openItems > 0 then Err(BadRequest)
    else Ok(b.(statuses := b.statuses[k := Completed]))
  }

  function ReopenPhase(b: Board, k: nat, reset: bool): Result<Board> {
    if k >= |b.statuses| then Err(NotFound)
    else if b.statuses[k] != Completed then Err(BadRequest)
    else
      Ok(Board(seq(|b.statuses|, i requires 0 <= i < |b.statuses| =>
                 if i == k then InProgress else if reset && i > k then Pending else b.statuses[i]),
               Some(k)))
  }

  /** An adjustment or a wallet payment reaches the total: the phase is completed and nothing else happens. */
  function SettlePhase(b: Board, k: nat): Result<Board> {
    if k >= |b.statuses| then Err(NotFound) else Ok(b.(statuses := b.statuses[k := Completed]))
  }

  function SkipPhase(b: Board, k: nat): Result<Board> {
    if k >= |b.statuses| then Err(NotFound)
    else if b.statuses[k] != Pending then Err(BadRequest)
    else Ok(b.(statuses := b.statuses[k := Skipped]))
  }

  /** Taking back an approval puts a completed documentation phase back in progress; `currentPhaseId` stays. */
  function RevertApproval(phases: seq<Phase>, b: Board, k: nat): Result<Board>
    requires |phases| == |b.statuses|
  {
    if k >= |phases| then Err(NotFound)
    else if phases[k].category != Documentation then Err(BadRequest)
    else Ok(if b.statuses[k] == Completed then b.(statuses := b.statuses[k := InProgress]) else b)
  }

  /** A step of the workflow; a refused call changes nothing. */
  function Next(phases: seq<Phase>, b: Board, step: Step): (after: Board)
    requires |phases| == |b.statuses|
    ensures |after.statuses| == |b.statuses|
  {
    var outcome := match step
      case Submit => Ok(StartFirst(b))
      case Activate(k) => ActivatePhase(phases, b, k)
      case AnswerQuestionnaire(k, auto) => Answer(phases, b, k, auto)
      case ReviewQuestionnaire(k, approve) => Review(phases, b, k, approve)
      case FinishDocumentation(k) => if k < |phases| then Ok(Advance(b, k)) else Err(NotFound)
      case PayOff(k) => if k < |phases| then Ok(Advance(b, k)) else Err(NotFound)
      case CompleteManually(k, openItems) => CompletePhase(phases, b, k, openItems)
      case Reopen(k, reset) => ReopenPhase(b, k, reset)
      case Settle(k) => SettlePhase(b, k)
      case Skip(k) => SkipPhase(b, k)
      case Revert(k) => RevertApproval(phases, b, k);
    if outcome.Ok? then outcome.value else b
  }

  function Run(phases: seq<Phase>, b: Board, steps: seq<Step>): (after: Board)
    requires |phases| == |b.statuses|
    ensures |after.statuses| == |b.statuses|
    decreases |steps|
  {
    if steps == [] then b else Run(phases, Next(phases, b, steps[0]), steps[1..])
  }

  // ---------------------------------------------------------------- the frontier

  predicate IsActive(status: PhaseStatus) {
    status in {InProgress, Active, AwaitingApproval, Failed}
  }

  /** The first `c` phases are completed, at most phase `c` is under way, and nothing after it has begun. */
  predicate FrontierAt(b: Board, c: nat) {
    && c <= |b.statuses|
    && (forall i | 0 <= i < c :: b.statuses[i] == Completed)
    && (c < |b.statuses| ==> b.statuses[c] == Pending || IsActive(b.statuses[c]))
    && (forall i | c < i < |b.statuses| :: b.statuses[i] == Pending)
    && (c < |b.statuses| && IsActive(b.statuses[c]) ==> b.current == Some(c))
  }

  ghost predicate Frontier(b: Board) {
    exists c :: FrontierAt(b, c)
  }

  predicate NothingUnderWay(b: Board, c: nat) {
    c >= |b.statuses| || b.statuses[c] == Pending
  }

  /** A phase that has begun behind one that is not completed breaks the frontier. */
  lemma NotAFrontier(b: Board, i: nat, j: nat)
    requires i < j < |b.statuses| && b.statuses[i] != Completed && b.statuses[j] != Pending
    ensures !Frontier(b)
  {}

  /**
   * Completing phase `k` and starting the next one keeps the frontier exactly when `k` is the frontier, or the
   * completed phase just before it, or the one before that while nothing is under way.
   */
  lemma AdvanceKeepsFrontierIff(b: Board, c: nat, k: nat)
    requires FrontierAt(b, c) && k < |b.statuses|
    ensures Frontier(Advance(b, k))
       <==> (k == c || k + 1 == c || (k + 2 == c && NothingUnderWay(b, c)))
  {
    var t := Advance(b, k);
    if k == c {
      assert FrontierAt(t, c + 1);
    } else if k + 1 == c {
      assert FrontierAt(t, c);
    } else if k + 2 == c && NothingUnderWay(b, c) {
      assert FrontierAt(t, c - 1);
    } else if k > c {
      NotAFrontier(t, c, k);
    } else {
      NotAFrontier(t, k + 1, k + 2);
    }
  }

  /** `complete` keeps the frontier exactly when it is given the frontier phase. */
  lemma CompleteKeepsFrontierIff(phases: seq<Phase>, b: Board, c: nat, k: nat, openItems: nat)
    requires |phases| == |b.statuses| && FrontierAt(b, c) && CompletePhase(phases, b, k, openItems).Ok?
    ensures Frontier(CompletePhase(phases, b, k, openItems).value) <==> k == c
  {
    var t := CompletePhase(phases, b, k, openItems).value;
    if k == c {
      assert FrontierAt(t, c + 1);
    } else {
      NotAFrontier(t, c, k);
    }
  }

  /** Manual activation keeps the frontier exactly when it is given the frontier phase. */
  lemma ActivateKeepsFrontierIff(phases: seq<Phase>, b: Board, c: nat, k: nat)
    requires |phases| == |b.statuses| && FrontierAt(b, c) && ActivatePhase(phases, b, k).Ok?
    ensures Frontier(ActivatePhase(phases, b, k).value) <==> k == c
  {
    var t := ActivatePhase(phases, b, k).value;
    if k == c {
      assert FrontierAt(t, c);
    } else {
      NotAFrontier(t, c, k);
    }
  }

  /** Reopening with a reset always keeps the frontier; without one, only the last completed phase may be reopened. */
  lemma ReopenKeepsFrontierIff(b: Board, c: nat, k: nat, reset: bool)
    requires FrontierAt(b, c) && ReopenPhase(b, k, reset).Ok?
    ensures Frontier(ReopenPhase(b, k, reset).value) <==> (reset || (k + 1 == c && NothingUnderWay(b, c)))
  {
    var t := ReopenPhase(b, k, reset).value;
    if reset || (k + 1 == c && NothingUnderWay(b, c)) {
      assert FrontierAt(t, k);
    } else {
      NotAFrontier(t, k, k + 1);
    }
  }

  /** Settling a phase keeps the frontier exactly when it is the frontier phase, or completed already. */
  lemma SettleKeepsFrontierIff(b: Board, c: nat, k: nat)
    requires FrontierAt(b, c) && k < |b.statuses|
    ensures Frontier(SettlePhase(b, k).value) <==> k <= c
  {
    var t := SettlePhase(b, k).value;
    if k == c {
      assert FrontierAt(t, c + 1);
    } else if k < c {
      assert FrontierAt(t, c);
    } else {
      NotAFrontier(t, c, k);
    }
  }

  /** Skipping a phase always breaks the frontier. */
  lemma SkipBreaksFrontier(b: Board, k: nat)
    requires SkipPhase(b, k).Ok?
    ensures !Frontier(SkipPhase(b, k).value)
  {
    assert SkipPhase(b, k).value.statuses[k] == Skipped;
  }

  /** An active phase that `currentPhaseId` does not name breaks the frontier. */
  lemma UnnamedActivePhase(b: Board, k: nat)
    requires k < |b.statuses| && IsActive(b.statuses[k]) && b.current != Some(k)
    ensures !Frontier(b)
  {}

  /**
   * Taking back an approval in a completed phase keeps the frontier exactly when it is the last completed phase,
   * nothing is under way behind it, and `currentPhaseId` happens to name it.
   */
  lemma RevertKeepsFrontierIff(phases: seq<Phase>, b: Board, c: nat, k: nat)
    requires |phases| == |b.statuses| && FrontierAt(b, c)
    requires RevertApproval(phases, b, k).Ok? && b.statuses[k] == Completed
    ensures Frontier(RevertApproval(phases, b, k).value)
       <==> k + 1 == c && NothingUnderWay(b, c) && b.current == Some(k)
  {
    var t := RevertApproval(phases, b, k).value;
    assert t.statuses[k] == InProgress;
    if k + 1 == c && NothingUnderWay(b, c) {
      if b.current == Some(k) {
        assert FrontierAt(t, k);
      } else {
        UnnamedActivePhase(t, k);
      }
    } else {
      NotAFrontier(t, k, k + 1);
    }
  }

  /**
   * Steps that trust their caller are given the active phase, a reopened phase resets what follows it, no phase is
   * skipped, and an approval is only taken back in a phase under way.
   */
  predicate Proper(b: Board, step: Step) {
    match step
    case FinishDocumentation(k) => k < |b.statuses| ==> IsActive(b.statuses[k])
    case PayOff(k) => k < |b.statuses| ==> IsActive(b.statuses[k])
    case CompleteManually(k, _) => k < |b.statuses| ==> IsActive(b.statuses[k])
    case Reopen(_, reset) => reset
    case Settle(k) => k < |b.statuses| ==> b.statuses[k] == Completed || IsActive(b.statuses[k])
    case Skip(k) => SkipPhase(b, k).Err?
    case Revert(k) => k < |b.statuses| ==> b.statuses[k] != Completed
    case _ => true
  }

  predicate ProperRun(phases: seq<Phase>, b: Board, steps: seq<Step>)
    requires |phases| == |b.statuses|
    decreases |steps|
  {
    steps == [] || (Proper(b, steps[0]) && ProperRun(phases, Next(phases, b, steps[0]), steps[1..]))
  }

  lemma StepKeepsFrontier(phases: seq<Phase>, b: Board, step: Step)
    requires |phases| == |b.statuses| && Frontier(b) && Proper(b, step)
    requires forall i | 0 <= i < |phases| :: phases[i].requiresPrevious
    ensures Frontier(Next(phases, b, step))
  {
    var c :| FrontierAt(b, c);
    var t := Next(phases, b, step);
    match step
    case Submit =>
      if c == 0 {
        assert FrontierAt(t, 0);
      }
    case Activate(k) =>
      if ActivatePhase(phases, b, k).Ok? {
        ActivateKeepsFrontierIff(phases, b, c, k);
      }
    case AnswerQuestionnaire(k, auto) =>
      if Answer(phases, b, k, auto).Ok? {
        AdvanceKeepsFrontierIff(b, c, k);
        assert !auto ==> FrontierAt(t, c);
      }
    case ReviewQuestionnaire(k, approve) =>
      if Review(phases, b, k, approve).Ok? {
        AdvanceKeepsFrontierIff(b, c, k);
        assert !approve ==> FrontierAt(t, c);
      }
    case FinishDocumentation(k) =>
      if k < |phases| {
        AdvanceKeepsFrontierIff(b, c, k);
      }
    case PayOff(k) =>
      if k < |phases| {
        AdvanceKeepsFrontierIff(b, c, k);
      }
    case CompleteManually(k, openItems) =>
      if CompletePhase(phases, b, k, openItems).Ok? {
        CompleteKeepsFrontierIff(phases, b, c, k, openItems);
      }
    case Reopen(k, reset) =>
      if ReopenPhase(b, k, reset).Ok? {
        ReopenKeepsFrontierIff(b, c, k, reset);
      }
    case Settle(k) =>
      if k < |phases| {
        SettleKeepsFrontierIff(b, c, k);
      }
    case Skip(_) =>
    case Revert(_) =>
  }

  /** In every proper run: COMPLETED*, at most one active, PENDING*, and `currentPhaseId` names the active one. */
  lemma {:induction false} RunKeepsFrontier(phases: seq<Phase>, b: Board, steps: seq<Step>)
    requires |phases| == |b.statuses| && Frontier(b) && ProperRun(phases, b, steps)
    requires forall i | 0 <= i < |phases| :: phases[i].requiresPrevious
    ensures Frontier(Run(phases, b, steps))
    decreases |steps|
  {
    if steps != [] {
      StepKeepsFrontier(phases, b, steps[0]);
      RunKeepsFrontier(phases, Next(phases, b, steps[0]), steps[1..]);
    }
  }

  /** A fresh application is at the frontier. */
  lemma FreshBoard(b: Board)
    requires forall i | 0 <= i < |b.statuses| :: b.statuses[i] == Pending
    ensures Frontier(b)
  {
    assert FrontierAt(b, 0);
  }

  /** A late payment on a completed phase restarts a phase behind the frontier: statuses C C C P become C I C P. */
  lemma LatePaymentBreaksFrontier(b: Board)
    requires b == Board([Completed, Completed, Completed, Pending], Some(2))
    ensures Frontier(b) && !Frontier(Advance(b, 0))
  {
    assert FrontierAt(b, 3);
    AdvanceKeepsFrontierIff(b, 3, 0);
  }

  /** Manual activation makes a questionnaire ACTIVE, and answers are only taken IN_PROGRESS. */
  lemma ActivatedQuestionnaireTakesNoAnswers(phases: seq<Phase>, b: Board, k: nat, auto: bool, approve: bool)
    requires |phases| == |b.statuses| && k < |phases| && phases[k].category == Questionnaire
    requires ActivatePhase(phases, b, k).Ok?
    ensures var t := ActivatePhase(phases, b, k).value;
            Answer(phases, t, k, auto) == Err(BadRequest) && Review(phases, t, k, approve) == Err(BadRequest)
  {}

  /** What `complete` checks before it completes the application: no other phase is unfinished. */
  predicate AllDone(b: Board) {
    forall i | 0 <= i < |b.statuses| :: b.statuses[i] in {Completed, Skipped}
  }

  /** At the frontier, completing a phase by hand completes the application exactly when it is the last phase. */
  lemma LastPhaseCompletesApplication(phases: seq<Phase>, b: Board, k: nat, openItems: nat)
    requires |phases| == |b.statuses| && Frontier(b) && k < |phases| && IsActive(b.statuses[k])
    requires CompletePhase(phases, b, k, openItems).Ok?
    ensures AllDone(CompletePhase(phases, b, k, openItems).value) <==> k == |phases| - 1
  {
    var c :| FrontierAt(b, c);
    var t := CompletePhase(phases, b, k, openItems).value;
    assert k == c;
    if k < |phases| - 1 {
      assert t.statuses[k + 1] == Pending;
    }
  }

  // ---------------------------------------------------------------- the service

  /** The phase rows of one application, updated in place by the service. */
  class PhaseService {
    const phases: seq<Phase>
    var statuses: seq<PhaseStatus>
    var currentPhase: Option<nat>

    ghost predicate Valid()
      reads this
    {
      |statuses| == |phases|
    }

    ghost function Contents(): (b: Board)
      reads this
    {
      Board(statuses, currentPhase)
    }

    constructor (phases: seq<Phase>)
      ensures Valid() && this.phases == phases
      ensures Contents() == Board(seq(|phases|, i => Pending), None)
    {
      this.phases := phases;
      statuses := seq(|phases|, i => Pending);
      currentPhase := None;
    }

    /** The shared tail of every automatic completion. */
    method CompleteAndStartNext(k: nat)
      requires Valid() && k < |phases|
      modifies this
      ensures Valid() && Contents() == Advance(old(Contents()), k)
    {
      statuses := statuses[k := Completed];
      if k + 1 < |statuses| {
        statuses := statuses[k + 1 := InProgress];
        currentPhase := Some(k + 1);
      }
    }

    method SubmitApplication()
      requires Valid()
      modifies this
      ensures Valid() && Contents() == StartFirst(old(Contents()))
    {
      if |statuses| > 0 && statuses[0] == Pending {
        statuses := statuses[0 := InProgress];
        currentPhase := Some(0);
      }
    }

    method Activate(k: nat) returns (r: Result<()>)
      requires Valid()
      modifies this
      ensures Valid()
      ensures var spec := ActivatePhase(phases, old(Contents()), k);
              if spec.Ok? then r == Ok(()) && Contents() == spec.value
              else r == Err(spec.error) && Contents() == old(Contents())
    {
      if k >= |phases| {
        return Err(NotFound);
      }
      if statuses[k] != Pending {
        return Err(BadRequest);
      }
      if phases[k].requiresPrevious && k > 0 {
        if statuses[k - 1] != Completed && statuses[k - 1] != Superseded {
          return Err(BadRequest);
        }
      }
      statuses := statuses[k := if phases[k].category == Documentation then InProgress else Active];
      currentPhase := Some(k);
      return Ok(());
    }

    method SubmitQuestionnaire(k: nat, autoComplete: bool) returns (r: Result<()>)
      requires Valid()
      modifies this
      ensures Valid()
      ensures var spec := Answer(phases, old(Contents()), k, autoComplete);
              if spec.Ok? then r == Ok(()) && Contents() == spec.value
              else r == Err(spec.error) && Contents() == old(Contents())
    {
      if k >= |phases| {
        return Err(NotFound);
      }
      if phases[k].category != Questionnaire {
        return Err(BadRequest);
      }
      if statuses[k] != InProgress {
        return Err(BadRequest);
      }
      if autoComplete {
        CompleteAndStartNext(k);
      } else {
        statuses := statuses[k := AwaitingApproval];
      }
      return Ok(());
    }

    method ReviewQuestionnairePhase(k: nat, approve: bool) returns (r: Result<()>)
      requires Valid()
      modifies this
      ensures Valid()
      ensures var spec := Review(phases, old(Contents()), k, approve);
              if spec.Ok? then r == Ok(()) && Contents() == spec.value
              else r == Err(spec.error) && Contents() == old(Contents())
    {
      if k >= |phases| {
        return Err(NotFound);
      }
      if phases[k].category != Questionnaire || statuses[k] != AwaitingApproval {
        return Err(BadRequest);
      }
      if approve {
        CompleteAndStartNext(k);
      } else {
        statuses := statuses[k := Failed];
      }
      return Ok(());
    }

    /** `complete`; `finished` tells whether the application is completed along with the phase. */
    method Complete(k: nat, openItems: nat) returns (r: Result<()>, finished: bool)
      requires Valid()
      modifies this
      ensures Valid()
      ensures var spec := CompletePhase(phases, old(Contents()), k, openItems);
              if spec.Ok? then r == Ok(()) && Contents() == spec.value && finished == AllDone(Contents())
              else r == Err(spec.error) && Contents() == old(Contents()) && !finished
    {
      finished := false;
      if k >= |phases| {
        return Err(NotFound), false;
      }
      if statuses[k] == Completed {
        return Err(BadRequest), false;
      }
      if (phases[k].category == Payment || phases[k].category == Documentation) && openItems > 0 {
        return Err(BadRequest), false;
      }
      statuses := statuses[k := Completed];
      var incomplete := 0;
      for i := 0 to |statuses|
        invariant incomplete >= 0
        invariant incomplete == 0 <==> forall j | 0 <= j < i :: statuses[j] in {Completed, Skipped}
      {
        if i != k && statuses[i] != Completed && statuses[i] != Skipped {
          incomplete := incomplete + 1;
        }
      }
      return Ok(()), incomplete == 0;
    }

    method Reopen(k: nat, resetDependentPhases: bool) returns (r: Result<()>)
      requires Valid()
      modifies this
      ensures Valid()
      ensures var spec := ReopenPhase(old(Contents()), k, resetDependentPhases);
              if spec.Ok? then r == Ok(()) && Contents() == spec.value
              else r == Err(spec.error) && Contents() == old(Contents())
    {
      if k >= |statuses| {
        return Err(NotFound);
      }
      if statuses[k] != Completed {
        return Err(BadRequest);
      }
      statuses := statuses[k := InProgress];
      currentPhase := Some(k);
      if resetDependentPhases {
        for i := k + 1 to |statuses|
          invariant |statuses| == |old(statuses)| && currentPhase == Some(k)
          invariant forall j | 0 <= j < |statuses| ::
            statuses[j] == if j == k then InProgress else if k < j < i then Pending else old(statuses)[j]
        {
          statuses := statuses[i := Pending];
        }
      }
      return Ok(());
    }
  }
}
