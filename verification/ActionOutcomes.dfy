/** What `getCurrentAction` tells concrete parties, callers and documents, told without its own tables and defaults. */
module ActionOutcomes {
  import opened Common
  import opened CurrentAction
  import W = PhaseWorkflow
  import A = ApplicationCompletion
  import R = Registry

  // ---------------------------------------------------------------- documents

  /** Nothing was uploaded in the phase under the type of the definition, or under its name where it has no type. */
  predicate NeverUploaded(app: Application, phase: Phase, d: Definition) {
    var kind := if d.documentType == "" then d.name else d.documentType;
    forall i | 0 <= i < |app.documents| ::
      app.documents[i].phaseId == Some(phase.id) ==>
        app.documents[i].kind != kind && app.documents[i].documentType != Some(kind)
  }

  lemma MissingIff(app: Application, phase: Phase, d: Definition)
    ensures Missing(app, phase, d) <==> NeverUploaded(app, phase, d)
  {}

  lemma {:induction false} NameIsMissing(app: Application, phase: Phase, docs: seq<Definition>, i: nat, party: Party)
    requires i < |docs| && Missing(app, phase, docs[i]) && Uploader(docs[i]) == party
    ensures (if docs[i].name == "" then docs[i].documentType else docs[i].name) in MissingOf(app, phase, docs, party)
  {
    if i < |docs| - 1 {
      NameIsMissing(app, phase, docs[..|docs| - 1], i, party);
    }
  }

  /** Whose document it is: nobody named means the customer, and the lender's are the bank's. */
  predicate BelongsTo(d: Definition, party: Party) {
    match d.uploadedBy
    case None => party == Customer
    case Some(Lender) => party == Bank
    case Some(other) => party == other
  }

  /** The parties whose documents a stage asks for, by who reviews it; a party no stage names is asked at its own. */
  predicate AskedAt(reviewer: Party, party: Party) {
    || (reviewer == Platform && (party == Customer || party == Platform))
    || (reviewer == Customer && (party == Developer || party == Bank))
    || (reviewer != Platform && reviewer != Customer && party == reviewer)
  }

  /** A document of the party's own was never uploaded. */
  predicate LacksDocument(app: Application, phase: Phase, party: Party) {
    exists i | 0 <= i < |Definitions(phase)| ::
      BelongsTo(Definitions(phase)[i], party) && NeverUploaded(app, phase, Definitions(phase)[i])
  }

  lemma BelongsToUploader(d: Definition, party: Party)
    ensures BelongsTo(d, party) <==> Uploader(d) == party
  {}

  lemma LacksIff(app: Application, phase: Phase, party: Party)
    ensures MissingOf(app, phase, Definitions(phase), party) != [] <==> LacksDocument(app, phase, party)
  {
    var docs := Definitions(phase);
    MissingMeans(app, phase, docs, party);
    forall i | 0 <= i < |docs|
      ensures BelongsTo(docs[i], party) <==> Uploader(docs[i]) == party
      ensures NeverUploaded(app, phase, docs[i]) <==> Missing(app, phase, docs[i])
    {
      BelongsToUploader(docs[i], party);
      MissingIff(app, phase, docs[i]);
    }
  }

  /** A party asked at the stage uploads exactly if a document of its own is missing; the others never upload. */
  lemma UploadIff(app: Application, user: User, phase: Phase, party: Party)
    requires phase.category == W.Documentation && party in Actions(app, user, phase)
    ensures Actions(app, user, phase)[party].action == Upload
       <==> AskedAt(Reviewer(phase), party) && LacksDocument(app, phase, party)
  {
    LacksIff(app, phase, party);
    assert AskedAt(Reviewer(phase), party) <==> party in Uploaders(Reviewer(phase));
    assert Actions(app, user, phase)[party] == DocumentationInfo(app, user, phase, party);
  }

  /** Its list names every such document. */
  lemma UploadListNames(app: Application, user: User, phase: Phase, party: Party, i: nat)
    requires phase.category == W.Documentation && i < |Definitions(phase)|
    requires AskedAt(Reviewer(phase), party) && BelongsTo(Definitions(phase)[i], party)
    requires NeverUploaded(app, phase, Definitions(phase)[i])
    ensures var d, actions := Definitions(phase)[i], Actions(app, user, phase);
            && party in actions && actions[party].action == Upload
            && (if d.name == "" then d.documentType else d.name) in actions[party].pendingDocuments
  {
    var docs := Definitions(phase);
    assert Uploader(docs[i]) == party;
    NameIsMissing(app, phase, docs, i, party);
    assert Actions(app, user, phase)[party] == DocumentationInfo(app, user, phase, party);
  }

  /** At a platform stage, a missing document of the customer makes the customer upload and the platform not review. */
  lemma PlatformStageAsksCustomer(app: Application, user: User, phase: Phase, i: nat)
    requires phase.category == W.Documentation && Reviewer(phase) == Platform && i < |Definitions(phase)|
    requires Definitions(phase)[i].uploadedBy in {None, Some(Customer)}
    requires NeverUploaded(app, phase, Definitions(phase)[i])
    ensures var actions := Actions(app, user, phase);
            && Customer in actions && actions[Customer].action == Upload
            && Platform in actions && actions[Platform].action != Review
  {
    UploadListNames(app, user, phase, Customer, i);
    NobodyReviewsYet(app, user, phase, Customer, Platform);
  }

  /** At a customer's stage the developer and the bank are asked, the lender's documents being the bank's. */
  lemma CustomerStageAsksOfferers(app: Application, user: User, phase: Phase, i: nat)
    requires phase.category == W.Documentation && Reviewer(phase) == Customer && i < |Definitions(phase)|
    requires Definitions(phase)[i].uploadedBy in {Some(Developer), Some(Bank), Some(Lender)}
    requires NeverUploaded(app, phase, Definitions(phase)[i])
    ensures var actions, asked := Actions(app, user, phase),
                                  if Definitions(phase)[i].uploadedBy == Some(Developer) then Developer else Bank;
            && asked in actions && actions[asked].action == Upload
            && Customer in actions && actions[Customer].action == Wait
  {
    var asked := if Definitions(phase)[i].uploadedBy == Some(Developer) then Developer else Bank;
    UploadListNames(app, user, phase, asked, i);
    NobodyReviewsYet(app, user, phase, asked, Customer);
    assert Actions(app, user, phase)[Customer] == DocumentationInfo(app, user, phase, Customer);
  }

  /** At the stage of any other party only that party's own documents are asked for. */
  lemma OwnStageAsksOwnDocuments(app: Application, user: User, phase: Phase, party: Party)
    requires phase.category == W.Documentation && Reviewer(phase) !in {Platform, Customer}
    requires party in Actions(app, user, phase) && Actions(app, user, phase)[party].action == Upload
    ensures party == Reviewer(phase) && party != Lender
  {
    UploadIff(app, user, phase, party);
  }

  lemma NobodyReviewsYet(app: Application, user: User, phase: Phase, p: Party, q: Party)
    requires p in Actions(app, user, phase) && q in Actions(app, user, phase)
    requires Actions(app, user, phase)[p].action == Upload
    ensures Actions(app, user, phase)[q].action != Review
  {
    if Actions(app, user, phase)[q].action == Review {
      OneKindOfWork(app, user, phase, q, p);
    }
  }

  /** The reviewer reviews exactly when nothing of the stage is missing and the stage is not completed. */
  lemma ReviewIff(app: Application, user: User, phase: Phase, party: Party)
    requires phase.category == W.Documentation && party in Actions(app, user, phase)
    ensures Actions(app, user, phase)[party].action == Review
       <==> && party == Reviewer(phase) && !StageCompleted(phase)
            && forall p, i | 0 <= i < |Definitions(phase)| && AskedAt(Reviewer(phase), p)
                             && BelongsTo(Definitions(phase)[i], p) ::
                 !NeverUploaded(app, phase, Definitions(phase)[i])
  {
    NothingAskedFor(app, phase);
    assert Actions(app, user, phase)[party] == DocumentationInfo(app, user, phase, party);
    if AllUploaded(app, phase) && party in Uploaders(Reviewer(phase)) {
      StageHasAll(app, phase, party);
    }
  }

  lemma NothingAskedFor(app: Application, phase: Phase)
    ensures AllUploaded(app, phase)
       <==> forall p, i | 0 <= i < |Definitions(phase)| && AskedAt(Reviewer(phase), p)
                          && BelongsTo(Definitions(phase)[i], p) ::
              !NeverUploaded(app, phase, Definitions(phase)[i])
  {
    var docs := Definitions(phase);
    forall p, i | 0 <= i < |docs| && AskedAt(Reviewer(phase), p) && BelongsTo(docs[i], p)
      ensures NeverUploaded(app, phase, docs[i]) <==> Awaited(app, phase, i)
    {
      BelongsToUploader(docs[i], p);
    }
    forall i: nat | Awaited(app, phase, i)
      ensures AskedAt(Reviewer(phase), Uploader(docs[i])) && BelongsTo(docs[i], Uploader(docs[i]))
    {
      BelongsToUploader(docs[i], Uploader(docs[i]));
    }
  }

  // ---------------------------------------------------------------- stages and definitions

  /** Stage `i` is the first with the current order, which is 1 where none is stored. */
  predicate AtStage(d: Documentation, i: nat) {
    var order := if d.currentStageOrder.Some? then d.currentStageOrder.value else 1;
    && i < |d.stages| && d.stages[i].order == order
    && forall j | 0 <= j < i :: d.stages[j].order != order
  }

  lemma {:induction false} FirstStageFound(stages: seq<Stage>, order: int, i: nat)
    requires i < |stages| && stages[i].order == order && forall j | 0 <= j < i :: stages[j].order != order
    ensures FindStage(stages, order) == Some(stages[i])
  {
    if i > 0 {
      FirstStageFound(stages[1..], order, i - 1);
    }
  }

  lemma {:induction false} NoStageFound(stages: seq<Stage>, order: int)
    requires forall j | 0 <= j < |stages| :: stages[j].order != order
    ensures FindStage(stages, order).None?
  {
    if stages != [] {
      NoStageFound(stages[1..], order);
    }
  }

  /** The current stage's organization reviews, the platform where it has none; its status decides. */
  lemma StageReviews(phase: Phase, i: nat)
    requires phase.documentation.Some? && AtStage(phase.documentation.value, i)
    ensures var stage := phase.documentation.value.stages[i];
            && (stage.organizationType.Some? ==> Reviewer(phase) == stage.organizationType.value)
            && (stage.organizationType.None? ==> Reviewer(phase) == Platform)
            && (StageCompleted(phase) <==> stage.completed)
  {
    var d := phase.documentation.value;
    FirstStageFound(d.stages, if d.currentStageOrder.Some? then d.currentStageOrder.value else 1, i);
  }

  /** Without a current stage the platform reviews, and nothing is completed. */
  lemma NoStageReviews(phase: Phase)
    requires phase.documentation.Some? ==>
               var d := phase.documentation.value;
               forall j | 0 <= j < |d.stages| ::
                 d.stages[j].order != if d.currentStageOrder.Some? then d.currentStageOrder.value else 1
    ensures Reviewer(phase) == Platform && !StageCompleted(phase)
  {
    if phase.documentation.Some? {
      var d := phase.documentation.value;
      NoStageFound(d.stages, if d.currentStageOrder.Some? then d.currentStageOrder.value else 1);
    }
  }

  /** The snapshot taken with the phase goes before the plan as it is now. */
  lemma SnapshotFirst(phase: Phase)
    ensures phase.documentation.None? ==> Definitions(phase) == []
    ensures phase.documentation.Some? && phase.documentation.value.definitionsSnapshot.Some? ==>
              Definitions(phase) == phase.documentation.value.definitionsSnapshot.value
    ensures phase.documentation.Some? && phase.documentation.value.definitionsSnapshot.None? ==>
              Definitions(phase) == if phase.documentation.value.planDefinitions.Some?
                                    then phase.documentation.value.planDefinitions.value else []
  {}

  // ---------------------------------------------------------------- who is told

  /** The customer and the reviewer, everybody with a document, and every bound organization are told something. */
  lemma ToldIff(app: Application, user: User, phase: Phase, party: Party)
    requires phase.category == W.Documentation
    ensures party in Actions(app, user, phase)
       <==> || party == Customer || party == Reviewer(phase)
            || (exists i | 0 <= i < |Definitions(phase)| :: BelongsTo(Definitions(phase)[i], party))
            || (exists i | 0 <= i < |app.organizations| :: app.organizations[i].assignedAs == Some(party))
  {
    BoundIff(app.organizations, party);
    var docs := Definitions(phase);
    forall i | 0 <= i < |docs|
      ensures BelongsTo(docs[i], party) <==> Uploader(docs[i]) == party
    {}
    if i :| 0 <= i < |docs| && BelongsTo(docs[i], party) {
      assert docs[i] in docs && Uploader(docs[i]) == party;
    }
    if d :| d in docs && Uploader(d) == party {
      var i :| 0 <= i < |docs| && docs[i] == d;
      assert BelongsTo(docs[i], party);
    }
  }

  lemma {:induction false} BoundIff(organizations: seq<Organization>, party: Party)
    ensures party in Bindings(organizations)
       <==> exists i | 0 <= i < |organizations| :: organizations[i].assignedAs == Some(party)
  {
    if organizations != [] {
      var n := |organizations| - 1;
      BoundIff(organizations[..n], party);
      if i :| 0 <= i < n && organizations[i].assignedAs == Some(party) {
        assert organizations[..n][i].assignedAs == Some(party);
      }
    }
  }

  /** The organization bound last under a code says who is assigned; an empty id is nobody. */
  lemma {:induction false} LastBindingCounts(organizations: seq<Organization>, party: Party, i: nat)
    requires i < |organizations| && organizations[i].assignedAs == Some(party)
    requires forall j | i < j < |organizations| :: organizations[j].assignedAs != Some(party)
    ensures party in Bindings(organizations)
    ensures Bindings(organizations)[party]
         == if organizations[i].assignedStaff == Some("") then None else organizations[i].assignedStaff
  {
    var n := |organizations| - 1;
    if i < n {
      LastBindingCounts(organizations[..n], party, i);
    }
  }

  /** While a party waits for later stages it is shown its documents, and everybody is shown who is assigned. */
  lemma WaitingOutcome(app: Application, user: User, phase: Phase, party: Party)
    requires phase.category == W.Documentation && party in Actions(app, user, phase)
    ensures var info := Actions(app, user, phase)[party];
            && info.assignedStaff == BoundStaff(app, party)
            && (info.action == Review ==> info.pendingDocuments == [])
            && (info.action == Wait && !AllUploaded(app, phase) ==> info.pendingDocuments == [])
            && (info.action == Wait && AllUploaded(app, phase) ==>
                  info.pendingDocuments == MissingOf(app, phase, Definitions(phase), party))
            && (info.action == Upload ==> info.pendingDocuments == MissingOf(app, phase, Definitions(phase), party))
            && info.action in {Upload, Review, Wait}
  {
    assert Actions(app, user, phase)[party] == DocumentationInfo(app, user, phase, party);
  }

  /** In a payment phase the customer pays and every other bound party waits. */
  lemma PaymentPhaseOutcome(app: Application, user: User, phase: Phase, party: Party)
    requires phase.category == W.Payment
    ensures party in Actions(app, user, phase)
       <==> party == Customer
            || exists i | 0 <= i < |app.organizations| :: app.organizations[i].assignedAs == Some(party)
    ensures party in Actions(app, user, phase) ==>
              var info := Actions(app, user, phase)[party];
              && info.pendingDocuments == []
              && info.action == (if party == Customer then Pay else Wait)
              && info.assignedStaff == (if party == Customer then None else BoundStaff(app, party))
  {
    BoundIff(app.organizations, party);
  }

  /** A questionnaire is filled in by the customer, or under review by the platform once all answers are in. */
  lemma QuestionnairePhaseOutcome(app: Application, user: User, phase: Phase)
    requires phase.category == W.Questionnaire
    ensures var actions := Actions(app, user, phase);
            var reviewed := phase.status == W.AwaitingApproval && phase.completedFieldsCount >= phase.totalFieldsCount;
            && Customer in actions && actions[Customer].pendingDocuments == [] && actions[Customer].assignedStaff.None?
            && (reviewed ==> && actions.Keys == {Customer, Platform} && actions[Customer].action == Wait
                             && actions[Platform].action == Review && actions[Platform].pendingDocuments == []
                             && actions[Platform].assignedStaff == BoundStaff(app, Platform))
            && (!reviewed ==> actions.Keys == {Customer} && actions[Customer].action == FillQuestionnaire)
  {}

  lemma GateTellsNobody(app: Application, user: User, phase: Phase)
    requires phase.category == W.Gate
    ensures Actions(app, user, phase) == map[]
  {}

  // ---------------------------------------------------------------- the caller

  /** A caller is the customer by id; otherwise bank, platform, developer, legal, insurer, government, in this order. */
  lemma CallersParty(app: Application, user: User)
    ensures var customer := user.id == Some(app.buyerId) && app.buyerId != "";
            var types := user.orgTypes;
            && (customer ==> UserParty(app, user) == Some(Customer))
            && (!customer ==>
                  UserParty(app, user)
                  == if Bank in types || Lender in types then Some(Bank)
                     else if Platform in types then Some(Platform)
                     else if Developer in types then Some(Developer)
                     else if Legal in types then Some(Legal)
                     else if Insurer in types then Some(Insurer)
                     else if Government in types then Some(Government)
                     else None)
  {
    CodesInOrder(user.orgTypes);
  }

  lemma CodesInOrder(types: seq<Party>)
    ensures FirstOf(types, 0) == if Bank in types || Lender in types then Some(Bank) else FirstOf(types, 2)
    ensures FirstOf(types, 2) == if Platform in types then Some(Platform) else FirstOf(types, 3)
    ensures FirstOf(types, 3) == if Developer in types then Some(Developer) else FirstOf(types, 4)
    ensures FirstOf(types, 4) == if Legal in types then Some(Legal) else FirstOf(types, 5)
    ensures FirstOf(types, 5) == if Insurer in types then Some(Insurer) else FirstOf(types, 6)
    ensures FirstOf(types, 6) == if Government in types then Some(Government) else None
  {
    assert PRIORITY == [Bank, Lender, Platform, Developer, Legal, Insurer, Government];
    assert FirstOf(types, 0) == if Bank in types then Some(Bank) else FirstOf(types, 1);
    assert FirstOf(types, 7).None?;
  }

  /** A lender's work may be done with the bank's code, and by the bank's assignee where the lender is not bound. */
  lemma MayActForLender(app: Application, user: User)
    ensures CanAct(app, user, Lender)
       <==> && (Bank in user.orgTypes || Lender in user.orgTypes)
            && var bound := Bindings(app.organizations);
               && (Lender in bound && bound[Lender].Some? ==> bound[Lender] == user.id)
               && (Lender !in bound && Bank in bound && bound[Bank].Some? ==> bound[Bank] == user.id)
  {}

  /** Every other party's takes that party's code and, where somebody is assigned, to be that person. */
  lemma MayActForOthers(app: Application, user: User, party: Party)
    requires party !in {Customer, Lender}
    ensures CanAct(app, user, party)
       <==> && party in user.orgTypes
            && var bound := Bindings(app.organizations);
               party in bound && bound[party].Some? ==> bound[party] == user.id
    ensures CanAct(app, user, Customer) <==> user.id == Some(app.buyerId) && app.buyerId != ""
  {}

  /** The summary is the action of the caller's own party, if it is told anything. */
  lemma SummaryOutcome(party: Option<Party>, actions: map<Party, Info>)
    ensures party.None? ==> RequiredOf(party, actions) == Nothing
    ensures party.Some? && party.value !in actions ==> RequiredOf(party, actions) == Nothing
    ensures party.Some? && party.value in actions ==> RequiredOf(party, actions) == Do(actions[party.value].action)
  {}

  // ---------------------------------------------------------------- the current phase

  /** A phase is live in three statuses; the others, FAILED among them, give nobody anything to do. */
  lemma LiveIff(status: W.PhaseStatus)
    ensures Live(status) <==> status == W.InProgress || status == W.Active || status == W.AwaitingApproval
  {}

  /** The current phase is the only one that is live with none live before it; there is one unless no phase is live. */
  lemma OneCurrentPhase(phases: seq<Phase>, j: nat, k: nat)
    requires j < |phases| && k < |phases|
    ensures CurrentPhase(phases, j) && CurrentPhase(phases, k) ==> j == k
    ensures CurrentPhase(phases, j) && k < j ==> !Live(phases[k].status)
    ensures NoCurrentPhase(phases) ==> !Live(phases[k].status) && !CurrentPhase(phases, k)
    ensures Live(phases[k].status) && (forall i: nat | i < k :: !Live(phases[i].status)) ==> CurrentPhase(phases, k)
    ensures (forall i: nat | i < |phases| :: !Live(phases[i].status)) ==> NoCurrentPhase(phases)
  {}

  /** The answer as a whole: without a current phase nobody is told anything, and only completion is summed up. */
  lemma AnswerOutcome(app: Application, user: User, view: View)
    requires Shown(app, user, view)
    ensures view.userParty == UserParty(app, user)
    ensures view.current.None? <==> forall i: nat | i < |app.phases| :: !Live(app.phases[i].status)
    ensures view.current.None? ==>
              view.partyActions == map[] && (app.completed ==> view.required == Complete)
              && (!app.completed ==> view.required == Nothing)
    ensures view.current.Some? ==>
              && CurrentPhase(app.phases, view.current.value)
              && view.partyActions == Actions(app, user, app.phases[view.current.value])
              && (view.required != Nothing <==> view.userParty.Some? && view.userParty.value in view.partyActions)
              && (view.required != Nothing ==> view.required == Do(view.partyActions[view.userParty.value].action))
  {}

  /** A submitted draft shows its first phase. */
  lemma SubmittedShowsFirstPhase(app: Application, phases: seq<W.Phase>, p: A.Progress)
    requires |phases| == |p.board.statuses| > 0 && p.status == R.Draft && p.board.statuses[0] == W.Pending
    requires Shows(app, phases, A.Move(p, R.Submit).board)
    ensures CurrentPhase(app.phases, 0)
  {}
}
