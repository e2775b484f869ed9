/**
 * `getCurrentAction`: what each party of an application must do now, and whether the caller may do it. Rows come as
 * the query returns them (phases and stages by order); the texts shown to people are not modelled.
 */
module CurrentAction {
  import opened Common
  import W = PhaseWorkflow
  import Q = Questionnaire
  import L = Ledger

  /** Codes of organization types; `Other` for the ones a tenant adds. */
  datatype Party = Customer | Bank | Lender | Platform | Developer | Legal | Insurer | Government | Other(code: string)

  datatype Action = Upload | Review | Wait | Pay | FillQuestionnaire

  datatype Info = Info(action: Action, pendingDocuments: seq<string>, assignedStaff: Option<string>,
                       canCurrentUserAct: bool)

  datatype Organization = Organization(assignedAs: Option<Party>, assignedStaff: Option<string>)

  datatype Stage = Stage(order: int, completed: bool, organizationType: Option<Party>)

  /** A missing name or type is the empty string. */
  datatype Definition = Definition(documentType: string, name: string, uploadedBy: Option<Party>, isRequired: bool)

  datatype DocumentStatus =
    | Draft | Pending | PendingSignature | Sent | Viewed | Signed | Approved | Rejected | Expired | Cancelled
    | NeedsReupload

  datatype UploadedDocument = UploadedDocument(phaseId: Option<string>, kind: string, documentType: Option<string>,
                                               status: DocumentStatus)

  datatype Documentation = Documentation(stages: seq<Stage>, currentStageOrder: Option<int>,
                                         definitionsSnapshot: Option<seq<Definition>>,
                                         planDefinitions: Option<seq<Definition>>)

  datatype Phase = Phase(id: string, category: W.Category, status: W.PhaseStatus, documentation: Option<Documentation>,
                         completedFieldsCount: nat, totalFieldsCount: nat)

  datatype Application = Application(buyerId: string, completed: bool, phases: seq<Phase>,
                                     documents: seq<UploadedDocument>, organizations: seq<Organization>)

  datatype User = User(id: Option<string>, orgTypes: seq<Party>)

  /** `actionRequired`, the summary for the caller's own party. */
  datatype Required = Nothing | Complete | Do(action: Action)

  datatype View = View(current: Option<nat>, partyActions: map<Party, Info>, userParty: Option<Party>,
                       required: Required)

  // ---------------------------------------------------------------- who the caller is and may act for

  function NonEmpty(id: Option<string>): Option<string> {
    if id == Some("") then None else id
  }

  predicate IsCustomer(app: Application, user: User) {
    NonEmpty(user.id) == Some(app.buyerId)
  }

  /** The last organization bound under a type code is the one that counts. */
  method BindOrganizations(organizations: seq<Organization>) returns (bound: map<Party, Option<string>>)
    ensures bound == Bindings(organizations)
  {
    bound := map[];
    for i := 0 to |organizations|
      invariant bound == Bindings(organizations[..i])
    {
      assert organizations[..i + 1][..i] == organizations[..i];
      if organizations[i].assignedAs.Some? {
        bound := bound[organizations[i].assignedAs.value := NonEmpty(organizations[i].assignedStaff)];
      }
    }
    assert organizations[..|organizations|] == organizations;
  }

  function Bindings(organizations: seq<Organization>): map<Party, Option<string>> {
    if organizations == [] then map[]
    else
      var last := organizations[|organizations| - 1];
      var before := Bindings(organizations[..|organizations| - 1]);
      if last.assignedAs.Some? then before[last.assignedAs.value := NonEmpty(last.assignedStaff)] else before
  }

  function Normalize(party: Party): Party {
    if party == Lender then Bank else party
  }

  const PRIORITY: seq<Party> := [Bank, Lender, Platform, Developer, Legal, Insurer, Government]

  /** The first code of the priority list that the user has, from place `i` on. */
  function FirstOf(orgTypes: seq<Party>, i: nat): (party: Option<Party>)
    requires i <= |PRIORITY|
    ensures party.Some? ==>
              exists k :: i <= k < |PRIORITY| && PRIORITY[k] in orgTypes && party.value == Normalize(PRIORITY[k])
                       && forall j | i <= j < k :: PRIORITY[j] !in orgTypes
    ensures party.None? ==> forall j | i <= j < |PRIORITY| :: PRIORITY[j] !in orgTypes
    decreases |PRIORITY| - i
  {
    if i == |PRIORITY| then None
    else if PRIORITY[i] in orgTypes then Some(Normalize(PRIORITY[i]))
    else FirstOf(orgTypes, i + 1)
  }

  function UserParty(app: Application, user: User): Option<Party> {
    if IsCustomer(app, user) then Some(Customer) else FirstOf(user.orgTypes, 0)
  }

  predicate HasOrgType(user: User, party: Party) {
    party in user.orgTypes || (party == Lender && Bank in user.orgTypes)
  }

  /** The staff member to whom the party's work is assigned; a lender falls back on the bank's organization. */
  function StaffFor(bound: map<Party, Option<string>>, party: Party): Option<string> {
    if party in bound then bound[party]
    else if party == Lender && Bank in bound then bound[Bank]
    else None
  }

  predicate CanAct(app: Application, user: User, party: Party) {
    if party == Customer then IsCustomer(app, user)
    else
      var staff := StaffFor(Bindings(app.organizations), party);
      HasOrgType(user, party) && (staff.Some? ==> staff == user.id)
  }

  // ---------------------------------------------------------------- the documents of the current stage

  predicate Live(status: W.PhaseStatus) {
    status in {W.InProgress, W.Active, W.AwaitingApproval}
  }

  predicate CurrentPhase(phases: seq<Phase>, k: nat) {
    && k < |phases| && Live(phases[k].status)
    && forall i | 0 <= i < k :: !Live(phases[i].status)
  }

  predicate NoCurrentPhase(phases: seq<Phase>) {
    forall i | 0 <= i < |phases| :: !Live(phases[i].status)
  }

  function FindStage(stages: seq<Stage>, order: int): Option<Stage> {
    if stages == [] then None else if stages[0].order == order then Some(stages[0]) else FindStage(stages[1..], order)
  }

  function CurrentStage(phase: Phase): Option<Stage> {
    match phase.documentation
    case Some(d) => FindStage(d.stages, if d.currentStageOrder.Some? then d.currentStageOrder.value else 1)
    case None => None
  }

  function Definitions(phase: Phase): seq<Definition> {
    match phase.documentation
    case Some(d) =>
      if d.definitionsSnapshot.Some? then d.definitionsSnapshot.value
      else if d.planDefinitions.Some? then d.planDefinitions.value
      else []
    case None => []
  }

  function Uploader(d: Definition): Party {
    if d.uploadedBy.Some? then Normalize(d.uploadedBy.value) else Customer
  }

  function TypeOf(d: Definition): string { if d.documentType != "" then d.documentType else d.name }

  function NameOf(d: Definition): string { if d.name != "" then d.name else d.documentType }

  /** The reviewer of the current stage; PLATFORM when there is no stage. */
  function Reviewer(phase: Phase): Party {
    var stage := CurrentStage(phase);
    if stage.Some? && stage.value.organizationType.Some? then stage.value.organizationType.value else Platform
  }

  predicate StageCompleted(phase: Phase) {
    CurrentStage(phase).Some? && CurrentStage(phase).value.completed
  }

  /** Whose documents a stage reviews. */
  function Uploaders(reviewer: Party): set<Party> {
    match reviewer
    case Platform => {Customer, Platform}
    case Customer => {Developer, Bank}
    case other => {other}
  }

  predicate Uploaded(documents: seq<UploadedDocument>, phaseId: string, documentType: string) {
    exists i :: 0 <= i < |documents| && documents[i].phaseId == Some(phaseId)
             && (documents[i].kind == documentType || documents[i].documentType == Some(documentType))
  }

  predicate Missing(app: Application, phase: Phase, d: Definition) {
    !Uploaded(app.documents, phase.id, TypeOf(d))
  }

  /** Names of the documents `party` has still to upload in this phase, in order, whatever their stage. */
  function MissingOf(app: Application, phase: Phase, docs: seq<Definition>, party: Party): seq<string> {
    if docs == [] then []
    else
      var d := docs[|docs| - 1];
      MissingOf(app, phase, docs[..|docs| - 1], party)
      + (if Uploader(d) == party && Missing(app, phase, d) then [NameOf(d)] else [])
  }

  /** Document `i` of the phase belongs to the current stage and is not there. */
  predicate Awaited(app: Application, phase: Phase, i: nat) {
    var docs := Definitions(phase);
    i < |docs| && Uploader(docs[i]) in Uploaders(Reviewer(phase)) && Missing(app, phase, docs[i])
  }

  ghost predicate AllUploaded(app: Application, phase: Phase) {
    forall i :: !Awaited(app, phase, i)
  }

  // ---------------------------------------------------------------- the specification

  function Parties(app: Application, phase: Phase): set<Party> {
    {Customer, Reviewer(phase)} + (set d | d in Definitions(phase) :: Uploader(d)) + Bindings(app.organizations).Keys
  }

  function BoundStaff(app: Application, party: Party): Option<string> {
    var bound := Bindings(app.organizations);
    if party in bound then bound[party] else None
  }

  /** A party uploads its missing documents of the stage; once none are awaited the reviewer reviews; others wait. */
  ghost function DocumentationInfo(app: Application, user: User, phase: Phase, party: Party): Info {
    var missing := MissingOf(app, phase, Definitions(phase), party);
    var staff := BoundStaff(app, party);
    if party in Uploaders(Reviewer(phase)) && missing != [] then Info(Upload, missing, staff, CanAct(app, user, party))
    else if !AllUploaded(app, phase) then Info(Wait, [], staff, false)
    else if party == Reviewer(phase) && !StageCompleted(phase) then Info(Review, [], staff, CanAct(app, user, party))
    else Info(Wait, missing, staff, false)
  }

  function CustomerInfo(app: Application, user: User, action: Action): Info {
    Info(action, [], None, action != Wait && CanAct(app, user, Customer))
  }

  function PaymentInfo(app: Application, user: User, party: Party): Info {
    if party == Customer then CustomerInfo(app, user, Pay) else Info(Wait, [], BoundStaff(app, party), false)
  }

  function PaymentActions(app: Application, user: User): map<Party, Info> {
    map p | p in Bindings(app.organizations).Keys + {Customer} :: PaymentInfo(app, user, p)
  }

  function QuestionnaireActions(app: Application, user: User, phase: Phase): map<Party, Info> {
    if phase.completedFieldsCount >= phase.totalFieldsCount && phase.status == W.AwaitingApproval then
      map[Customer := CustomerInfo(app, user, Wait),
          Platform := Info(Review, [], BoundStaff(app, Platform), CanAct(app, user, Platform))]
    else
      map[Customer := CustomerInfo(app, user, FillQuestionnaire)]
  }

  ghost function Actions(app: Application, user: User, phase: Phase): map<Party, Info> {
    match phase.category
    case Payment => PaymentActions(app, user)
    case Questionnaire => QuestionnaireActions(app, user, phase)
    case Documentation => map p | p in Parties(app, phase) :: DocumentationInfo(app, user, phase, p)
    case Gate => map[]
  }

  // ---------------------------------------------------------------- the loops of the documentation branch

  lemma {:induction false} MissingMeans(app: Application, phase: Phase, docs: seq<Definition>, party: Party)
    ensures MissingOf(app, phase, docs, party) != []
       <==> exists i :: 0 <= i < |docs| && Uploader(docs[i]) == party && Missing(app, phase, docs[i])
  {
    if docs != [] {
      var n := |docs| - 1;
      MissingMeans(app, phase, docs[..n], party);
      if Uploader(docs[n]) != party || !Missing(app, phase, docs[n]) {
        assert forall i | 0 <= i < n :: docs[..n][i] == docs[i];
      }
    }
  }

  /** The definitions whose uploader's documents are (or are not) reviewed at the stage, in order. */
  function OfStage(docs: seq<Definition>, uploaders: set<Party>, now: bool): seq<Definition> {
    if docs == [] then []
    else
      var d := docs[|docs| - 1];
      OfStage(docs[..|docs| - 1], uploaders, now) + (if (Uploader(d) in uploaders) == now then [d] else [])
  }

  method SplitByStage(docs: seq<Definition>, uploaders: set<Party>)
    returns (now: seq<Definition>, later: seq<Definition>)
    ensures now == OfStage(docs, uploaders, true) && later == OfStage(docs, uploaders, false)
  {
    now, later := [], [];
    for i := 0 to |docs|
      invariant now == OfStage(docs[..i], uploaders, true) && later == OfStage(docs[..i], uploaders, false)
    {
      assert docs[..i + 1][..i] == docs[..i];
      if Uploader(docs[i]) in uploaders {
        now := now + [docs[i]];
      } else {
        later := later + [docs[i]];
      }
    }
    assert docs[..|docs|] == docs;
  }

  lemma MissingAppend(app: Application, phase: Phase, docs: seq<Definition>, d: Definition, party: Party)
    ensures MissingOf(app, phase, docs + [d], party)
         == MissingOf(app, phase, docs, party)
            + if Uploader(d) == party && Missing(app, phase, d) then [NameOf(d)] else []
  {
    assert (docs + [d])[..|docs|] == docs;
  }

  /** A party's missing documents are all of this stage or all of later ones. */
  lemma {:induction false} MissingByStage(app: Application, phase: Phase, docs: seq<Definition>, uploaders: set<Party>,
                                          now: bool, party: Party)
    ensures MissingOf(app, phase, OfStage(docs, uploaders, now), party)
         == if (party in uploaders) == now then MissingOf(app, phase, docs, party) else []
  {
    if docs != [] {
      var n := |docs| - 1;
      var before, d := OfStage(docs[..n], uploaders, now), docs[n];
      MissingByStage(app, phase, docs[..n], uploaders, now, party);
      if (Uploader(d) in uploaders) == now {
        assert OfStage(docs, uploaders, now) == before + [d];
        MissingAppend(app, phase, before, d, party);
      } else {
        assert OfStage(docs, uploaders, now) == before;
        var missing := MissingOf(app, phase, docs[..n], party);
        assert missing + [] == missing;
      }
    }
  }

  /** The missing documents grouped by party; a party without any has no entry. */
  ghost predicate Grouped(app: Application, phase: Phase, docs: seq<Definition>, pending: map<Party, seq<string>>) {
    && (forall p :: p in pending <==> MissingOf(app, phase, docs, p) != [])
    && forall p | p in pending :: pending[p] == MissingOf(app, phase, docs, p)
  }

  method GroupPending(app: Application, phase: Phase, docs: seq<Definition>) returns (pending: map<Party, seq<string>>)
    ensures Grouped(app, phase, docs, pending)
  {
    pending := map[];
    for i := 0 to |docs|
      invariant Grouped(app, phase, docs[..i], pending)
    {
      assert docs[..i + 1][..i] == docs[..i];
      var party := Uploader(docs[i]);
      if Missing(app, phase, docs[i]) {
        if party !in pending {
          pending := pending[party := []];
        }
        pending := pending[party := pending[party] + [NameOf(docs[i])]];
      }
    }
    assert docs[..|docs|] == docs;
  }

  method DocumentationActions(app: Application, user: User, phase: Phase, bound: map<Party, Option<string>>)
    returns (actions: map<Party, Info>)
    requires bound == Bindings(app.organizations)
    ensures actions.Keys == Parties(app, phase)
    ensures forall p | p in actions :: actions[p] == DocumentationInfo(app, user, phase, p)
  {
    var uploaders := Uploaders(Reviewer(phase));
    var now, later := SplitByStage(Definitions(phase), uploaders);
    var pending := GroupPending(app, phase, now);
    var allUploaded := pending.Keys == {};
    NothingPendingMeans(app, phase, now, pending.Keys);
    actions := ActionsOf(app, user, phase, bound, Parties(app, phase), later, pending, allUploaded);
  }

  method ActionsOf(app: Application, user: User, phase: Phase, bound: map<Party, Option<string>>, parties: set<Party>,
                   later: seq<Definition>, pending: map<Party, seq<string>>, allUploaded: bool)
    returns (actions: map<Party, Info>)
    requires bound == Bindings(app.organizations) && allUploaded == AllUploaded(app, phase)
    requires later == OfStage(Definitions(phase), Uploaders(Reviewer(phase)), false)
    requires Grouped(app, phase, OfStage(Definitions(phase), Uploaders(Reviewer(phase)), true), pending)
    ensures actions.Keys == parties
    ensures forall p | p in actions :: actions[p] == DocumentationInfo(app, user, phase, p)
  {
    actions := map[];
    var todo := parties;
    while todo != {}
      invariant todo <= parties
      invariant actions.Keys == parties - todo
      invariant forall p | p in actions :: actions[p] == DocumentationInfo(app, user, phase, p)
      decreases |todo|
    {
      var party :| party in todo;
      todo := todo - {party};
      var mine := if party in pending then pending[party] else [];
      var staff := if party in bound then bound[party] else None;
      var info := Decide(app, user, phase, later, mine, allUploaded, party, staff);
      actions := actions[party := info];
    }
  }

  /** The branches for one party, in the order of the code. */
  method Decide(app: Application, user: User, phase: Phase, later: seq<Definition>, mine: seq<string>,
                allUploaded: bool, party: Party, staff: Option<string>)
    returns (info: Info)
    requires later == OfStage(Definitions(phase), Uploaders(Reviewer(phase)), false)
    requires mine == MissingOf(app, phase, OfStage(Definitions(phase), Uploaders(Reviewer(phase)), true), party)
    requires allUploaded == AllUploaded(app, phase) && staff == BoundStaff(app, party)
    ensures info == DocumentationInfo(app, user, phase, party)
  {
    var docs, reviewer := Definitions(phase), Reviewer(phase);
    var uploaders := Uploaders(reviewer);
    var laterParties := set d | d in later :: Uploader(d);
    MissingByStage(app, phase, docs, uploaders, true, party);
    MissingByStage(app, phase, docs, uploaders, false, party);
    MissingMeans(app, phase, later, party);
    if |mine| > 0 {
      info := Info(Upload, mine, staff, CanAct(app, user, party));
    } else if !allUploaded {
      info := Info(Wait, [], staff, false);
    } else if party == reviewer && !StageCompleted(phase) {
      info := Info(Review, [], staff, CanAct(app, user, party));
    } else if party in laterParties && party !in uploaders {
      info := Info(Wait, MissingOf(app, phase, later, party), staff, false);
    } else {
      info := Info(Wait, [], staff, false);
    }
  }

  /** The stage awaits no document exactly when no party has a missing document of the stage. */
  lemma NothingPendingMeans(app: Application, phase: Phase, now: seq<Definition>, pending: set<Party>)
    requires now == OfStage(Definitions(phase), Uploaders(Reviewer(phase)), true)
    requires forall p :: p in pending <==> MissingOf(app, phase, now, p) != []
    ensures pending == {} <==> AllUploaded(app, phase)
  {
    var docs := Definitions(phase);
    if p :| p in pending {
      MissingByStage(app, phase, docs, Uploaders(Reviewer(phase)), true, p);
      MissingMeans(app, phase, docs, p);
      var i :| 0 <= i < |docs| && Uploader(docs[i]) == p && Missing(app, phase, docs[i]);
      assert Awaited(app, phase, i);
    }
    if i: nat :| Awaited(app, phase, i) {
      MissingMeans(app, phase, docs, Uploader(docs[i]));
      MissingByStage(app, phase, docs, Uploaders(Reviewer(phase)), true, Uploader(docs[i]));
      assert Uploader(docs[i]) in pending;
    }
  }

  // ---------------------------------------------------------------- the operation

  /** The answer: empty without a current phase; otherwise the parties' actions in the first live phase. */
  ghost predicate Shown(app: Application, user: User, view: View) {
    && view.userParty == UserParty(app, user)
    && match view.current
       case None =>
         && NoCurrentPhase(app.phases) && view.partyActions == map[]
         && view.required == if app.completed then Complete else Nothing
       case Some(k) =>
         && CurrentPhase(app.phases, k) && view.partyActions == Actions(app, user, app.phases[k])
         && view.required == RequiredOf(view.userParty, view.partyActions)
  }

  function RequiredOf(party: Option<Party>, actions: map<Party, Info>): Required {
    if party.Some? && party.value in actions then Do(actions[party.value].action) else Nothing
  }

  method FindCurrent(phases: seq<Phase>) returns (k: Option<nat>)
    ensures k.Some? ==> CurrentPhase(phases, k.value)
    ensures k.None? ==> NoCurrentPhase(phases)
  {
    for i := 0 to |phases|
      invariant forall j | 0 <= j < i :: !Live(phases[j].status)
    {
      if Live(phases[i].status) {
        return Some(i);
      }
    }
    return None;
  }

  method EverybodyWaitsForPayment(app: Application, user: User, bound: map<Party, Option<string>>)
    returns (actions: map<Party, Info>)
    requires bound == Bindings(app.organizations)
    ensures actions.Keys == bound.Keys + {Customer}
    ensures forall p | p in actions :: actions[p] == PaymentInfo(app, user, p)
  {
    actions := map[Customer := CustomerInfo(app, user, Pay)];
    var todo := bound.Keys;
    while todo != {}
      invariant todo <= bound.Keys
      invariant actions.Keys == bound.Keys - todo + {Customer}
      invariant forall p | p in actions :: actions[p] == PaymentInfo(app, user, p)
      decreases |todo|
    {
      var party :| party in todo;
      todo := todo - {party};
      if party != Customer {
        assert BoundStaff(app, party) == bound[party];
        actions := actions[party := Info(Wait, [], bound[party], false)];
      }
    }
  }

  method GetCurrentAction(found: Option<Application>, user: User) returns (r: Result<View>)
    ensures r.Err? <==> found.None?
    ensures r.Err? ==> r.error == NotFound
    ensures r.Ok? ==> Shown(found.value, user, r.value)
  {
    if found.None? {
      return Err(NotFound);
    }
    var app := found.value;
    var bound := BindOrganizations(app.organizations);
    var userParty := UserParty(app, user);
    var current := FindCurrent(app.phases);
    if current.None? {
      return Ok(View(None, map[], userParty, if app.completed then Complete else Nothing));
    }
    var phase := app.phases[current.value];
    var actions: map<Party, Info> := map[];
    match phase.category {
      case Payment =>
        actions := EverybodyWaitsForPayment(app, user, bound);
      case Questionnaire =>
        if phase.completedFieldsCount < phase.totalFieldsCount {
          actions := actions[Customer := CustomerInfo(app, user, FillQuestionnaire)];
        } else if phase.status == W.AwaitingApproval {
          actions := actions[Customer := CustomerInfo(app, user, Wait)];
          actions := actions[Platform := Info(Review, [], BoundStaff(app, Platform), CanAct(app, user, Platform))];
        } else {
          actions := actions[Customer := CustomerInfo(app, user, FillQuestionnaire)];
        }
      case Documentation =>
        actions := DocumentationActions(app, user, phase, bound);
      case Gate =>
    }
    assert actions == Actions(app, user, phase);
    return Ok(View(current, actions, userParty, RequiredOf(userParty, actions)));
  }

  // ---------------------------------------------------------------- somebody can go on

  ghost predicate SomeoneActs(actions: map<Party, Info>) {
    exists p :: p in actions && actions[p].action != Wait
  }

  /**
   * Everybody waits only at a gate, or when every document of the current stage is there and the stage is COMPLETED:
   * an exact condition for the absence of deadlock.
   */
  lemma SomeoneActsIff(app: Application, user: User, phase: Phase)
    ensures SomeoneActs(Actions(app, user, phase))
       <==> (phase.category != W.Gate
             && (phase.category == W.Documentation ==> !AllUploaded(app, phase) || !StageCompleted(phase)))
  {
    var actions := Actions(app, user, phase);
    match phase.category
    case Payment => assert actions[Customer].action == Pay;
    case Questionnaire =>
      assert Customer in actions && (actions[Customer].action == Wait ==> actions[Platform].action == Review);
    case Documentation =>
      var docs, reviewer := Definitions(phase), Reviewer(phase);
      if i: nat :| Awaited(app, phase, i) {
        var p := Uploader(docs[i]);
        MissingMeans(app, phase, docs, p);
        assert p in actions && actions[p].action == Upload;
      } else {
        assert reviewer in actions;
        forall p | p in Uploaders(reviewer)
          ensures MissingOf(app, phase, docs, p) == []
        {
          StageHasAll(app, phase, p);
        }
      }
    case Gate =>
  }

  lemma StageHasAll(app: Application, phase: Phase, party: Party)
    requires AllUploaded(app, phase) && party in Uploaders(Reviewer(phase))
    ensures MissingOf(app, phase, Definitions(phase), party) == []
  {
    var docs := Definitions(phase);
    MissingMeans(app, phase, docs, party);
    if i: nat :| i < |docs| && Uploader(docs[i]) == party && Missing(app, phase, docs[i]) {
      assert Awaited(app, phase, i);
    }
  }

  /** Nobody uploads while somebody reviews, and one party at most reviews. */
  lemma OneKindOfWork(app: Application, user: User, phase: Phase, p: Party, q: Party)
    requires p in Actions(app, user, phase) && q in Actions(app, user, phase)
    requires Actions(app, user, phase)[p].action == Review
    ensures Actions(app, user, phase)[q].action != Upload
    ensures Actions(app, user, phase)[q].action == Review ==> q == p
  {
    if phase.category == W.Documentation && q in Uploaders(Reviewer(phase)) {
      assert AllUploaded(app, phase);
      StageHasAll(app, phase, q);
    }
  }

  // ---------------------------------------------------------------- nothing is asked twice and nothing is forgotten

  predicate Distinct(parties: seq<Party>) {
    forall i, j | 0 <= i < j < |parties| :: parties[i] != parties[j]
  }

  /** All documents the parties are told to upload, one party after the other. */
  ghost function Asked(actions: map<Party, Info>, parties: seq<Party>): seq<string> {
    if parties == [] then []
    else
      var p := parties[0];
      (if p in actions && actions[p].action == Upload then actions[p].pendingDocuments else [])
      + Asked(actions, parties[1..])
  }

  /** Names of the current stage's documents that are not there, whoever uploads them. */
  function AwaitedNames(app: Application, phase: Phase, docs: seq<Definition>): seq<string> {
    if docs == [] then []
    else
      var d := docs[|docs| - 1];
      AwaitedNames(app, phase, docs[..|docs| - 1])
      + (if Uploader(d) in Uploaders(Reviewer(phase)) && Missing(app, phase, d) then [NameOf(d)] else [])
  }

  function StageList(app: Application, phase: Phase, docs: seq<Definition>, party: Party): seq<string> {
    if party in Uploaders(Reviewer(phase)) then MissingOf(app, phase, docs, party) else []
  }

  function StageLists(app: Application, phase: Phase, docs: seq<Definition>, parties: seq<Party>): seq<string> {
    if parties == [] then []
    else StageList(app, phase, docs, parties[0]) + StageLists(app, phase, docs, parties[1..])
  }

  lemma {:induction false} AskedAreStageLists(app: Application, user: User, phase: Phase, parties: seq<Party>)
    requires phase.category == W.Documentation
    ensures Asked(Actions(app, user, phase), parties) == StageLists(app, phase, Definitions(phase), parties)
  {
    if parties != [] {
      AskedAreStageLists(app, user, phase, parties[1..]);
      MissingMeans(app, phase, Definitions(phase), parties[0]);
    }
  }

  function NameIfAwaited(app: Application, phase: Phase, d: Definition, parties: seq<Party>): multiset<string> {
    if Uploader(d) in parties && Uploader(d) in Uploaders(Reviewer(phase)) && Missing(app, phase, d)
    then multiset{NameOf(d)} else multiset{}
  }

  lemma FirstPartyOrAnother(app: Application, phase: Phase, d: Definition, parties: seq<Party>)
    requires parties != [] && Distinct(parties)
    ensures NameIfAwaited(app, phase, d, parties)
         == NameIfAwaited(app, phase, d, parties[..1]) + NameIfAwaited(app, phase, d, parties[1..])
  {
    assert parties == parties[..1] + parties[1..];
  }

  lemma OneMoreForOneParty(app: Application, phase: Phase, docs: seq<Definition>, party: Party)
    requires docs != []
    ensures multiset(StageList(app, phase, docs, party))
         == multiset(StageList(app, phase, docs[..|docs| - 1], party))
            + NameIfAwaited(app, phase, docs[|docs| - 1], [party])
  {
    var d := docs[|docs| - 1];
    if Uploader(d) == party && Missing(app, phase, d) {
    } else {
      var missing := MissingOf(app, phase, docs[..|docs| - 1], party);
      assert missing + [] == missing;
    }
  }

  /** One more definition adds its name to the list of exactly one party. */
  lemma {:induction false} OneMoreDocument(app: Application, phase: Phase, docs: seq<Definition>, parties: seq<Party>)
    requires docs != [] && Distinct(parties)
    ensures multiset(StageLists(app, phase, docs, parties))
         == multiset(StageLists(app, phase, docs[..|docs| - 1], parties))
            + NameIfAwaited(app, phase, docs[|docs| - 1], parties)
  {
    if parties != [] {
      OneMoreDocument(app, phase, docs, parties[1..]);
      OneMoreForOneParty(app, phase, docs, parties[0]);
      FirstPartyOrAnother(app, phase, docs[|docs| - 1], parties);
      assert parties[..1] == [parties[0]];
    }
  }

  lemma {:induction false} ListsCoverTheStage(app: Application, phase: Phase, docs: seq<Definition>,
                                              parties: seq<Party>)
    requires Distinct(parties) && forall d | d in docs :: Uploader(d) in parties
    ensures multiset(StageLists(app, phase, docs, parties)) == multiset(AwaitedNames(app, phase, docs))
  {
    if docs == [] {
      NoDocumentsNoLists(app, phase, parties);
    } else {
      ListsCoverTheStage(app, phase, docs[..|docs| - 1], parties);
      OneMoreDocument(app, phase, docs, parties);
    }
  }

  lemma {:induction false} NoDocumentsNoLists(app: Application, phase: Phase, parties: seq<Party>)
    ensures StageLists(app, phase, [], parties) == []
  {
    if parties != [] {
      NoDocumentsNoLists(app, phase, parties[1..]);
    }
  }

  /** The UPLOAD lists of all parties partition the awaited documents of the current stage. */
  lemma UploadsPartitionTheStage(app: Application, user: User, phase: Phase, parties: seq<Party>)
    requires phase.category == W.Documentation && Distinct(parties)
    requires forall p :: p in parties <==> p in Actions(app, user, phase)
    ensures multiset(Asked(Actions(app, user, phase), parties))
         == multiset(AwaitedNames(app, phase, Definitions(phase)))
  {
    AskedAreStageLists(app, user, phase, parties);
    ListsCoverTheStage(app, phase, Definitions(phase), parties);
  }

  /**
   * A stage reviewed by LENDER never asks for a document: uploads by LENDER are filed under BANK, and the stage
   * reviews only those under LENDER.
   */
  lemma LenderStageAsksNothing(app: Application, user: User, phase: Phase)
    requires phase.category == W.Documentation && Reviewer(phase) == Lender
    ensures AllUploaded(app, phase)
    ensures !StageCompleted(phase) ==>
              Lender in Actions(app, user, phase) && Actions(app, user, phase)[Lender].action == Review
  {
    MissingMeans(app, phase, Definitions(phase), Lender);
  }

  // ---------------------------------------------------------------- rejected documents

  /** The same documents, whatever their statuses. */
  predicate SameButStatus(documents: seq<UploadedDocument>, others: seq<UploadedDocument>) {
    && |documents| == |others|
    && forall i | 0 <= i < |documents| :: others[i] == documents[i].(status := others[i].status)
  }

  lemma UploadedWhateverStatus(documents: seq<UploadedDocument>, others: seq<UploadedDocument>, phaseId: string,
                               kind: string)
    requires SameButStatus(documents, others)
    ensures Uploaded(documents, phaseId, kind) <==> Uploaded(others, phaseId, kind)
  {
    forall i | 0 <= i < |documents|
      ensures documents[i].phaseId == others[i].phaseId
      ensures documents[i].kind == others[i].kind && documents[i].documentType == others[i].documentType
    {}
  }

  lemma {:induction false} MissingWhateverStatus(app: Application, other: Application, phase: Phase,
                                                 docs: seq<Definition>, party: Party)
    requires SameButStatus(app.documents, other.documents)
    ensures MissingOf(app, phase, docs, party) == MissingOf(other, phase, docs, party)
  {
    if docs != [] {
      var n := |docs| - 1;
      MissingWhateverStatus(app, other, phase, docs[..n], party);
      UploadedWhateverStatus(app.documents, other.documents, phase.id, TypeOf(docs[n]));
    }
  }

  lemma AllUploadedWhateverStatus(app: Application, other: Application, phase: Phase)
    requires SameButStatus(app.documents, other.documents)
    ensures AllUploaded(app, phase) <==> AllUploaded(other, phase)
  {
    forall i: nat
      ensures Awaited(app, phase, i) <==> Awaited(other, phase, i)
    {
      if i < |Definitions(phase)| {
        UploadedWhateverStatus(app.documents, other.documents, phase.id, TypeOf(Definitions(phase)[i]));
      }
    }
  }

  lemma InfoWhateverStatus(app: Application, other: Application, user: User, phase: Phase, p: Party)
    requires SameButStatus(app.documents, other.documents) && other == app.(documents := other.documents)
    ensures DocumentationInfo(app, user, phase, p) == DocumentationInfo(other, user, phase, p)
  {
    MissingWhateverStatus(app, other, phase, Definitions(phase), p);
    AllUploadedWhateverStatus(app, other, phase);
    assert CanAct(app, user, p) == CanAct(other, user, p) && BoundStaff(app, p) == BoundStaff(other, p);
  }

  /** What the parties are told does not depend on the status of any document. */
  lemma StatusesAreIgnored(app: Application, other: Application, user: User, phase: Phase)
    requires SameButStatus(app.documents, other.documents) && other == app.(documents := other.documents)
    requires phase.category == W.Documentation
    ensures Actions(app, user, phase) == Actions(other, user, phase)
  {
    var parties := Parties(app, phase);
    assert Parties(other, phase) == parties;
    forall p | p in parties
      ensures DocumentationInfo(app, user, phase, p) == DocumentationInfo(other, user, phase, p)
    {
      InfoWhateverStatus(app, other, user, phase, p);
    }
  }

  /**
   * Somebody is asked to upload exactly when a document of the stage was never uploaded. If all were and some are
   * rejected or to be uploaded again, nobody is asked to, and an open stage tells its reviewer to review.
   */
  lemma UploadAskedIff(app: Application, user: User, phase: Phase)
    requires phase.category == W.Documentation
    ensures (exists p :: p in Actions(app, user, phase) && Actions(app, user, phase)[p].action == Upload)
       <==> !AllUploaded(app, phase)
    ensures AllUploaded(app, phase) && !StageCompleted(phase) ==>
              var p := Reviewer(phase); p in Actions(app, user, phase) && Actions(app, user, phase)[p].action == Review
  {
    var docs := Definitions(phase);
    if i: nat :| Awaited(app, phase, i) {
      MissingMeans(app, phase, docs, Uploader(docs[i]));
      assert Uploader(docs[i]) in Actions(app, user, phase)
          && Actions(app, user, phase)[Uploader(docs[i])].action == Upload;
    } else {
      forall p | p in Uploaders(Reviewer(phase))
        ensures MissingOf(app, phase, docs, p) == []
      {
        StageHasAll(app, phase, p);
      }
    }
  }

  /** A document that is not required holds up the review of its stage all the same. */
  lemma OptionalDocumentHoldsUpReview(app: Application, user: User, phase: Phase, i: nat, p: Party)
    requires phase.category == W.Documentation && Awaited(app, phase, i) && !Definitions(phase)[i].isRequired
    requires p in Actions(app, user, phase)
    ensures Actions(app, user, phase)[p].action != Review
  {
    assert !AllUploaded(app, phase);
    assert Actions(app, user, phase)[p] == DocumentationInfo(app, user, phase, p);
  }

  // ---------------------------------------------------------------- the caller

  lemma NeverSpokenToAsLender(app: Application, user: User)
    ensures UserParty(app, user) != Some(Lender)
    ensures UserParty(app, user) == Some(Customer) <==> IsCustomer(app, user)
  {
    if !IsCustomer(app, user) && UserParty(app, user).Some? {
      var k :| 0 <= k < |PRIORITY| && PRIORITY[k] in user.orgTypes
               && UserParty(app, user).value == Normalize(PRIORITY[k]);
      assert PRIORITY[k] in {Bank, Lender, Platform, Developer, Legal, Insurer, Government};
    }
  }

  /** The caller may act for a party exactly when the party has work and the caller's own rights cover it. */
  lemma MayActIff(app: Application, user: User, phase: Phase, p: Party)
    requires p in Actions(app, user, phase)
    ensures Actions(app, user, phase)[p].canCurrentUserAct
       <==> Actions(app, user, phase)[p].action != Wait && CanAct(app, user, p)
  {
    match phase.category
    case Payment => assert Actions(app, user, phase)[p] == PaymentInfo(app, user, p);
    case Questionnaire =>
    case Documentation => assert Actions(app, user, phase)[p] == DocumentationInfo(app, user, phase, p);
    case Gate => assert false;
  }

  /** A caller whose own party has work may do it exactly when it holds that very code and nobody else is assigned. */
  lemma ToldAndAllowedIff(app: Application, user: User, phase: Phase, p: Party)
    requires UserParty(app, user) == Some(p) && p in Actions(app, user, phase)
    requires Actions(app, user, phase)[p].action != Wait
    ensures Actions(app, user, phase)[p].canCurrentUserAct
       <==> p == Customer || (p in user.orgTypes && (BoundStaff(app, p).Some? ==> BoundStaff(app, p) == user.id))
  {
    NeverSpokenToAsLender(app, user);
    MayActIff(app, user, phase, p);
  }

  /** A user whose only code is LENDER is spoken to as the bank but may never act for it. */
  lemma LenderOnlyNeverActs(app: Application, user: User, phase: Phase)
    requires !IsCustomer(app, user) && user.orgTypes == [Lender]
    ensures UserParty(app, user) == Some(Bank)
    ensures Bank in Actions(app, user, phase) ==> !Actions(app, user, phase)[Bank].canCurrentUserAct
  {
    assert PRIORITY[0] == Bank && PRIORITY[1] == Lender;
    assert FirstOf(user.orgTypes, 0) == FirstOf(user.orgTypes, 1) == Some(Bank);
  }

  // ---------------------------------------------------------------- what is asked and what the workflow accepts

  predicate Shows(app: Application, phases: seq<W.Phase>, b: W.Board) {
    && |app.phases| == |phases| == |b.statuses|
    && forall i | 0 <= i < |phases| ::
         app.phases[i].category == phases[i].category && app.phases[i].status == b.statuses[i]
  }

  /** Some party is told to do something that the workflow then takes. */
  predicate QuestionnaireGoesOn(app: Application, user: User, phases: seq<W.Phase>, b: W.Board, k: nat)
    requires Shows(app, phases, b) && k < |phases|
  {
    var actions := QuestionnaireActions(app, user, app.phases[k]);
    || (Customer in actions && actions[Customer].action == FillQuestionnaire && W.Answer(phases, b, k, false).Ok?)
    || (Platform in actions && actions[Platform].action == Review && W.Review(phases, b, k, true).Ok?)
  }

  /**
   * In a live questionnaire phase somebody is told to act, but the workflow takes that act only when the phase is
   * IN_PROGRESS, or awaits approval with at least as many answers as questions.
   */
  lemma QuestionnaireGoesOnIff(app: Application, user: User, phases: seq<W.Phase>, b: W.Board, k: nat)
    requires Shows(app, phases, b) && CurrentPhase(app.phases, k) && phases[k].category == W.Questionnaire
    ensures SomeoneActs(Actions(app, user, app.phases[k]))
    ensures QuestionnaireGoesOn(app, user, phases, b, k)
       <==> (b.statuses[k] == W.InProgress
             || (b.statuses[k] == W.AwaitingApproval
                 && app.phases[k].completedFieldsCount >= app.phases[k].totalFieldsCount))
  {
    SomeoneActsIff(app, user, app.phases[k]);
  }

  function FieldNames(fields: seq<Q.Field>): set<string> {
    set i | 0 <= i < |fields| :: fields[i].name
  }

  lemma {:induction false} NamesCount(fields: seq<Q.Field>)
    requires forall i, j | 0 <= i < j < |fields| :: fields[i].name != fields[j].name
    ensures |FieldNames(fields)| == |fields|
  {
    if fields != [] {
      var n := |fields| - 1;
      NamesCount(fields[..n]);
      assert FieldNames(fields) == FieldNames(fields[..n]) + {fields[n].name};
    }
  }

  lemma SubsetCount<T>(a: set<T>, b: set<T>)
    requires a <= b
    ensures |a| <= |b| && (|a| >= |b| <==> a == b)
  {
    assert b == a + (b - a);
    assert |b| == |a| + |b - a|;
  }

  /** The application as it is shown after an accepted submission that is not decided automatically. */
  predicate ShownAfterAnswers(app: Application, phases: seq<W.Phase>, b: W.Board, k: nat, fields: nat,
                              submitted: seq<string>)
    requires |phases| == |b.statuses|
  {
    && W.Answer(phases, b, k, false).Ok?
    && Shows(app, phases, W.Answer(phases, b, k, false).value)
    && app.phases[k].completedFieldsCount == |submitted| && app.phases[k].totalFieldsCount == fields
  }

  /**
   * After such a submission the questionnaire goes on exactly when at least as many answers were sent as there
   * are questions, unknown and repeated ones counted.
   */
  lemma ReviewShownIffEnoughAnswers(app: Application, user: User, phases: seq<W.Phase>, b: W.Board, k: nat,
                                    fields: nat, submitted: seq<string>)
    requires |phases| == |b.statuses| && ShownAfterAnswers(app, phases, b, k, fields, submitted)
    ensures QuestionnaireGoesOn(app, user, phases, W.Answer(phases, b, k, false).value, k) <==> |submitted| >= fields
  {}

  lemma {:induction false} AtMostAsManyNames(names: seq<string>)
    ensures |(set name | name in names)| <= |names|
    ensures (forall i, j | 0 <= i < j < |names| :: names[i] != names[j]) ==> |(set name | name in names)| == |names|
  {
    if names != [] {
      var n := |names| - 1;
      AtMostAsManyNames(names[..n]);
      var before := set name | name in names[..n];
      assert (set name | name in names) == before + {names[n]};
      if forall i, j | 0 <= i < j < |names| :: names[i] != names[j] {
        assert names[n] !in before;
      }
    }
  }

  /** If every question is answered, the review is shown, whatever else is sent along. */
  lemma AllAnsweredShowsReview(app: Application, user: User, phases: seq<W.Phase>, b: W.Board, k: nat,
                               fields: seq<Q.Field>, submitted: seq<string>)
    requires |phases| == |b.statuses| && ShownAfterAnswers(app, phases, b, k, |fields|, submitted)
    requires forall i, j | 0 <= i < j < |fields| :: fields[i].name != fields[j].name
    requires forall i | 0 <= i < |fields| :: fields[i].name in submitted
    ensures QuestionnaireGoesOn(app, user, phases, W.Answer(phases, b, k, false).value, k)
  {
    NamesCount(fields);
    AtMostAsManyNames(submitted);
    SubsetCount(FieldNames(fields), set name | name in submitted);
    ReviewShownIffEnoughAnswers(app, user, phases, b, k, |fields|, submitted);
  }

  /**
   * When each answer is for a question of its own, the review is shown exactly when every question was
   * answered; leaving out one optional or hidden question stalls the phase.
   */
  lemma ReviewShownIffAllAnswered(app: Application, user: User, phases: seq<W.Phase>, b: W.Board, k: nat,
                                  fields: seq<Q.Field>, submitted: seq<string>)
    requires |phases| == |b.statuses| && ShownAfterAnswers(app, phases, b, k, |fields|, submitted)
    requires forall i, j | 0 <= i < j < |fields| :: fields[i].name != fields[j].name
    requires forall i, j | 0 <= i < j < |submitted| :: submitted[i] != submitted[j]
    requires forall name | name in submitted :: name in FieldNames(fields)
    ensures QuestionnaireGoesOn(app, user, phases, W.Answer(phases, b, k, false).value, k)
       <==> forall i | 0 <= i < |fields| :: fields[i].name in submitted
  {
    var names := set name | name in submitted;
    NamesCount(fields);
    AtMostAsManyNames(submitted);
    SubsetCount(names, FieldNames(fields));
    ReviewShownIffEnoughAnswers(app, user, phases, b, k, |fields|, submitted);
    assert names == FieldNames(fields) <==> forall i | 0 <= i < |fields| :: fields[i].name in names;
  }

  /** Rejecting a questionnaire leaves an application at the frontier with no current phase: nobody has work. */
  lemma RejectionLeavesNobody(app: Application, phases: seq<W.Phase>, b: W.Board, k: nat)
    requires |phases| == |b.statuses| && W.Frontier(b) && W.Review(phases, b, k, false).Ok?
    requires Shows(app, phases, W.Review(phases, b, k, false).value)
    ensures NoCurrentPhase(app.phases)
  {
    var c :| W.FrontierAt(b, c);
    assert c == k;
  }

  /**
   * Settling the frontier phase by an adjustment keeps the frontier but starts nothing: every phase is COMPLETED
   * or PENDING, so there is no current phase until the next one is activated by hand, which is accepted.
   */
  lemma SettlingLeavesNobody(app: Application, phases: seq<W.Phase>, b: W.Board, c: nat)
    requires |phases| == |b.statuses| && W.FrontierAt(b, c) && c < |phases|
    requires Shows(app, phases, W.Next(phases, b, W.Settle(c)))
    ensures W.Frontier(W.Next(phases, b, W.Settle(c))) && NoCurrentPhase(app.phases)
    ensures c + 1 < |phases| ==> W.ActivatePhase(phases, W.Next(phases, b, W.Settle(c)), c + 1).Ok?
  {
    W.SettleKeepsFrontierIff(b, c, c);
  }

  // ---------------------------------------------------------------- payment phases

  /** Some payment for phase `k` is taken: for the phase, for one of its installments, or ahead. */
  ghost predicate PaymentTaken(s: L.State, k: nat, amount: int)
    requires L.WellFormed(s)
  {
    || L.Create(s, Some(k), None, amount).Ok?
    || (exists i: nat :: i < |s.installments| && s.installments[i].phase == k && L.Create(s, None, Some(i), amount).Ok?)
    || L.PayAhead(s, amount).Ok?
  }

  /**
   * The customer of a payment phase is always told to pay. Such a payment is taken exactly when the phase has no
   * account, or collects funds, or some installment of the application is open to pay-ahead.
   */
  lemma PaymentGoesOnIff(app: Application, user: User, phase: Phase, s: L.State, k: nat, amount: int)
    requires phase.category == W.Payment && L.WellFormed(s) && k < |s.accounts|
    ensures Customer in Actions(app, user, phase) && Actions(app, user, phase)[Customer].action == Pay
    ensures PaymentTaken(s, k, amount)
       <==> s.accounts[k].None? || s.accounts[k].value.collectFunds || L.AnyOpen(s)
  {
    assert Actions(app, user, phase)[Customer] == PaymentInfo(app, user, Customer);
    if i: nat :| i < |s.installments| && s.installments[i].phase == k && L.Create(s, None, Some(i), amount).Ok? {
      assert s.accounts[k].value.collectFunds;
    }
  }
}
