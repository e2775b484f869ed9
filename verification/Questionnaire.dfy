/**
 * Scoring of a submitted questionnaire: a loop over the fields with first-match-wins rules. What JavaScript makes
 * of an answer as a number or a string, and whether a field is visible, are parameters.
 */
module Questionnaire {
  import opened Common
  import W = PhaseWorkflow

  datatype Value = Number(n: real) | Boolean(b: bool) | Text(s: string)

  datatype Operator =
    | Equals | NotEquals | In | NotIn | GreaterThan | LessThan | GreaterThanOrEqual | LessThanOrEqual
    | Exists | NotExists

  datatype Rule = Rule(operator: Option<Operator>, value: Option<Value>, score: Option<real>)

  datatype Question = Question(key: string, rules: Option<seq<Rule>>, weight: Option<real>)

  datatype Strategy = MinAll | Sum | Average | WeightedSum

  datatype Plan = Plan(questions: seq<Question>, strategy: Option<Strategy>, passingScore: Option<real>,
                       autoDecision: bool)

  datatype Field = Field(name: string, required: bool)

  /** `asNumber` is None where JavaScript yields NaN. */
  datatype Context = Context(answers: map<string, Value>, plan: Option<Plan>, visible: string -> bool,
                             asNumber: Value -> Option<real>, asText: Value -> string)

  // ---------------------------------------------------------------- one rule, one field

  predicate CompareNumbers(operator: Operator, answer: Option<real>, value: real) {
    match operator
    case GreaterThan => answer.Some? && answer.value > value
    case GreaterThanOrEqual => answer.Some? && answer.value >= value
    case LessThan => answer.Some? && answer.value < value
    case LessThanOrEqual => answer.Some? && answer.value <= value
    case Equals => answer == Some(value)
    case NotEquals => answer != Some(value)
    case _ => false
  }

  predicate Matches(rule: Rule, answer: Value, c: Context) {
    && rule.operator.Some? && rule.value.Some? && rule.score.Some?
    && match rule.value.value
       case Number(n) => CompareNumbers(rule.operator.value, c.asNumber(answer), n)
       case Boolean(b) =>
         var given := answer in {Boolean(true), Text("true"), Number(1.0)};
         (rule.operator.value == Equals && given == b) || (rule.operator.value == NotEquals && given != b)
       case Text(t) =>
         (rule.operator.value == Equals && c.asText(answer) == t)
         || (rule.operator.value == NotEquals && c.asText(answer) != t)
  }

  /** Rule `j` is the first of the list that matches. */
  predicate FirstMatch(rules: seq<Rule>, answer: Value, c: Context, j: nat) {
    && j < |rules| && Matches(rules[j], answer, c)
    && forall i | 0 <= i < j :: !Matches(rules[i], answer, c)
  }

  /** The score of the first rule that matches, if any does. */
  function RuleScore(rules: seq<Rule>, answer: Value, c: Context): Option<real> {
    if rules == [] then None
    else if Matches(rules[0], answer, c) then rules[0].score
    else RuleScore(rules[1..], answer, c)
  }

  lemma {:induction false} FirstMatchWins(rules: seq<Rule>, answer: Value, c: Context, j: nat)
    requires FirstMatch(rules, answer, c, j)
    ensures RuleScore(rules, answer, c) == rules[j].score
  {
    if j > 0 {
      assert !Matches(rules[0], answer, c);
      FirstMatchWins(rules[1..], answer, c, j - 1);
    }
  }

  lemma {:induction false} NoMatchNoScore(rules: seq<Rule>, answer: Value, c: Context)
    requires forall i | 0 <= i < |rules| :: !Matches(rules[i], answer, c)
    ensures RuleScore(rules, answer, c).None?
  {
    if rules != [] {
      NoMatchNoScore(rules[1..], answer, c);
    }
  }

  function FindQuestion(questions: seq<Question>, key: string): Option<Question> {
    if questions == [] then None
    else if questions[0].key == key then Some(questions[0])
    else FindQuestion(questions[1..], key)
  }

  function QuestionFor(c: Context, name: string): Option<Question> {
    match c.plan
    case Some(plan) => FindQuestion(plan.questions, name)
    case None => None
  }

  /** A missing weight counts as 1, and so does a weight of 0. */
  function Weight(question: Option<Question>): real {
    if question.Some? && question.value.weight.Some? && question.value.weight.value != 0.0
    then question.value.weight.value else 1.0
  }

  predicate Scored(field: Field, c: Context) {
    field.name in c.answers && c.visible(field.name)
  }

  /** What a scored field is worth before its weight, and whether it passes. */
  function Verdict(field: Field, c: Context): (real, bool)
    requires Scored(field, c)
  {
    var question := QuestionFor(c, field.name);
    if question.Some? && question.value.rules.Some? then
      match RuleScore(question.value.rules.value, c.answers[field.name], c)
      case Some(score) => (score, score > 0.0)
      case None => (0.0, true)
    else (1.0, true)
  }

  function Points(field: Field, c: Context): real {
    if Scored(field, c) then Verdict(field, c).0 * Weight(QuestionFor(c, field.name)) else 0.0
  }

  predicate Passes(field: Field, c: Context) {
    Scored(field, c) ==> Verdict(field, c).1
  }

  // ---------------------------------------------------------------- all fields

  function TotalPoints(fields: seq<Field>, c: Context): real {
    if fields == [] then 0.0 else TotalPoints(fields[..|fields| - 1], c) + Points(fields[|fields| - 1], c)
  }

  predicate AllPass(fields: seq<Field>, c: Context) {
    forall i | 0 <= i < |fields| :: Passes(fields[i], c)
  }

  /** The inner loop over the rules of one question. */
  method ScoreRules(rules: seq<Rule>, answer: Value, c: Context) returns (fieldScore: real, fieldPassed: bool)
    ensures (fieldScore, fieldPassed)
         == match RuleScore(rules, answer, c) case Some(score) => (score, score > 0.0) case None => (0.0, true)
  {
    fieldScore, fieldPassed := 0.0, true;
    for j := 0 to |rules|
      invariant forall i | 0 <= i < j :: !Matches(rules[i], answer, c)
      invariant fieldScore == 0.0 && fieldPassed
    {
      if Matches(rules[j], answer, c) {
        FirstMatchWins(rules, answer, c, j);
        fieldScore := rules[j].score.value;
        fieldPassed := rules[j].score.value > 0.0;
        return;
      }
    }
    NoMatchNoScore(rules, answer, c);
  }

  /** The outer loop: the running total and conjunction are the sum and the conjunction over the scored fields. */
  method ScoreFields(fields: seq<Field>, c: Context) returns (totalScore: real, allPassed: bool)
    ensures totalScore == TotalPoints(fields, c) && allPassed == AllPass(fields, c)
  {
    totalScore, allPassed := 0.0, true;
    for i := 0 to |fields|
      invariant totalScore == TotalPoints(fields[..i], c)
      invariant allPassed == AllPass(fields[..i], c)
    {
      var field := fields[i];
      assert fields[..i + 1][..i] == fields[..i];
      if field.name !in c.answers || !c.visible(field.name) {
        continue;
      }
      var question := QuestionFor(c, field.name);
      var fieldScore, fieldPassed := 0.0, true;
      if question.Some? && question.value.rules.Some? {
        fieldScore, fieldPassed := ScoreRules(question.value.rules.value, c.answers[field.name], c);
      } else {
        fieldScore := 1.0;
      }
      fieldScore := fieldScore * Weight(question);
      totalScore := totalScore + fieldScore;
      if !fieldPassed {
        allPassed := false;
      }
    }
    assert fields[..|fields|] == fields;
  }

  function PassingScore(own: Option<real>, c: Context): real {
    if own.Some? && own.value != 0.0 then own.value
    else if c.plan.Some? && c.plan.value.passingScore.Some? then c.plan.value.passingScore.value
    else 0.0
  }

  function StrategyOf(c: Context): Strategy {
    if c.plan.Some? && c.plan.value.strategy.Some? then c.plan.value.strategy.value else Sum
  }

  predicate Decision(fields: seq<Field>, own: Option<real>, c: Context) {
    var total := TotalPoints(fields, c);
    match StrategyOf(c)
    case MinAll => AllPass(fields, c)
    case Sum => total >= PassingScore(own, c)
    case Average => (if |fields| > 0 then total / |fields| as real else 0.0) >= PassingScore(own, c)
    case WeightedSum => total >= PassingScore(own, c)
  }

  predicate Complete(fields: seq<Field>, c: Context) {
    forall i | 0 <= i < |fields| ::
      fields[i].required && c.visible(fields[i].name) ==> fields[i].name in c.answers
  }

  datatype Submission = Submission(totalScore: real, passed: bool, autoComplete: bool)

  /** `submitQuestionnaire` up to its transaction; `autoComplete` is what the phase workflow is told. */
  method Submit(category: W.Category, status: W.PhaseStatus, fields: seq<Field>, own: Option<real>, c: Context)
    returns (r: Result<Submission>)
    ensures r.Ok? <==> category == W.Questionnaire && status == W.InProgress && Complete(fields, c)
    ensures r.Err? ==> r.error == BadRequest
    ensures r.Ok? ==>
      && r.value.totalScore == TotalPoints(fields, c)
      && r.value.passed == Decision(fields, own, c)
      && r.value.autoComplete == (c.plan.Some? && c.plan.value.autoDecision && Decision(fields, own, c))
  {
    if category != W.Questionnaire || status != W.InProgress {
      return Err(BadRequest);
    }
    for i := 0 to |fields|
      invariant Complete(fields[..i], c)
    {
      var field := fields[i];
      if field.required && field.name !in c.answers && c.visible(field.name) {
        assert !Complete(fields, c);
        return Err(BadRequest);
      }
    }
    var totalScore, allPassed := ScoreFields(fields, c);
    var passingScore := PassingScore(own, c);
    var passed := false;
    match StrategyOf(c) {
      case MinAll => passed := allPassed;
      case Sum => passed := totalScore >= passingScore;
      case Average =>
        var avgScore := if |fields| > 0 then totalScore / |fields| as real else 0.0;
        passed := avgScore >= passingScore;
      case WeightedSum => passed := totalScore >= passingScore;
    }
    return Ok(Submission(totalScore, passed, c.plan.Some? && c.plan.value.autoDecision && passed));
  }

  // ---------------------------------------------------------------- the order of the fields does not matter

  lemma {:induction false} TotalWithout(fields: seq<Field>, i: nat, c: Context)
    requires i < |fields|
    ensures TotalPoints(fields, c) == TotalPoints(fields[..i] + fields[i + 1..], c) + Points(fields[i], c)
  {
    var last := |fields| - 1;
    if i == last {
      assert fields[..i] + fields[i + 1..] == fields[..last];
    } else {
      TotalWithout(fields[..last], i, c);
      var rest := fields[..i] + fields[i + 1..];
      assert rest[..|rest| - 1] == fields[..last][..i] + fields[..last][i + 1..];
      assert rest[|rest| - 1] == fields[last];
    }
  }

  /** A field that occurs in both lists can be taken out of both. */
  lemma TakeOut(fields: seq<Field>, other: seq<Field>) returns (i: nat)
    requires multiset(fields) == multiset(other) && fields != []
    ensures i < |other| && other[i] == fields[|fields| - 1]
    ensures multiset(fields[..|fields| - 1]) == multiset(other[..i] + other[i + 1..])
  {
    var last := |fields| - 1;
    assert fields == fields[..last] + [fields[last]];
    assert fields[last] in multiset(other);
    i :| 0 <= i < |other| && other[i] == fields[last];
    WithoutOne(other, i);
  }

  lemma WithoutOne(fields: seq<Field>, i: nat)
    requires i < |fields|
    ensures multiset(fields[..i] + fields[i + 1..]) == multiset(fields) - multiset{fields[i]}
  {
    assert fields == fields[..i] + [fields[i]] + fields[i + 1..];
  }

  /** Permuting the fields leaves the total as it is. */
  lemma {:induction false} TotalIgnoresOrder(fields: seq<Field>, other: seq<Field>, c: Context)
    requires multiset(fields) == multiset(other)
    ensures TotalPoints(fields, c) == TotalPoints(other, c)
    decreases |fields|
  {
    assert |fields| == |multiset(fields)| == |multiset(other)| == |other|;
    if fields != [] {
      var i := TakeOut(fields, other);
      TotalIgnoresOrder(fields[..|fields| - 1], other[..i] + other[i + 1..], c);
      TotalWithout(other, i, c);
    }
  }

  lemma AllPassIgnoresOrder(fields: seq<Field>, other: seq<Field>, c: Context)
    requires multiset(fields) == multiset(other) && AllPass(fields, c)
    ensures AllPass(other, c)
  {
    forall i | 0 <= i < |other|
      ensures Passes(other[i], c)
    {
      assert other[i] in multiset(other);
      assert other[i] in fields;
    }
  }

  /** Permuting the fields leaves the decision as it is, under every strategy. */
  lemma DecisionIgnoresOrder(fields: seq<Field>, other: seq<Field>, own: Option<real>, c: Context)
    requires multiset(fields) == multiset(other)
    ensures Decision(fields, own, c) == Decision(other, own, c)
  {
    assert |fields| == |multiset(fields)| == |other|;
    TotalIgnoresOrder(fields, other, c);
    if AllPass(fields, c) {
      AllPassIgnoresOrder(fields, other, c);
    }
    if AllPass(other, c) {
      AllPassIgnoresOrder(other, fields, c);
    }
  }

  // ---------------------------------------------------------------- what MIN_ALL lets through

  /** The field counts and has rules. */
  predicate Ruled(field: Field, c: Context) {
    Scored(field, c) && QuestionFor(c, field.name).Some? && QuestionFor(c, field.name).value.rules.Some?
  }

  function RulesFor(field: Field, c: Context): seq<Rule>
    requires Ruled(field, c)
  {
    QuestionFor(c, field.name).value.rules.value
  }

  predicate Unmatched(field: Field, c: Context) {
    && Ruled(field, c)
    && forall i | 0 <= i < |RulesFor(field, c)| :: !Matches(RulesFor(field, c)[i], c.answers[field.name], c)
  }

  /** Rule `j` decides the field. */
  predicate Decides(field: Field, c: Context, j: nat) {
    Ruled(field, c) && FirstMatch(RulesFor(field, c), c.answers[field.name], c, j)
  }

  ghost predicate Approved(field: Field, c: Context) {
    exists j: nat :: Decides(field, c, j) && RulesFor(field, c)[j].score.value > 0.0
  }

  ghost predicate Rejected(field: Field, c: Context) {
    exists j: nat :: Decides(field, c, j) && RulesFor(field, c)[j].score.value <= 0.0
  }

  lemma {:induction false} SomeRuleFirst(rules: seq<Rule>, answer: Value, c: Context) returns (j: nat)
    requires exists i | 0 <= i < |rules| :: Matches(rules[i], answer, c)
    ensures FirstMatch(rules, answer, c, j)
  {
    if Matches(rules[0], answer, c) {
      j := 0;
    } else {
      j := SomeRuleFirst(rules[1..], answer, c);
      j := j + 1;
    }
  }

  /** A field with rules is approved, rejected or unmatched, and only a rejected one fails. */
  lemma FieldOutcome(field: Field, c: Context)
    ensures Passes(field, c) <==> !Rejected(field, c)
    ensures Ruled(field, c) ==> Approved(field, c) || Rejected(field, c) || Unmatched(field, c)
    ensures Unmatched(field, c) ==> !Approved(field, c) && !Rejected(field, c)
    ensures Approved(field, c) ==> !Rejected(field, c)
  {
    if Ruled(field, c) {
      if Unmatched(field, c) {
        NoMatchNoScore(RulesFor(field, c), c.answers[field.name], c);
      } else {
        var j := SomeRuleFirst(RulesFor(field, c), c.answers[field.name], c);
        assert Decides(field, c, j);
        FirstMatchWins(RulesFor(field, c), c.answers[field.name], c, j);
        if i: nat :| Decides(field, c, i) && i != j {
          FirstMatchWins(RulesFor(field, c), c.answers[field.name], c, i);
        }
        assert forall i: nat :: Decides(field, c, i) ==> i == j;
      }
    }
  }

  /**
   * Under MIN_ALL the decision says that every field with rules is approved by its first match, exactly when no
   * such field is left unmatched, or one is rejected anyway: an unmatched field scores 0 and still passes.
   */
  lemma MinAllApprovesIff(fields: seq<Field>, own: Option<real>, c: Context)
    requires StrategyOf(c) == MinAll
    ensures (Decision(fields, own, c)
             <==> forall i | 0 <= i < |fields| && Ruled(fields[i], c) :: Approved(fields[i], c))
       <==> ((forall i | 0 <= i < |fields| :: !Unmatched(fields[i], c))
             || exists i | 0 <= i < |fields| :: Rejected(fields[i], c))
  {
    forall i | 0 <= i < |fields|
      ensures Passes(fields[i], c) <==> !Rejected(fields[i], c)
      ensures Ruled(fields[i], c) ==> (Approved(fields[i], c) <==> !Rejected(fields[i], c) && !Unmatched(fields[i], c))
    {
      FieldOutcome(fields[i], c);
    }
  }

  /** One question with the rule "over 18 scores 1", answered 17. */
  function AnsweredSeventeen(): Context {
    Context(map["age" := Number(17.0)],
            Some(Plan([Question("age", Some([Rule(Some(GreaterThan), Some(Number(18.0)), Some(1.0))]), None)],
                      Some(MinAll), None, true)),
            _ => true, (v: Value) => if v.Number? then Some(v.n) else None, _ => "")
  }

  /** No rule matches, so the submission scores 0, passes under MIN_ALL and completes its phase automatically. */
  lemma UnmatchedFieldPasses()
    ensures var c, fields := AnsweredSeventeen(), [Field("age", true)];
            && Complete(fields, c) && Unmatched(fields[0], c) && TotalPoints(fields, c) == 0.0
            && Decision(fields, None, c) && c.plan.value.autoDecision
  {
    var c, field := AnsweredSeventeen(), Field("age", true);
    assert Ruled(field, c) && RulesFor(field, c) == [Rule(Some(GreaterThan), Some(Number(18.0)), Some(1.0))];
    FieldOutcome(field, c);
    NoMatchNoScore(RulesFor(field, c), c.answers["age"], c);
    assert [field][..0] == [];
  }
}
