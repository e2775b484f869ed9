/** What single answers, weights and thresholds do to a questionnaire, told without the helpers of its scoring. */
module QuestionnaireOutcomes {
  import opened Common
  import opened Questionnaire
  import W = PhaseWorkflow

  // ---------------------------------------------------------------- which rules match

  function RuleFor(operator: Operator, value: Value, score: real): Rule {
    Rule(Some(operator), Some(value), Some(score))
  }

  /** A numeric rule compares the answer as a number; four operators never match, and no number only differs. */
  lemma NumericRules(answer: Value, a: real, n: real, score: real, c: Context)
    requires c.asNumber(answer) == Some(a)
    ensures Matches(RuleFor(GreaterThan, Number(n), score), answer, c) <==> a > n
    ensures Matches(RuleFor(GreaterThanOrEqual, Number(n), score), answer, c) <==> a >= n
    ensures Matches(RuleFor(LessThan, Number(n), score), answer, c) <==> a < n
    ensures Matches(RuleFor(LessThanOrEqual, Number(n), score), answer, c) <==> a <= n
    ensures Matches(RuleFor(Equals, Number(n), score), answer, c) <==> a == n
    ensures Matches(RuleFor(NotEquals, Number(n), score), answer, c) <==> a != n
  {}

  lemma NotANumber(operator: Operator, answer: Value, n: real, score: real, c: Context)
    requires c.asNumber(answer).None?
    ensures Matches(RuleFor(operator, Number(n), score), answer, c) <==> operator == NotEquals
  {}

  /** Membership and existence operators, and rules that lack a part, never match. */
  lemma NeverMatches(rule: Rule, answer: Value, c: Context)
    requires rule.operator in {None, Some(In), Some(NotIn), Some(Exists), Some(NotExists)}
             || rule.value.None? || rule.score.None?
    ensures !Matches(rule, answer, c)
  {}

  /** A boolean rule takes true, "true" and 1 for yes and anything else for no. */
  lemma BooleanRules(answer: Value, b: bool, score: real, c: Context)
    ensures Matches(RuleFor(Equals, Boolean(b), score), answer, c)
       <==> b == (answer == Boolean(true) || answer == Text("true") || answer == Number(1.0))
    ensures Matches(RuleFor(NotEquals, Boolean(b), score), answer, c)
       <==> !Matches(RuleFor(Equals, Boolean(b), score), answer, c)
  {}

  lemma TextRules(answer: Value, text: string, score: real, c: Context)
    ensures Matches(RuleFor(Equals, Text(text), score), answer, c) <==> c.asText(answer) == text
    ensures Matches(RuleFor(NotEquals, Text(text), score), answer, c) <==> c.asText(answer) != text
  {}

  lemma NoOrderElsewhere(operator: Operator, answer: Value, value: Value, score: real, c: Context)
    requires !value.Number? && operator !in {Equals, NotEquals}
    ensures !Matches(RuleFor(operator, value, score), answer, c)
  {}

  // ---------------------------------------------------------------- what a field adds

  /** Question `i` is the first of the plan with that key. */
  predicate Asks(c: Context, name: string, i: nat) {
    && c.plan.Some? && i < |c.plan.value.questions| && c.plan.value.questions[i].key == name
    && forall j | 0 <= j < i :: c.plan.value.questions[j].key != name
  }

  lemma {:induction false} FirstOfKey(questions: seq<Question>, key: string, i: nat)
    requires i < |questions| && questions[i].key == key && forall j | 0 <= j < i :: questions[j].key != key
    ensures FindQuestion(questions, key) == Some(questions[i])
  {
    if i > 0 {
      FirstOfKey(questions[1..], key, i - 1);
    }
  }

  lemma {:induction false} NoneOfKey(questions: seq<Question>, key: string)
    requires forall j | 0 <= j < |questions| :: questions[j].key != key
    ensures FindQuestion(questions, key).None?
  {
    if questions != [] {
      NoneOfKey(questions[1..], key);
    }
  }

  lemma OneMoreField(fields: seq<Field>, field: Field, c: Context)
    ensures TotalPoints(fields + [field], c) == TotalPoints(fields, c) + Points(field, c)
  {
    assert (fields + [field])[..|fields|] == fields;
  }

  /** The weight of a question; one of 0 counts like none, which is 1. */
  predicate Weighs(question: Question, w: real) {
    if question.weight.None? || question.weight == Some(0.0) then w == 1.0 else question.weight == Some(w)
  }

  /** A field whose question weighs `w` and whose first match scores `x` adds `x * w`; without a weight it adds `x`. */
  lemma MatchAddsWeightedScore(fields: seq<Field>, field: Field, c: Context, i: nat, rules: seq<Rule>, j: nat, w: real)
    requires field.name in c.answers && c.visible(field.name) && Asks(c, field.name, i)
    requires c.plan.value.questions[i].rules == Some(rules) && FirstMatch(rules, c.answers[field.name], c, j)
    requires Weighs(c.plan.value.questions[i], w)
    ensures TotalPoints(fields + [field], c) == TotalPoints(fields, c) + rules[j].score.value * w
    ensures Passes(field, c) <==> rules[j].score.value > 0.0
  {
    FirstOfKey(c.plan.value.questions, field.name, i);
    FirstMatchWins(rules, c.answers[field.name], c, j);
    OneMoreField(fields, field, c);
  }

  /** Without a match it adds nothing, and without rules its weight alone; either way it passes. */
  lemma NoMatchAddsNothing(fields: seq<Field>, field: Field, c: Context, i: nat, w: real)
    requires field.name in c.answers && c.visible(field.name) && Asks(c, field.name, i)
    requires Weighs(c.plan.value.questions[i], w)
    ensures var question, gain := c.plan.value.questions[i], TotalPoints(fields + [field], c) - TotalPoints(fields, c);
            && (question.rules.None? ==> gain == w && Passes(field, c))
            && (question.rules.Some? && NoRuleMatches(question.rules.value, c.answers[field.name], c) ==>
                  gain == 0.0 && Passes(field, c))
  {
    var question := c.plan.value.questions[i];
    FirstOfKey(c.plan.value.questions, field.name, i);
    OneMoreField(fields, field, c);
    if question.rules.Some? && NoRuleMatches(question.rules.value, c.answers[field.name], c) {
      NoMatchNoScore(question.rules.value, c.answers[field.name], c);
    }
  }

  predicate NoRuleMatches(rules: seq<Rule>, answer: Value, c: Context) {
    forall k | 0 <= k < |rules| :: !Matches(rules[k], answer, c)
  }

  /** An unanswered or hidden field adds nothing and passes; one that no question asks adds 1 and passes. */
  lemma OtherFields(fields: seq<Field>, field: Field, c: Context)
    ensures field.name !in c.answers || !c.visible(field.name) ==>
              TotalPoints(fields + [field], c) == TotalPoints(fields, c) && Passes(field, c)
    ensures field.name in c.answers && c.visible(field.name)
            && (c.plan.None?
                || forall j | 0 <= j < |c.plan.value.questions| :: c.plan.value.questions[j].key != field.name) ==>
              TotalPoints(fields + [field], c) == TotalPoints(fields, c) + 1.0 && Passes(field, c)
  {
    OneMoreField(fields, field, c);
    if c.plan.Some? && forall j | 0 <= j < |c.plan.value.questions| :: c.plan.value.questions[j].key != field.name {
      NoneOfKey(c.plan.value.questions, field.name);
    }
  }

  // ---------------------------------------------------------------- decisions

  /** The score to reach: the phase's own unless it is 0, else the plan's, else 0. */
  predicate Threshold(own: Option<real>, c: Context, t: real) {
    || (own == Some(t) && t != 0.0)
    || ((own.None? || own == Some(0.0)) && c.plan.Some? && c.plan.value.passingScore == Some(t))
    || ((own.None? || own == Some(0.0)) && (c.plan.None? || c.plan.value.passingScore.None?) && t == 0.0)
  }

  /** SUM, WEIGHTED_SUM and a plan without a strategy compare the total with the score to reach. */
  lemma TotalDecides(fields: seq<Field>, own: Option<real>, c: Context, t: real)
    requires Threshold(own, c, t)
    requires c.plan.None? || c.plan.value.strategy in {None, Some(Sum), Some(WeightedSum)}
    ensures Decision(fields, own, c) <==> TotalPoints(fields, c) >= t
  {
    ThresholdIs(own, c, t);
  }

  lemma AverageAtLeast(total: real, n: real, t: real)
    requires n > 0.0
    ensures total / n >= t <==> total >= n * t
  {
    var mean := total / n;
    assert mean * n == total;
    if mean >= t {
      assert (mean - t) * n >= 0.0;
    } else {
      assert (t - mean) * n > 0.0;
    }
  }

  lemma ThresholdIs(own: Option<real>, c: Context, t: real)
    requires Threshold(own, c, t)
    ensures PassingScore(own, c) == t
  {}

  /** AVERAGE passes exactly when the total reaches the score once for every field, unanswered ones included. */
  lemma AverageDecides(fields: seq<Field>, own: Option<real>, c: Context, t: real, n: real)
    requires Threshold(own, c, t) && c.plan.Some? && c.plan.value.strategy == Some(Average)
    requires |fields| > 0 && n == |fields| as real
    ensures Decision(fields, own, c) <==> TotalPoints(fields, c) >= n * t
  {
    ThresholdIs(own, c, t);
    AverageAtLeast(TotalPoints(fields, c), n, t);
  }

  lemma AverageOfNothing(own: Option<real>, c: Context, t: real)
    requires Threshold(own, c, t) && c.plan.Some? && c.plan.value.strategy == Some(Average)
    ensures Decision([], own, c) <==> t <= 0.0
  {
    ThresholdIs(own, c, t);
  }

  /** A submission is complete unless a required field is shown and not answered. */
  lemma IncompleteIff(fields: seq<Field>, c: Context)
    ensures !Complete(fields, c)
       <==> exists i | 0 <= i < |fields| ::
              fields[i].required && c.visible(fields[i].name) && fields[i].name !in c.answers
  {}

  /** An income of 150 under the rule "100 or more scores 10" with weight 5, against a passing score of 40. */
  function Income(): Context {
    Context(map["income" := Number(150.0)],
            Some(Plan([Question("income", Some([RuleFor(GreaterThanOrEqual, Number(100.0), 10.0)]), Some(5.0))],
                      Some(Sum), Some(40.0), true)),
            _ => true, (v: Value) => if v.Number? then Some(v.n) else None, _ => "")
  }

  /** It scores 50 and passes. */
  lemma IncomePasses()
    ensures TotalPoints([Field("income", true)], Income()) == 50.0 && Decision([Field("income", true)], None, Income())
  {
    var c, field := Income(), Field("income", true);
    var rules := c.plan.value.questions[0].rules.value;
    NumericRules(c.answers["income"], 150.0, 100.0, 10.0, c);
    assert FirstMatch(rules, c.answers["income"], c, 0);
    assert Weighs(c.plan.value.questions[0], 5.0);
    MatchAddsWeightedScore([], field, c, 0, rules, 0, 5.0);
    assert [] + [field] == [field];
    TotalDecides([field], None, c, 40.0);
  }
}
