/** The readiness scoring engine (server/utils/scoreCalculator.ts).
    CalculateScore walks the configured questions once, adding each answered
    question's weighted sub-score and weight, overwriting the urgency tag and
    collecting motivation tags; it then rounds the percentage, looks up its
    score range, classifies the lead segment and derives a valuation range.
    The question document is a parameter, and so is Math.log10. */
module ScoreCalculator {
  import opened JsValues

  /** An answer: a string, a number, a boolean or a list of selected options, as the answer
      schema admits them, or an object, which an unvalidated submission can carry: one whose
      `value` field holds a number, or one without a `value` field. */
  datatype AnswerValue =
    | Text(text: string)
    | Number(number: real)
    | Flag(flag: bool)
    | Selection(selected: seq<string>)
    | Record(value: Option<real>)

  type Answers = map<string, AnswerValue>

  /** The `type` of a question; every other type string is OtherType. */
  datatype QuestionType = NumberQuestion | SingleChoice | Scale | MultiChoice | OtherType(name: string)

  /** An entry of `options`: a non-null object carrying a numeric `value`, or any other
      non-null value (a plain string, say), which counts as 1. */
  datatype OptionEntry = Plain | Valued(value: real)

  datatype Question = Question(
    id: string,
    kind: QuestionType,
    options: Option<seq<OptionEntry>>,
    scoreWeight: Option<real>,
    scaleMin: Option<real>,
    scaleMax: Option<real>,
    invertScore: bool,
    urgency: Option<map<string, string>>,
    tags: Option<map<string, string>>)

  /** One entry of `score_ranges`, in declared order; the key reads "min-max". */
  datatype ScoreRange = ScoreRange(key: string, rangeLabel: string, rangeComment: string)

  datatype Multiples = Multiples(base: real, premium: real)

  /** The question document; `motivation_profiles` is carried but not read by the scoring. */
  datatype QuestionsData = QuestionsData(
    questions: seq<Question>,
    scoreRanges: seq<ScoreRange>,
    valuationMultiples: map<string, Multiples>,
    motivationProfiles: map<string, string>)

  datatype Segment = Hot | Warm | Cold | Nurture

  datatype ScoreResult = ScoreResult(
    readinessScore: int,
    scoreLabel: string,
    scoreComment: string,
    valuationLow: int,
    valuationHigh: int,
    potentialIncrease: int,
    urgency: string,
    segment: Segment,
    motivationTags: seq<string>)

  /** The accumulators of the question loop. */
  datatype Tally = Tally(totalScore: real, totalWeight: real, urgency: string, motivationTags: seq<string>)

  // ------------------------------------------------------- one question

  /** `score_weight || 1.0` */
  function Weight(q: Question): (r: real)
  {
    OrDefault(q.scoreWeight, 1.0)
  }

  lemma WeightDefault(q: Question)
    ensures q.scoreWeight.None? || q.scoreWeight == Some(0.0) ==> Weight(q) == 1.0
    ensures q.scoreWeight.Some? && q.scoreWeight.value != 0.0 ==> Weight(q) == q.scoreWeight.value
  {
  }

  /** Number(answer) */
  function ToNumber(a: AnswerValue): (r: JsNumber)
  {
    match a
    case Text(s) => StringToNumber(s)
    case Number(x) => Finite(x)
    case Flag(b) => Finite(if b then 1.0 else 0.0)
    case Selection(items) => StringToNumber(Join(items, ","))
    // an object is spelled "[object Object]", which is not a number
    case Record(_) => NaN
  }

  /** The value a scale answer stands for: a string through `parseInt(answer) || 1`,
      a number as it is, anything else 1. */
  function LenientValue(a: AnswerValue): (r: real)
  {
    match a
    case Text(s) => ParseIntOr(s, 1) as real
    case Number(x) => x
    case Flag(_) => 1.0
    case Selection(_) => 1.0
    case Record(_) => 1.0
  }

  /** The value a single-choice answer stands for: the `value` of an object that has one,
      and otherwise what a scale answer stands for. */
  function ChoiceValue(a: AnswerValue): (r: real)
  {
    if a.Record? && a.value.Some? then a.value.value else LenientValue(a)
  }

  function OptionValue(o: OptionEntry): (r: real)
  {
    match o
    case Plain => 1.0
    case Valued(v) => v
  }

  /** Math.max over the option values. */
  function MaxOptionValue(os: seq<OptionEntry>): (m: real)
    requires os != []
    ensures forall i :: 0 <= i < |os| ==> OptionValue(os[i]) <= m
    ensures exists i :: 0 <= i < |os| && OptionValue(os[i]) == m
  {
    if |os| == 1 then OptionValue(os[0])
    else
      var rest := MaxOptionValue(os[1..]);
      if OptionValue(os[0]) >= rest then OptionValue(os[0]) else rest
  }

  /** The divisor of a single-choice answer: 4 without options, else the largest option value. */
  function ChoiceDivisor(options: Option<seq<OptionEntry>>): (r: real)
    requires options != Some([])
  {
    match options
    case None => 4.0
    case Some(os) => MaxOptionValue(os)
  }

  /** The answer can be scored without a NaN or a division by zero. */
  predicate Scorable(q: Question, a: AnswerValue)
  {
    match q.kind
    case NumberQuestion => ToNumber(a) != NaN
    case SingleChoice => q.options == Some([]) || ChoiceDivisor(q.options) != 0.0
    case Scale => OrDefault(q.scaleMax, 5.0) - OrDefault(q.scaleMin, 1.0) != 0.0
    case MultiChoice => a.Selection? && q.tags.Some? ==> |q.tags.value| > 0
    case OtherType(_) => true
  }

  /** The sub-score of an answered question before weighting; 5 tops the scale. */
  function SubScore(q: Question, a: AnswerValue, log10: real -> real): (r: real)
    requires Scorable(q, a)
  {
    match q.kind
    case NumberQuestion => LogScore(ToNumber(a), log10)
    case SingleChoice => ChoiceScore(ChoiceValue(a), q.options)
    case Scale => ScaleScore(LenientValue(a), OrDefault(q.scaleMin, 1.0), OrDefault(q.scaleMax, 5.0), q.invertScore)
    case MultiChoice =>
      if a.Selection? && q.tags.Some? then |a.selected| as real / |q.tags.value| as real * 5.0 else 0.0
    case OtherType(_) => 3.0
  }

  /** The sub-score of a single-choice value v: v over the divisor, mapped onto 5. */
  function ChoiceScore(v: real, options: Option<seq<OptionEntry>>): (r: real)
    requires options == Some([]) || ChoiceDivisor(options) != 0.0
  {
    // with an empty option list Math.max() is -Infinity, and a finite value divided by it is zero
    if options == Some([]) then 0.0 else v / ChoiceDivisor(options) * 5.0
  }

  /** The sub-score of a scale value v on [lo, hi]: its position mapped onto [0, 5], mirrored if inverted. */
  function ScaleScore(v: real, lo: real, hi: real, invert: bool): (r: real)
    requires hi - lo != 0.0
  {
    var normalized := (v - lo) / (hi - lo) * 5.0;
    if invert then 5.0 - normalized else normalized
  }

  /** The sub-score of a number answer: 0 up to 0, then log10(n / 10000) + 1 capped at 5. */
  function LogScore(n: JsNumber, log10: real -> real): (r: real)
  {
    match n
    case Finite(x) => if x <= 0.0 then 0.0 else Min(5.0, log10(x / 10000.0) + 1.0)
    // Math.log10(Infinity) is Infinity, and Math.min caps it at 5
    case PosInfinity => 5.0
    case NegInfinity => 0.0
    case NaN => 0.0
  }

  /** The urgency tag a single-choice answer selects: the non-empty entry of the
      question's urgency table under the spelling of the chosen value. */
  function UrgencyTag(q: Question, a: AnswerValue): (r: Option<string>)
  {
    if q.kind.SingleChoice? && q.urgency.Some? then
      match NumberKey(ChoiceValue(a))
      case Some(k) => if k in q.urgency.value && q.urgency.value[k] != "" then Some(q.urgency.value[k]) else None
      case None => None
    else None
  }

  /** The non-empty tags that the selected options map to, in selection order, repeats kept. */
  function SelectedTags(selected: seq<string>, tags: map<string, string>): (r: seq<string>)
  {
    if selected == [] then []
    else
      var s := selected[|selected| - 1];
      SelectedTags(selected[..|selected| - 1], tags) + if s in tags && tags[s] != "" then [tags[s]] else []
  }

  /** The tags a multi-choice answer contributes (before removing repeats). */
  function QuestionTags(q: Question, a: AnswerValue): (r: seq<string>)
  {
    if q.kind.MultiChoice? && a.Selection? && q.tags.Some? then SelectedTags(a.selected, q.tags.value) else []
  }

  // --------------------------------------------------- ordered tag sets

  /** `if (!tags.includes(t)) tags.push(t)` */
  function AppendNew(tags: seq<string>, t: string): (r: seq<string>)
  {
    if t in tags then tags else tags + [t]
  }

  /** AppendNew applied to every element of ts in order. */
  function AddAll(tags: seq<string>, ts: seq<string>): (r: seq<string>)
  {
    if ts == [] then tags else AppendNew(AddAll(tags, ts[..|ts| - 1]), ts[|ts| - 1])
  }

  predicate NoDuplicates(s: seq<string>)
  {
    forall i, j :: 0 <= i < j < |s| ==> s[i] != s[j]
  }

  /** The position of the first occurrence of x in s. */
  function FirstPos(s: seq<string>, x: string): (k: nat)
    requires x in s
    ensures k < |s| && s[k] == x && x !in s[..k]
  {
    if s[0] == x then 0 else 1 + FirstPos(s[1..], x)
  }

  // ---------------------------------------------------- the whole loop

  predicate AllScorable(qs: seq<Question>, answers: Answers)
  {
    forall i :: 0 <= i < |qs| && qs[i].id in answers ==> Scorable(qs[i], answers[qs[i].id])
  }

  /** The accumulators after an answered question: its weighted sub-score and its
      weight are added, its urgency tag (if any) replaces the current one, and its
      tags are appended where new. */
  function Answered(t: Tally, q: Question, a: AnswerValue, log10: real -> real): (r: Tally)
    requires Scorable(q, a)
  {
    Tally(t.totalScore + Weighted(SubScore(q, a, log10), Weight(q)),
          t.totalWeight + Weight(q),
          match UrgencyTag(q, a) case Some(u) => u case None => t.urgency,
          AddAll(t.motivationTags, QuestionTags(q, a)))
  }

  /** `normalizedScore * weight` */
  function Weighted(subScore: real, weight: real): (r: real)
  {
    subScore * weight
  }

  /** One iteration of the question loop; an unanswered question changes nothing. */
  function Step(t: Tally, q: Question, answers: Answers, log10: real -> real): (r: Tally)
    requires q.id in answers ==> Scorable(q, answers[q.id])
  {
    if q.id !in answers then t else Answered(t, q, answers[q.id], log10)
  }

  /** The accumulators after the loop has visited qs. */
  function Totals(qs: seq<Question>, answers: Answers, log10: real -> real): (r: Tally)
    requires AllScorable(qs, answers)
    decreases |qs|
  {
    if qs == [] then Tally(0.0, 0.0, "nurture", [])
    else
      assert AllScorable(qs[..|qs| - 1], answers);
      Step(Totals(qs[..|qs| - 1], answers, log10), qs[|qs| - 1], answers, log10)
  }

  /** The sum of the weights of the answered questions. */
  function AnsweredWeight(qs: seq<Question>, answers: Answers): (r: real)
  {
    if qs == [] then 0.0
    else AnsweredWeight(qs[..|qs| - 1], answers) + if qs[|qs| - 1].id in answers then Weight(qs[|qs| - 1]) else 0.0
  }

  /** Every tag the answered multi-choice questions select, in order, repeats kept. */
  function AllSelectedTags(qs: seq<Question>, answers: Answers): (r: seq<string>)
  {
    if qs == [] then []
    else
      var q := qs[|qs| - 1];
      AllSelectedTags(qs[..|qs| - 1], answers) + if q.id in answers then QuestionTags(q, answers[q.id]) else []
  }

  /** The urgency tag question q sets, if it is answered and sets one. */
  function UrgencyOf(q: Question, answers: Answers): (r: Option<string>)
  {
    if q.id in answers then UrgencyTag(q, answers[q.id]) else None
  }

  /** Math.round((totalScore / (totalWeight * 5)) * 100) */
  function Percentage(t: Tally): (r: int)
    requires t.totalWeight != 0.0
  {
    Round(t.totalScore / (t.totalWeight * 5.0) * 100.0)
  }

  // ------------------------------------------------------- score ranges

  /** `range.split('-').map(Number)` destructured into [min, max]; a missing max is undefined (NaN). */
  function RangeBounds(key: string): (JsNumber, JsNumber)
  {
    var parts := Split(key, '-');
    (StringToNumber(parts[0]), if |parts| > 1 then StringToNumber(parts[1]) else NaN)
  }

  predicate InRange(p: int, r: ScoreRange)
  {
    AtLeast(p as real, RangeBounds(r.key).0) && AtMost(p as real, RangeBounds(r.key).1)
  }

  /** The first range, in declared order, that contains p. */
  function FirstMatch(ranges: seq<ScoreRange>, p: int): (r: Option<ScoreRange>)
  {
    if ranges == [] then None
    else if InRange(p, ranges[0]) then Some(ranges[0])
    else FirstMatch(ranges[1..], p)
  }

  /** The label and comment of the matching range; both empty when none matches. */
  function RangeText(ranges: seq<ScoreRange>, p: int): (string, string)
  {
    match FirstMatch(ranges, p)
    case Some(r) => (r.rangeLabel, r.rangeComment)
    case None => ("", "")
  }

  // ------------------------------------------------------------ segment

  /** The fixed segment table over the percentage and the urgency tag. */
  function SegmentFor(p: int, urgency: string): (r: Segment)
  {
    if p >= 75 then (if urgency == "hot" || urgency == "warm" then Hot else Warm)
    else if p >= 50 then (if urgency == "hot" then Warm else if urgency == "warm" then Cold else Nurture)
    else (if urgency == "hot" then Cold else Nurture)
  }

  /** Segment priority: nurture < cold < warm < hot. */
  function SegmentRank(s: Segment): (r: nat)
  {
    match s
    case Nurture => 0
    case Cold => 1
    case Warm => 2
    case Hot => 3
  }

  /** Urgency priority as the table reads it: any other tag < "warm" < "hot". */
  function UrgencyRank(u: string): (r: nat)
  {
    if u == "hot" then 2 else if u == "warm" then 1 else 0
  }

  // ---------------------------------------------------------- valuation

  datatype Valuation = Valuation(low: int, high: int, potentialIncrease: int)

  function AnswerOf(answers: Answers, key: string): (r: Option<AnswerValue>)
  {
    if key in answers then Some(answers[key]) else None
  }

  /** JavaScript truthiness of an answer. */
  predicate AnswerTruthy(a: AnswerValue)
  {
    match a
    case Text(s) => s != ""
    case Number(x) => x != 0.0
    case Flag(b) => b
    case Selection(_) => true
    case Record(_) => true
  }

  /** The property key an answer is coerced to when it indexes an object. */
  function KeyOf(a: AnswerValue): (r: Option<string>)
  {
    match a
    case Text(s) => Some(s)
    case Number(x) => NumberKey(x)
    case Flag(b) => Some(if b then "true" else "false")
    case Selection(items) => Some(Join(items, ","))
    case Record(_) => Some("[object Object]")
  }

  /** parseInt(answer): the argument is turned into a string first. A number is
      read through its decimal spelling, i.e. truncated towards zero. */
  function ParseIntAnswer(a: Option<AnswerValue>): (r: Option<int>)
  {
    match a
    case None => ParseInt("undefined")
    case Some(Text(s)) => ParseInt(s)
    case Some(Number(x)) => Some(Trunc(x))
    case Some(Flag(b)) => ParseInt(if b then "true" else "false")
    case Some(Selection(items)) => ParseInt(Join(items, ","))
    case Some(Record(_)) => ParseInt("[object Object]")
  }

  /** `answers.q3c === true || answers.q3c === 'true'` */
  predicate IsCeoOwner(answers: Answers)
  {
    AnswerOf(answers, "q3c") == Some(Flag(true)) || AnswerOf(answers, "q3c") == Some(Text("true"))
  }

  /** `parseInt(answers.q3b) || 0` */
  function CeoPay(answers: Answers): (r: int)
  {
    IntOrDefault(ParseIntAnswer(AnswerOf(answers, "q3b")), 0)
  }

  /** `parseInt(answers.q3) || 0`, plus the owner-CEO pay when q3c says so and it is positive. */
  function Ebitda(answers: Answers): (r: int)
  {
    var reported := IntOrDefault(ParseIntAnswer(AnswerOf(answers, "q3")), 0);
    if IsCeoOwner(answers) && CeoPay(answers) > 0 then reported + CeoPay(answers) else reported
  }

  predicate IndustryGiven(answers: Answers)
  {
    "q1" in answers && AnswerTruthy(answers["q1"])
  }

  /** `valuation_multiples[industry] || valuation_multiples["Andere"]` */
  function IndustryMultiples(answers: Answers, table: map<string, Multiples>): (r: Multiples)
    requires "Andere" in table
  {
    var key := if "q1" in answers then KeyOf(answers["q1"]) else None;
    if key.Some? && key.value in table then table[key.value] else table["Andere"]
  }

  /** Interpolation between the base and the premium multiple by the percentage. */
  function ValuationFor(ebitda: int, m: Multiples, p: int): (r: Valuation)
  {
    var high := Worth(ebitda, CurrentMultiple(m, p));
    Valuation(Worth(ebitda, m.base), high, Worth(ebitda, m.premium) - high)
  }

  /** The multiple a percentage p earns: p percent of the way from base to premium. */
  function CurrentMultiple(m: Multiples, p: int): (r: real)
  {
    m.base + (m.premium - m.base) * (p as real / 100.0)
  }

  /** `Math.round(ebitda * multiple)` */
  function Worth(ebitda: int, multiple: real): (r: int)
  {
    Round(ebitda as real * multiple)
  }

  /** All zero unless the EBITDA is positive and an industry is given. */
  function StandardValuation(answers: Answers, table: map<string, Multiples>, p: int): (r: Valuation)
    requires "Andere" in table
  {
    var e := Ebitda(answers);
    if e > 0 && IndustryGiven(answers) then ValuationFor(e, IndustryMultiples(answers, table), p)
    else Valuation(0, 0, 0)
  }

  // ------------------------------------------------------------- method

  /** The `forEach` over a multi-choice answer: each selected option's non-empty tag is
      appended unless already present. */
  method CollectTags(motivationTags: seq<string>, selected: seq<string>, tags: map<string, string>)
    returns (collected: seq<string>)
    ensures collected == AddAll(motivationTags, SelectedTags(selected, tags))
  {
    collected := motivationTags;
    var j := 0;
    while j < |selected|
      invariant 0 <= j <= |selected|
      invariant collected == AddAll(motivationTags, SelectedTags(selected[..j], tags))
    {
      var option := selected[j];
      ghost var prefix := SelectedTags(selected[..j], tags);
      assert selected[..j + 1][..j] == selected[..j];
      if option in tags && tags[option] != "" {
        assert SelectedTags(selected[..j + 1], tags) == prefix + [tags[option]];
        assert (prefix + [tags[option]])[..|prefix|] == prefix;
        if tags[option] !in collected {
          collected := collected + [tags[option]];
        }
      } else {
        assert SelectedTags(selected[..j + 1], tags) == prefix + [];
        assert prefix + [] == prefix;
      }
      j := j + 1;
    }
    assert selected[..j] == selected;
  }

  /** The `switch` over the question type for one answered question: its sub-score
      before weighting, and the urgency tag and motivation tags after it. */
  method ScoreAnswer(question: Question, answer: AnswerValue, urgency: string, motivationTags: seq<string>,
                     log10: real -> real)
    returns (subScore: real, urgency': string, motivationTags': seq<string>)
    requires Scorable(question, answer)
    ensures subScore == SubScore(question, answer, log10)
    ensures urgency' == match UrgencyTag(question, answer) case Some(u) => u case None => urgency
    ensures motivationTags' == AddAll(motivationTags, QuestionTags(question, answer))
  {
    urgency' := urgency;
    motivationTags' := motivationTags;
    match question.kind {
      case NumberQuestion =>
        subScore := NumberAnswerScore(ToNumber(answer), log10);
      case SingleChoice =>
        subScore, urgency' := ChoiceAnswerScore(question, answer, urgency);
      case Scale =>
        subScore := ScaleAnswerScore(question, answer);
      case MultiChoice =>
        subScore := 0.0;
        if answer.Selection? && question.tags.Some? {
          motivationTags' := CollectTags(motivationTags, answer.selected, question.tags.value);
          subScore := |answer.selected| as real / |question.tags.value| as real * 5.0;
        }
      case OtherType(_) =>
        subScore := 3.0;
    }
  }

  /** The number branch: nothing for a value up to 0, else log10(value / 10000) + 1 capped at 5. */
  method NumberAnswerScore(n: JsNumber, log10: real -> real) returns (subScore: real)
    requires n != NaN
    ensures subScore == LogScore(n, log10)
  {
    if n.NegInfinity? || (n.Finite? && n.value <= 0.0) {
      subScore := 0.0;
    } else if n.Finite? {
      subScore := Min(5.0, log10(n.value / 10000.0) + 1.0);
    } else {
      subScore := 5.0;
    }
  }

  /** The single-choice branch: the urgency table is consulted under the chosen value's
      spelling, and the value is scored against the largest option value. */
  method ChoiceAnswerScore(question: Question, answer: AnswerValue, urgency: string)
    returns (subScore: real, urgency': string)
    requires question.kind.SingleChoice? && Scorable(question, answer)
    ensures subScore == ChoiceScore(ChoiceValue(answer), question.options)
    ensures urgency' == match UrgencyTag(question, answer) case Some(u) => u case None => urgency
  {
    var choiceValue := 1.0;
    if answer.Record? && answer.value.Some? {
      choiceValue := answer.value.value;
    } else if answer.Text? {
      choiceValue := ParseIntOr(answer.text, 1) as real;
    } else if answer.Number? {
      choiceValue := answer.number;
    }
    var key := NumberKey(choiceValue);
    urgency' := urgency;
    if question.urgency.Some? && key.Some? && key.value in question.urgency.value
       && question.urgency.value[key.value] != "" {
      urgency' := question.urgency.value[key.value];
    }
    subScore := if question.options == Some([]) then 0.0 else choiceValue / ChoiceDivisor(question.options) * 5.0;
  }

  /** The scale branch: the value's position between scaleMin and scaleMax, mapped onto 5. */
  method ScaleAnswerScore(question: Question, answer: AnswerValue) returns (subScore: real)
    requires question.kind.Scale? && Scorable(question, answer)
    ensures subScore == ScaleScore(LenientValue(answer), OrDefault(question.scaleMin, 1.0),
                                   OrDefault(question.scaleMax, 5.0), question.invertScore)
  {
    var scaleValue := LenientValue(answer);
    var scaleMin := OrDefault(question.scaleMin, 1.0);
    var scaleMax := OrDefault(question.scaleMax, 5.0);
    var scaleRange := scaleMax - scaleMin;
    subScore := (scaleValue - scaleMin) / scaleRange * 5.0;
    if question.invertScore {
      subScore := 5.0 - subScore;
    }
  }

  /** The walk over the score ranges, stopping at the first that contains the percentage. */
  method FindScoreRange(ranges: seq<ScoreRange>, p: int) returns (scoreLabel: string, scoreComment: string)
    ensures (scoreLabel, scoreComment) == RangeText(ranges, p)
  {
    scoreLabel := "";
    scoreComment := "";
    var k := 0;
    while k < |ranges|
      invariant 0 <= k <= |ranges|
      invariant FirstMatch(ranges[k..], p) == FirstMatch(ranges, p)
      invariant scoreLabel == "" && scoreComment == ""
    {
      var range := ranges[k];
      var bounds := RangeBounds(range.key);
      if AtLeast(p as real, bounds.0) && AtMost(p as real, bounds.1) {
        scoreLabel := range.rangeLabel;
        scoreComment := range.rangeComment;
        return;
      }
      assert ranges[k..][1..] == ranges[k + 1..];
      k := k + 1;
    }
  }

  /** The EBITDA estimate and the valuation range derived from it. */
  method EstimateValuation(answers: Answers, table: map<string, Multiples>, p: int) returns (v: Valuation)
    requires "Andere" in table
    ensures v == StandardValuation(answers, table, p)
  {
    var industry := AnswerOf(answers, "q1");
    var ebitda := IntOrDefault(ParseIntAnswer(AnswerOf(answers, "q3")), 0);
    var ceoPay := IntOrDefault(ParseIntAnswer(AnswerOf(answers, "q3b")), 0);
    var isCeoOwner := AnswerOf(answers, "q3c") == Some(Flag(true)) || AnswerOf(answers, "q3c") == Some(Text("true"));
    if isCeoOwner && ceoPay > 0 {
      ebitda := ebitda + ceoPay;
    }
    assert ebitda == Ebitda(answers);
    v := Valuation(0, 0, 0);
    if ebitda > 0 && industry.Some? && AnswerTruthy(industry.value) {
      var multiples := IndustryMultiples(answers, table);
      v := ValuationFor(ebitda, multiples, p);
    }
  }

  /** One answered question: its weighted sub-score and its weight join the totals. */
  method AddAnswer(question: Question, answer: AnswerValue, tally: Tally, log10: real -> real) returns (r: Tally)
    requires Scorable(question, answer)
    ensures r == Answered(tally, question, answer, log10)
  {
    var weight := Weight(question);
    var subScore, urgency, motivationTags := ScoreAnswer(question, answer, tally.urgency, tally.motivationTags, log10);
    r := Tally(tally.totalScore + Weighted(subScore, weight), tally.totalWeight + weight, urgency, motivationTags);
  }

  /** The loop over the configured questions. */
  method Accumulate(questions: seq<Question>, answers: Answers, log10: real -> real) returns (tally: Tally)
    requires AllScorable(questions, answers)
    ensures tally == Totals(questions, answers, log10)
  {
    tally := Tally(0.0, 0.0, "nurture", []);
    var i := 0;
    while i < |questions|
      invariant 0 <= i <= |questions|
      invariant AllScorable(questions[..i], answers)
      invariant Totals(questions[..i], answers, log10) == tally
    {
      var question := questions[i];
      assert questions[..i + 1][..i] == questions[..i];
      assert AllScorable(questions[..i + 1], answers);
      if question.id in answers {
        tally := AddAnswer(question, answers[question.id], tally, log10);
      }
      i := i + 1;
    }
    assert questions[..i] == questions;
  }

  /** The lead segment from the percentage and the urgency tag. */
  method Classify(finalScorePercentage: int, urgency: string) returns (segment: Segment)
    ensures segment == SegmentFor(finalScorePercentage, urgency)
  {
    segment := Nurture;
    if finalScorePercentage >= 75 {
      if urgency == "hot" || urgency == "warm" {
        segment := Hot;
      } else {
        segment := Warm;
      }
    } else if finalScorePercentage >= 50 {
      if urgency == "hot" {
        segment := Warm;
      } else if urgency == "warm" {
        segment := Cold;
      } else {
        segment := Nurture;
      }
    } else {
      if urgency == "hot" {
        segment := Cold;
      } else {
        segment := Nurture;
      }
    }
  }

  /** calculateScore, with the question document and Math.log10 passed in. */
  method CalculateScore(answers: Answers, data: QuestionsData, log10: real -> real) returns (result: ScoreResult)
    requires AllScorable(data.questions, answers)
    requires AnsweredWeight(data.questions, answers) != 0.0
    requires "Andere" in data.valuationMultiples
    ensures Totals(data.questions, answers, log10).totalWeight != 0.0
    ensures result.readinessScore == Percentage(Totals(data.questions, answers, log10))
    ensures result.urgency == Totals(data.questions, answers, log10).urgency
    ensures result.motivationTags == Totals(data.questions, answers, log10).motivationTags
    ensures NoDuplicates(result.motivationTags)
    ensures (result.scoreLabel, result.scoreComment) == RangeText(data.scoreRanges, result.readinessScore)
    ensures result.segment == SegmentFor(result.readinessScore, result.urgency)
    ensures Valuation(result.valuationLow, result.valuationHigh, result.potentialIncrease)
            == StandardValuation(answers, data.valuationMultiples, result.readinessScore)
  {
    var tally := Accumulate(data.questions, answers, log10);
    TotalWeightIsAnsweredWeight(data.questions, answers, log10);
    MotivationTagsAreDistinct(data.questions, answers, log10);
    var finalScorePercentage := Percentage(tally);
    var scoreLabel, scoreComment := FindScoreRange(data.scoreRanges, finalScorePercentage);
    var segment := Classify(finalScorePercentage, tally.urgency);
    var valuation := EstimateValuation(answers, data.valuationMultiples, finalScorePercentage);
    result := ScoreResult(finalScorePercentage, scoreLabel, scoreComment, valuation.low, valuation.high,
                          valuation.potentialIncrease, tally.urgency, segment, tally.motivationTags);
  }

  // ------------------------------------------------------------- lemmas

  /** An unanswered question adds nothing to either total; an answered one adds exactly its weight. */
  lemma StepWeight(t: Tally, q: Question, answers: Answers, log10: real -> real)
    requires q.id in answers ==> Scorable(q, answers[q.id])
    ensures q.id !in answers ==> Step(t, q, answers, log10) == t
    ensures q.id in answers ==> Step(t, q, answers, log10).totalWeight == t.totalWeight + Weight(q)
  {
  }

  /** totalWeight is the sum of the weights of exactly the answered questions. */
  lemma {:induction false} TotalWeightIsAnsweredWeight(qs: seq<Question>, answers: Answers, log10: real -> real)
    requires AllScorable(qs, answers)
    ensures Totals(qs, answers, log10).totalWeight == AnsweredWeight(qs, answers)
    decreases |qs|
  {
    if qs != [] {
      assert AllScorable(qs[..|qs| - 1], answers);
      TotalWeightIsAnsweredWeight(qs[..|qs| - 1], answers, log10);
    }
  }

  predicate DistinctIds(qs: seq<Question>)
  {
    forall i, j :: 0 <= i < j < |qs| ==> qs[i].id != qs[j].id
  }

  /** Withdrawing the answer of one question lowers totalWeight by exactly that question's weight. */
  lemma {:induction false} OmittedAnswerWeight(qs: seq<Question>, answers: Answers, k: nat)
    requires DistinctIds(qs)
    requires k < |qs| && qs[k].id in answers
    ensures AnsweredWeight(qs, answers) == AnsweredWeight(qs, answers - {qs[k].id}) + Weight(qs[k])
    decreases |qs|
  {
    var init := qs[..|qs| - 1];
    if k == |qs| - 1 {
      AnsweredWeightIgnores(init, answers, qs[k].id);
    } else {
      assert init[k] == qs[k];
      OmittedAnswerWeight(init, answers, k);
      assert qs[|qs| - 1].id != qs[k].id;
    }
  }

  /** Answers to ids no question has do not change the answered weight. */
  lemma {:induction false} AnsweredWeightIgnores(qs: seq<Question>, answers: Answers, id: string)
    requires forall i :: 0 <= i < |qs| ==> qs[i].id != id
    ensures AnsweredWeight(qs, answers) == AnsweredWeight(qs, answers - {id})
    decreases |qs|
  {
    if qs != [] {
      AnsweredWeightIgnores(qs[..|qs| - 1], answers, id);
    }
  }

  lemma {:induction false} AddAllAppend(tags: seq<string>, s: seq<string>, t: seq<string>)
    ensures AddAll(tags, s + t) == AddAll(AddAll(tags, s), t)
    decreases |t|
  {
    if t == [] {
      assert s + t == s;
    } else {
      assert (s + t)[..|s + t| - 1] == s + t[..|t| - 1];
      AddAllAppend(tags, s, t[..|t| - 1]);
    }
  }

  /** AddAll keeps what was there, adds exactly the new elements and never repeats one. */
  lemma {:induction false} AddAllProperties(tags: seq<string>, ts: seq<string>)
    requires NoDuplicates(tags)
    ensures NoDuplicates(AddAll(tags, ts))
    ensures forall x :: x in AddAll(tags, ts) <==> x in tags || x in ts
    ensures |tags| <= |AddAll(tags, ts)| && AddAll(tags, ts)[..|tags|] == tags
    decreases |ts|
  {
    if ts != [] {
      var init := ts[..|ts| - 1];
      var y := ts[|ts| - 1];
      AddAllProperties(tags, init);
      assert ts == init + [y];
      var r0 := AddAll(tags, init);
      if y !in r0 {
        assert AddAll(tags, ts) == r0 + [y];
        assert (r0 + [y])[..|tags|] == r0[..|tags|];
      }
    }
  }

  /** The motivation tags are the selected tags without repeats. */
  lemma {:induction false} TotalsTags(qs: seq<Question>, answers: Answers, log10: real -> real)
    requires AllScorable(qs, answers)
    ensures Totals(qs, answers, log10).motivationTags == AddAll([], AllSelectedTags(qs, answers))
    decreases |qs|
  {
    if qs != [] {
      var init := qs[..|qs| - 1];
      var q := qs[|qs| - 1];
      assert AllScorable(init, answers);
      TotalsTags(init, answers, log10);
      if q.id in answers {
        AddAllAppend([], AllSelectedTags(init, answers), QuestionTags(q, answers[q.id]));
        assert Totals(qs, answers, log10).motivationTags
          == AddAll(Totals(init, answers, log10).motivationTags, QuestionTags(q, answers[q.id]));
      } else {
        var prior := AllSelectedTags(init, answers);
        assert prior + [] == prior;
        assert AllSelectedTags(qs, answers) == prior;
        assert Totals(qs, answers, log10) == Totals(init, answers, log10);
      }
    }
  }

  lemma MotivationTagsAreDistinct(qs: seq<Question>, answers: Answers, log10: real -> real)
    requires AllScorable(qs, answers)
    ensures NoDuplicates(Totals(qs, answers, log10).motivationTags)
  {
    TotalsTags(qs, answers, log10);
    AddAllProperties([], AllSelectedTags(qs, answers));
  }

  lemma {:induction false} FirstPosOfPrefix(s: seq<string>, y: string, x: string)
    requires x in s
    ensures FirstPos(s + [y], x) == FirstPos(s, x)
    decreases |s|
  {
    if s[0] != x {
      assert (s + [y])[1..] == s[1..] + [y];
      FirstPosOfPrefix(s[1..], y, x);
    }
  }

  /** Every element of r occurs in s, and r lists them in the order of their first occurrence in s. */
  predicate FirstSeen(r: seq<string>, s: seq<string>)
  {
    (forall x :: x in r ==> x in s) &&
    forall i, j :: 0 <= i < j < |r| ==> FirstPos(s, r[i]) < FirstPos(s, r[j])
  }

  /** Removing repeats keeps the order of first appearance. */
  lemma {:induction false} FirstSeenOrder(s: seq<string>)
    ensures FirstSeen(AddAll([], s), s)
    decreases |s|
  {
    if s != [] {
      var init := s[..|s| - 1];
      var y := s[|s| - 1];
      assert s == init + [y];
      FirstSeenOrder(init);
      AddAllProperties([], init);
      var r0 := AddAll([], init);
      if y in r0 {
        FirstSeenExtends(r0, init, y);
      } else {
        FirstSeenWithNew(r0, init, y);
      }
    }
  }

  /** Appending to s keeps the first positions of what r already lists. */
  lemma FirstSeenExtends(r: seq<string>, s: seq<string>, y: string)
    requires FirstSeen(r, s)
    ensures FirstSeen(r, s + [y])
  {
    forall x | x in r
      ensures FirstPos(s + [y], x) == FirstPos(s, x)
    {
      FirstPosOfPrefix(s, y, x);
    }
  }

  /** A new last element of s, appended to r, comes after everything r lists. */
  lemma FirstSeenWithNew(r: seq<string>, s: seq<string>, y: string)
    requires FirstSeen(r, s) && y !in r && y !in s
    ensures FirstSeen(r + [y], s + [y])
  {
    FirstSeenExtends(r, s, y);
    var t := s + [y];
    var r' := r + [y];
    assert FirstPos(t, y) == |s| by {
      assert t[|s|] == y;
      assert t[..|s|] == s;
    }
    forall i, j | 0 <= i < j < |r'|
      ensures FirstPos(t, r'[i]) < FirstPos(t, r'[j])
    {
      assert r'[i] == r[i];
      if j < |r| {
        assert r'[j] == r[j];
      } else {
        assert r'[j] == y;
      }
    }
  }

  /** The tags a question contributes are non-empty values of its own tag table. */
  lemma {:induction false} SelectedTagsFromTable(selected: seq<string>, tags: map<string, string>)
    ensures forall x :: x in SelectedTags(selected, tags) ==> x in tags.Values && x != ""
    decreases |selected|
  {
    if selected != [] {
      SelectedTagsFromTable(selected[..|selected| - 1], tags);
    }
  }

  /** Question i is an answered multi-choice question whose tag table maps some option to x. */
  predicate TagSource(qs: seq<Question>, answers: Answers, i: int, x: string)
  {
    0 <= i < |qs| && qs[i].id in answers && qs[i].kind.MultiChoice? && qs[i].tags.Some?
    && x in qs[i].tags.value.Values && x != ""
  }

  /** Only tags mapped by some answered multi-choice question's table appear. */
  lemma {:induction false} AllSelectedTagsFromTables(qs: seq<Question>, answers: Answers)
    ensures forall x :: x in AllSelectedTags(qs, answers) ==> exists i :: TagSource(qs, answers, i, x)
    decreases |qs|
  {
    if qs != [] {
      var init := qs[..|qs| - 1];
      var q := qs[|qs| - 1];
      AllSelectedTagsFromTables(init, answers);
      if q.id in answers && q.kind.MultiChoice? && answers[q.id].Selection? && q.tags.Some? {
        SelectedTagsFromTable(answers[q.id].selected, q.tags.value);
      }
      forall x | x in AllSelectedTags(qs, answers)
        ensures exists i :: TagSource(qs, answers, i, x)
      {
        if x in AllSelectedTags(init, answers) {
          var i :| TagSource(init, answers, i, x);
          assert qs[i] == init[i];
          assert TagSource(qs, answers, i, x);
        } else {
          assert TagSource(qs, answers, |qs| - 1, x);
        }
      }
    }
  }

  /** The motivation tags: no repeats, exactly the selected tags, in order of first
      selection, each one a value of an answered question's tag table. */
  lemma MotivationTagsSpec(qs: seq<Question>, answers: Answers, log10: real -> real)
    requires AllScorable(qs, answers)
    ensures var r := Totals(qs, answers, log10).motivationTags;
      var s := AllSelectedTags(qs, answers);
      && NoDuplicates(r)
      && (forall x :: x in r <==> x in s)
      && FirstSeen(r, s)
      && (forall x :: x in r ==> exists i :: TagSource(qs, answers, i, x))
  {
    var s := AllSelectedTags(qs, answers);
    TotalsTags(qs, answers, log10);
    AddAllProperties([], s);
    FirstSeenOrder(s);
    AllSelectedTagsFromTables(qs, answers);
  }

  /** The urgency tag of the last question in qs that sets one. */
  function LastUrgency(qs: seq<Question>, answers: Answers): (r: Option<string>)
  {
    if qs == [] then None
    else match UrgencyOf(qs[|qs| - 1], answers)
      case Some(u) => Some(u)
      case None => LastUrgency(qs[..|qs| - 1], answers)
  }

  /** Question i sets an urgency tag and no later question does. */
  predicate LastSetter(qs: seq<Question>, answers: Answers, i: int)
  {
    0 <= i < |qs| && UrgencyOf(qs[i], answers).Some?
    && forall j :: i < j < |qs| ==> UrgencyOf(qs[j], answers).None?
  }

  /** urgency starts as "nurture" and each tag-setting answer overwrites it. */
  lemma {:induction false} UrgencyIsLastTag(qs: seq<Question>, answers: Answers, log10: real -> real)
    requires AllScorable(qs, answers)
    ensures Totals(qs, answers, log10).urgency ==
      match LastUrgency(qs, answers) case Some(u) => u case None => "nurture"
    decreases |qs|
  {
    if qs != [] {
      assert AllScorable(qs[..|qs| - 1], answers);
      UrgencyIsLastTag(qs[..|qs| - 1], answers, log10);
    }
  }

  /** LastUrgency is None exactly when no question sets a tag, and otherwise the tag of the last one that does. */
  lemma {:induction false} LastUrgencySpec(qs: seq<Question>, answers: Answers)
    ensures LastUrgency(qs, answers).None? <==> forall i :: 0 <= i < |qs| ==> UrgencyOf(qs[i], answers).None?
    ensures forall i :: LastSetter(qs, answers, i) ==> LastUrgency(qs, answers) == UrgencyOf(qs[i], answers)
    decreases |qs|
  {
    if qs != [] {
      var init := qs[..|qs| - 1];
      LastUrgencySpec(init, answers);
      assert forall i :: 0 <= i < |init| ==> init[i] == qs[i];
      forall i | LastSetter(qs, answers, i)
        ensures LastUrgency(qs, answers) == UrgencyOf(qs[i], answers)
      {
        if i < |qs| - 1 {
          assert UrgencyOf(qs[|qs| - 1], answers).None?;
          assert LastSetter(init, answers, i);
        }
      }
    }
  }

  /** urgency is "nurture" unless some answered single-choice question selects an
      urgency tag, and then it is the tag of the last such question. */
  lemma UrgencyLastWriteWins(qs: seq<Question>, answers: Answers, log10: real -> real)
    requires AllScorable(qs, answers)
    ensures (forall i :: 0 <= i < |qs| ==> UrgencyOf(qs[i], answers).None?) ==>
      Totals(qs, answers, log10).urgency == "nurture"
    ensures forall i :: LastSetter(qs, answers, i) ==>
      Totals(qs, answers, log10).urgency == UrgencyOf(qs[i], answers).value
  {
    UrgencyIsLastTag(qs, answers, log10);
    LastUrgencySpec(qs, answers);
  }

  /** A number answer at or below zero scores 0; any other never scores above 5. */
  lemma NumberSubScore(q: Question, a: AnswerValue, log10: real -> real)
    requires q.kind.NumberQuestion? && Scorable(q, a)
    ensures ToNumber(a).Finite? && ToNumber(a).value <= 0.0 ==> SubScore(q, a, log10) == 0.0
    ensures SubScore(q, a, log10) <= 5.0
  {
  }

  /** An answer of exactly 10000 scores 1 and an answer of 0 scores 0, given log10(1) = 0. */
  lemma NumberAnchors(q: Question, log10: real -> real)
    requires q.kind.NumberQuestion? && log10(1.0) == 0.0
    ensures SubScore(q, Number(10000.0), log10) == 1.0
    ensures SubScore(q, Number(0.0), log10) == 0.0
  {
    assert 10000.0 / 10000.0 == 1.0;
  }

  /** A scale answer inside [min, max] scores inside [0, 5], whether or not inverted. */
  lemma ScaleSubScoreInRange(q: Question, a: AnswerValue, log10: real -> real)
    requires q.kind.Scale?
    requires OrDefault(q.scaleMin, 1.0) < OrDefault(q.scaleMax, 5.0)
    requires OrDefault(q.scaleMin, 1.0) <= LenientValue(a) <= OrDefault(q.scaleMax, 5.0)
    ensures 0.0 <= SubScore(q, a, log10) <= 5.0
  {
    ScaleScoreInRange(LenientValue(a), OrDefault(q.scaleMin, 1.0), OrDefault(q.scaleMax, 5.0), q.invertScore);
  }

  lemma ScaleScoreInRange(v: real, lo: real, hi: real, invert: bool)
    requires lo < hi && lo <= v <= hi
    ensures 0.0 <= ScaleScore(v, lo, hi, invert) <= 5.0
  {
    UnitFraction(v - lo, hi - lo);
  }

  /** Raising a non-inverted scale answer never lowers its sub-score; an inverted one never raises it. */
  lemma ScaleSubScoreMonotone(q: Question, a: AnswerValue, b: AnswerValue, log10: real -> real)
    requires q.kind.Scale?
    requires OrDefault(q.scaleMin, 1.0) < OrDefault(q.scaleMax, 5.0)
    requires LenientValue(a) <= LenientValue(b)
    ensures !q.invertScore ==> SubScore(q, a, log10) <= SubScore(q, b, log10)
    ensures q.invertScore ==> SubScore(q, b, log10) <= SubScore(q, a, log10)
  {
    ScaleScoreMonotone(LenientValue(a), LenientValue(b), OrDefault(q.scaleMin, 1.0), OrDefault(q.scaleMax, 5.0),
                       q.invertScore);
  }

  lemma ScaleScoreMonotone(v: real, w: real, lo: real, hi: real, invert: bool)
    requires lo < hi && v <= w
    ensures !invert ==> ScaleScore(v, lo, hi, invert) <= ScaleScore(w, lo, hi, invert)
    ensures invert ==> ScaleScore(w, lo, hi, invert) <= ScaleScore(v, lo, hi, invert)
  {
    DivideMonotone(v - lo, w - lo, hi - lo);
  }

  /** Answer b is at least as favourable as answer a on every question with this id. */
  predicate FavourableScaleAnswer(qs: seq<Question>, id: string, a: AnswerValue, b: AnswerValue)
  {
    forall i :: 0 <= i < |qs| && qs[i].id == id ==> FavourableOn(qs[i], a, b)
  }

  /** q is a scale question with a positive weight and a proper range, and b lies no lower
      than a on it (no higher when the scale is inverted). */
  predicate FavourableOn(q: Question, a: AnswerValue, b: AnswerValue)
  {
    q.kind.Scale? && Weight(q) > 0.0
    && OrDefault(q.scaleMin, 1.0) < OrDefault(q.scaleMax, 5.0)
    && (if q.invertScore then LenientValue(b) <= LenientValue(a) else LenientValue(a) <= LenientValue(b))
  }

  /** Replacing the answer to one scale question by a more favourable one keeps totalWeight
      and never lowers totalScore. */
  lemma {:induction false} TotalsScaleMonotone(qs: seq<Question>, answers: Answers, id: string,
                                               a: AnswerValue, b: AnswerValue, log10: real -> real)
    requires FavourableScaleAnswer(qs, id, a, b)
    requires AllScorable(qs, answers[id := a]) && AllScorable(qs, answers[id := b])
    ensures Totals(qs, answers[id := a], log10).totalWeight == Totals(qs, answers[id := b], log10).totalWeight
    ensures Totals(qs, answers[id := a], log10).totalScore <= Totals(qs, answers[id := b], log10).totalScore
    decreases |qs|
  {
    if qs != [] {
      var init, q := qs[..|qs| - 1], qs[|qs| - 1];
      assert AllScorable(init, answers[id := a]) && AllScorable(init, answers[id := b]);
      assert FavourableScaleAnswer(init, id, a, b);
      TotalsScaleMonotone(init, answers, id, a, b, log10);
      assert q.id == id ==> FavourableOn(q, a, b);
      StepScaleMonotone(Totals(init, answers[id := a], log10), Totals(init, answers[id := b], log10),
                        q, answers, id, a, b, log10);
    }
  }

  /** One step of the question loop keeps that relation between two tallies. */
  lemma StepScaleMonotone(ta: Tally, tb: Tally, q: Question, answers: Answers, id: string,
                          a: AnswerValue, b: AnswerValue, log10: real -> real)
    requires ta.totalWeight == tb.totalWeight && ta.totalScore <= tb.totalScore
    requires q.id == id ==> FavourableOn(q, a, b)
    requires q.id in answers[id := a] ==> Scorable(q, answers[id := a][q.id])
    requires q.id in answers[id := b] ==> Scorable(q, answers[id := b][q.id])
    ensures Step(ta, q, answers[id := a], log10).totalWeight == Step(tb, q, answers[id := b], log10).totalWeight
    ensures Step(ta, q, answers[id := a], log10).totalScore <= Step(tb, q, answers[id := b], log10).totalScore
  {
    if q.id == id {
      if q.invertScore {
        ScaleSubScoreMonotone(q, b, a, log10);
      } else {
        ScaleSubScoreMonotone(q, a, b, log10);
      }
      ScaleLe(Weight(q), SubScore(q, a, log10), SubScore(q, b, log10));
      assert Weighted(SubScore(q, a, log10), Weight(q)) <= Weighted(SubScore(q, b, log10), Weight(q));
    } else if q.id in answers {
      assert answers[id := a][q.id] == answers[id := b][q.id];
    }
  }

  /** Moving one scale answer towards the favourable end of its scale, all else fixed, never
      lowers the readiness score. */
  lemma ReadinessScaleMonotone(qs: seq<Question>, answers: Answers, id: string,
                               a: AnswerValue, b: AnswerValue, log10: real -> real)
    requires FavourableScaleAnswer(qs, id, a, b)
    requires AllScorable(qs, answers[id := a]) && AllScorable(qs, answers[id := b])
    requires AnsweredWeight(qs, answers[id := a]) > 0.0
    ensures Totals(qs, answers[id := a], log10).totalWeight > 0.0
    ensures Totals(qs, answers[id := b], log10).totalWeight > 0.0
    ensures Percentage(Totals(qs, answers[id := a], log10)) <= Percentage(Totals(qs, answers[id := b], log10))
  {
    TotalsScaleMonotone(qs, answers, id, a, b, log10);
    TotalWeightIsAnsweredWeight(qs, answers[id := a], log10);
    var ta, tb := Totals(qs, answers[id := a], log10), Totals(qs, answers[id := b], log10);
    var d := ta.totalWeight * 5.0;
    DivideMonotone(ta.totalScore, tb.totalScore, d);
    ScaleLe(100.0, ta.totalScore / d, tb.totalScore / d);
    assert ta.totalScore / d * 100.0 <= tb.totalScore / d * 100.0;
    RoundMonotone(ta.totalScore / d * 100.0, tb.totalScore / d * 100.0);
  }

  lemma UnitFraction(x: real, d: real)
    requires 0.0 <= x <= d && d > 0.0
    ensures 0.0 <= x / d <= 1.0
  {
  }

  lemma DivideMonotone(x: real, y: real, d: real)
    requires x <= y && d > 0.0
    ensures x / d <= y / d
  {
    assert y / d - x / d == (y - x) / d;
  }

  /** With positive weights and every sub-score in [0, 5], the totals keep 0 <= totalScore <= 5 * totalWeight. */
  lemma {:induction false} TotalsBounded(qs: seq<Question>, answers: Answers, log10: real -> real)
    requires AllScorable(qs, answers)
    requires forall i :: 0 <= i < |qs| && qs[i].id in answers ==>
      Weight(qs[i]) > 0.0 && 0.0 <= SubScore(qs[i], answers[qs[i].id], log10) <= 5.0
    ensures var t := Totals(qs, answers, log10);
      0.0 <= t.totalWeight && 0.0 <= t.totalScore <= 5.0 * t.totalWeight
    decreases |qs|
  {
    if qs != [] {
      var init := qs[..|qs| - 1];
      var q := qs[|qs| - 1];
      assert AllScorable(init, answers);
      assert forall i :: 0 <= i < |init| ==> init[i] == qs[i];
      TotalsBounded(init, answers, log10);
      if q.id in answers {
        WeightedBounds(SubScore(q, answers[q.id], log10), Weight(q));
      }
    }
  }

  /** With positive weights and every sub-score in [0, 5], the readiness score lies in [0, 100]. */
  lemma PercentageInRange(qs: seq<Question>, answers: Answers, log10: real -> real)
    requires AllScorable(qs, answers)
    requires AnsweredWeight(qs, answers) != 0.0
    requires forall i :: 0 <= i < |qs| && qs[i].id in answers ==>
      Weight(qs[i]) > 0.0 && 0.0 <= SubScore(qs[i], answers[qs[i].id], log10) <= 5.0
    ensures Totals(qs, answers, log10).totalWeight != 0.0
    ensures 0 <= Percentage(Totals(qs, answers, log10)) <= 100
  {
    TotalWeightIsAnsweredWeight(qs, answers, log10);
    TotalsBounded(qs, answers, log10);
    var t := Totals(qs, answers, log10);
    RatioPercent(t.totalScore, t.totalWeight * 5.0);
  }

  lemma RatioPercent(x: real, d: real)
    requires 0.0 <= x <= d && d > 0.0
    ensures 0 <= Round(x / d * 100.0) <= 100
  {
    var ratio := x / d;
    DivideMonotone(0.0, x, d);
    DivideMonotone(x, d, d);
    assert 0.0 <= ratio * 100.0 <= 100.0;
    RoundMonotone(0.0, ratio * 100.0);
    RoundMonotone(ratio * 100.0, 100.0);
    RoundOfInteger(0);
    RoundOfInteger(100);
  }

  /** The range lookup returns the first range in declared order that contains p, and nothing when none does. */
  lemma {:induction false} FirstMatchIsFirst(ranges: seq<ScoreRange>, p: int, k: nat)
    requires k <= |ranges|
    requires forall m :: 0 <= m < k ==> !InRange(p, ranges[m])
    ensures k < |ranges| && InRange(p, ranges[k]) ==> FirstMatch(ranges, p) == Some(ranges[k])
    ensures k == |ranges| ==> FirstMatch(ranges, p) == None
    decreases k
  {
    if k > 0 {
      var tail := ranges[1..];
      forall m | 0 <= m < k - 1
        ensures !InRange(p, tail[m])
      {
        assert tail[m] == ranges[m + 1];
      }
      FirstMatchIsFirst(tail, p, k - 1);
      assert !InRange(p, ranges[0]);
    }
  }

  /** Range k contains p and no earlier range does. */
  predicate FirstAt(ranges: seq<ScoreRange>, p: int, k: int)
  {
    0 <= k < |ranges| && InRange(p, ranges[k]) && forall m :: 0 <= m < k ==> !InRange(p, ranges[m])
  }

  /** A match is a range that contains p with no earlier range containing it. */
  lemma {:induction false} FirstMatchSound(ranges: seq<ScoreRange>, p: int)
    ensures FirstMatch(ranges, p).Some? ==>
      exists k :: FirstAt(ranges, p, k) && ranges[k] == FirstMatch(ranges, p).value
    ensures FirstMatch(ranges, p).None? ==> forall m :: 0 <= m < |ranges| ==> !InRange(p, ranges[m])
    decreases |ranges|
  {
    if ranges != [] {
      if InRange(p, ranges[0]) {
        assert FirstAt(ranges, p, 0);
      } else {
        var tail := ranges[1..];
        FirstMatchSound(tail, p);
        assert forall m :: 0 < m < |ranges| ==> ranges[m] == tail[m - 1];
        if FirstMatch(tail, p).Some? {
          var k :| FirstAt(tail, p, k) && tail[k] == FirstMatch(tail, p).value;
          assert FirstAt(ranges, p, k + 1);
        }
      }
    }
  }

  /** A key spelled "min-max" with natural bounds reads back as those bounds. */
  lemma RangeKeyBounds(lo: nat, hi: nat, p: int)
    ensures RangeBounds(NatToString(lo) + "-" + NatToString(hi)) == (Finite(lo as real), Finite(hi as real))
    ensures InRange(p, ScoreRange(NatToString(lo) + "-" + NatToString(hi), "", "")) <==> lo <= p <= hi
  {
    NoWhiteSpaceDigits(NatToString(lo));
    NoWhiteSpaceDigits(NatToString(hi));
    SplitTwo(NatToString(lo), NatToString(hi), '-');
    assert NatToString(lo) + "-" + NatToString(hi) == NatToString(lo) + ['-'] + NatToString(hi);
    StringToNumberOfIntToString(lo);
    StringToNumberOfIntToString(hi);
  }

  /** The segment table: at 75 and over, hot urgency or warm urgency makes a hot lead; from
      50 to 74 urgency hot/warm/other gives warm/cold/nurture; below 50 only hot urgency lifts a lead to cold. */
  lemma SegmentTable(p: int, urgency: string)
    ensures p >= 75 ==> SegmentFor(p, urgency) == (if urgency in {"hot", "warm"} then Hot else Warm)
    ensures 50 <= p < 75 ==>
      SegmentFor(p, urgency) == (if urgency == "hot" then Warm else if urgency == "warm" then Cold else Nurture)
    ensures p < 50 ==> SegmentFor(p, urgency) == (if urgency == "hot" then Cold else Nurture)
  {
  }

  /** A higher score or a more urgent tag never lowers the segment. */
  lemma SegmentMonotone(p: int, p': int, u: string, u': string)
    requires p <= p' && UrgencyRank(u) <= UrgencyRank(u')
    ensures SegmentRank(SegmentFor(p, u)) <= SegmentRank(SegmentFor(p', u'))
  {
  }

  /** The worked examples of the segment table. */
  lemma SegmentExamples()
    ensures SegmentFor(80, "hot") == Hot && SegmentFor(80, "nothing") == Warm
    ensures SegmentFor(60, "hot") == Warm && SegmentFor(60, "warm") == Cold
    ensures SegmentFor(30, "hot") == Cold && SegmentFor(30, "nothing") == Nurture
  {
  }

  /** Owner-CEO pay joins the EBITDA only when q3c is true (or "true") and the pay is positive. */
  lemma EbitdaOwnerPay(answers: Answers)
    ensures var reported := IntOrDefault(ParseIntAnswer(AnswerOf(answers, "q3")), 0);
      Ebitda(answers) == reported + (if IsCeoOwner(answers) && CeoPay(answers) > 0 then CeoPay(answers) else 0)
    ensures "q3" !in answers && !IsCeoOwner(answers) ==> Ebitda(answers) == 0
  {
    assert ParseInt("undefined") == None by {
      assert TrimStart("undefined") == "undefined";
      assert !IsDigit('u', 10);
    }
  }

  /** No positive EBITDA or no industry: every valuation figure is zero. */
  lemma ValuationZero(answers: Answers, table: map<string, Multiples>, p: int)
    requires "Andere" in table
    requires Ebitda(answers) <= 0 || !IndustryGiven(answers)
    ensures StandardValuation(answers, table, p) == Valuation(0, 0, 0)
  {
  }

  /** An industry the table does not list is valued with the "Andere" multiples. */
  lemma IndustryFallback(answers: Answers, table: map<string, Multiples>)
    requires "Andere" in table
    requires "q1" in answers && (KeyOf(answers["q1"]).None? || KeyOf(answers["q1"]).value !in table)
    ensures IndustryMultiples(answers, table) == table["Andere"]
  {
  }

  /** The valuation range: high plus the upside is the premium valuation; low <= high when
      premium >= base and p >= 0; the upside is never negative when also p <= 100. */
  lemma ValuationOrdering(ebitda: int, m: Multiples, p: int)
    requires ebitda > 0
    ensures var v := ValuationFor(ebitda, m, p);
      v.high + v.potentialIncrease == Round(ebitda as real * m.premium)
    ensures m.base <= m.premium && 0 <= p ==> ValuationFor(ebitda, m, p).low <= ValuationFor(ebitda, m, p).high
    ensures m.base <= m.premium && 0 <= p <= 100 ==> 0 <= ValuationFor(ebitda, m, p).potentialIncrease
  {
    var f := p as real / 100.0;
    if m.base <= m.premium && 0 <= p {
      Interpolate(m.base, m.premium, f);
      WorthMonotone(ebitda, m.base, CurrentMultiple(m, p));
    }
    if m.base <= m.premium && 0 <= p <= 100 {
      Interpolate(m.base, m.premium, f);
      WorthMonotone(ebitda, CurrentMultiple(m, p), m.premium);
    }
  }

  lemma WorthMonotone(ebitda: int, x: real, y: real)
    requires 0 <= ebitda && x <= y
    ensures Worth(ebitda, x) <= Worth(ebitda, y)
  {
    ScaleLe(ebitda as real, x, y);
    RoundMonotone(ebitda as real * x, ebitda as real * y);
  }

  /** A point between lo and hi, a fraction f of the way. */
  lemma Interpolate(lo: real, hi: real, f: real)
    requires lo <= hi && 0.0 <= f
    ensures lo <= lo + (hi - lo) * f
    ensures f <= 1.0 ==> lo + (hi - lo) * f <= hi
  {
    MultiplyNonNegative(hi - lo, f);
    if f <= 1.0 {
      MultiplyNonNegative(hi - lo, 1.0 - f);
      assert (hi - lo) * (1.0 - f) == (hi - lo) - (hi - lo) * f;
    }
  }

  lemma WeightedBounds(s: real, w: real)
    requires 0.0 <= s <= 5.0 && w > 0.0
    ensures 0.0 <= Weighted(s, w) <= 5.0 * w
  {
    MultiplyNonNegative(s, w);
    MultiplyNonNegative(5.0 - s, w);
  }
}
