/** The expert ("Experto") multiplier valuation of the server and the guard the
    calculation endpoint applies to the submitted answers. */
module ExpertValuation {
  import opened JsValues

  /** The answers of the expert calculator; the quality factors in the order the
      object lists them. */
  datatype ExpertoFormAnswers = ExpertoFormAnswers(
    industry: string,
    yearlyRevenue: real,
    lastThreeYearsProfit: seq<real>,
    executiveSalary: real,
    debt: real,
    nonOperationalAssets: real,
    qualityFactors: seq<(string, real)>)

  datatype ExpertoResult = ExpertoResult(
    companyValue: int,
    industryMultiplier: real,
    qualityAdjustment: real,
    adjustedMultiplier: real,
    baseValue: int,
    normalizedEBIT: int,
    avgProfit: int,
    netDebtEffect: int)

  // ------------------------------------------------------------ sums

  /** `xs.reduce((sum, val) => sum + val, 0)`: left to right from 0. */
  function Sum(xs: seq<real>): (r: real)
  {
    if xs == [] then 0.0 else Sum(xs[..|xs| - 1]) + xs[|xs| - 1]
  }

  /** The sum taken from the front: the textbook definition. */
  function SumFromFront(xs: seq<real>): (r: real)
  {
    if xs == [] then 0.0 else xs[0] + SumFromFront(xs[1..])
  }

  /** `Object.values(factors)`, in the order the fields are listed here. JavaScript lists
      integer-like keys first; only the sum is used, and it does not depend on the order. */
  function Values(fields: seq<(string, real)>): (r: seq<real>)
  {
    if fields == [] then [] else Values(fields[..|fields| - 1]) + [fields[|fields| - 1].1]
  }

  /** The values in the order of their fields. */
  lemma {:induction false} ValuesSpec(fields: seq<(string, real)>)
    ensures |Values(fields)| == |fields|
    ensures forall i :: 0 <= i < |fields| ==> Values(fields)[i] == fields[i].1
    decreases |fields|
  {
    if fields != [] {
      ValuesSpec(fields[..|fields| - 1]);
    }
  }

  /** The arithmetic mean. */
  function Mean(xs: seq<real>): (r: real)
    requires xs != []
  {
    SumFromFront(xs) / |xs| as real
  }

  // ------------------------------------------------------------ the valuation

  /** `Math.round(x / 1000) * 1000` */
  function RoundToThousand(x: real): (r: int)
  {
    Round(x / 1000.0) * 1000
  }

  /** The nearest multiple of a thousand, a half rounded up. */
  lemma ThousandRounding(x: real)
    ensures RoundToThousand(x) % 1000 == 0
    ensures RoundToThousand(x) as real - 500.0 <= x < RoundToThousand(x) as real + 500.0
  {
    var k := Round(x / 1000.0);
    assert k as real - 0.5 <= x / 1000.0 < k as real + 0.5;
    assert (k * 1000) as real == k as real * 1000.0;
  }

  lemma RoundToThousandMonotone(x: real, y: real)
    requires x <= y
    ensures RoundToThousand(x) <= RoundToThousand(y)
  {
    assert x / 1000.0 <= y / 1000.0;
    RoundMonotone(x / 1000.0, y / 1000.0);
  }

  /** `multipliers[industry] || multipliers.default`: a missing and a zero entry both
      fall back to the default. */
  function IndustryMultiplier(industry: string, multipliers: map<string, real>): (m: real)
    requires "default" in multipliers
    ensures industry !in multipliers ==> m == multipliers["default"]
    ensures industry in multipliers && multipliers[industry] != 0.0 ==> m == multipliers[industry]
  {
    if industry in multipliers && multipliers[industry] != 0.0 then multipliers[industry] else multipliers["default"]
  }

  /** An amount valued at a multiple. */
  function Scaled(amount: real, multiple: real): (r: real)
  {
    amount * multiple
  }

  /** `multiplier * (1 + qualityAdjustment)`: a premium or discount of that fraction. */
  function Adjusted(multiplier: real, qualityAdjustment: real): (r: real)
  {
    multiplier * (1.0 + qualityAdjustment)
  }

  /** The enterprise value before rounding, as the method defines it: the normalised
      EBIT (mean profit plus the executive salary) times the industry multiplier scaled
      by one plus the summed quality factors, less debt, plus non-operational assets. */
  function EnterpriseValue(data: ExpertoFormAnswers, multipliers: map<string, real>): (r: real)
    requires data.lastThreeYearsProfit != [] && "default" in multipliers
  {
    var normalizedEbit := Mean(data.lastThreeYearsProfit) + data.executiveSalary;
    var qualityAdjustment := SumFromFront(Values(data.qualityFactors));
    Scaled(normalizedEbit, Adjusted(IndustryMultiplier(data.industry, multipliers), qualityAdjustment))
      - data.debt + data.nonOperationalAssets
  }

  /** calculateExpertoValuation, with the multiplier table passed in. The three money
      figures are whole thousands; the company value lies within 500 of the normalised
      EBIT valued at the adjusted multiplier, less debt, plus non-operational assets; and
      the adjusted multiplier is the industry multiplier scaled by one plus the quality
      adjustment. */
  function CalculateExpertoValuation(data: ExpertoFormAnswers, multipliers: map<string, real>): (r: ExpertoResult)
    requires data.lastThreeYearsProfit != [] && "default" in multipliers
    ensures r.companyValue % 1000 == 0 && r.baseValue % 1000 == 0 && r.netDebtEffect % 1000 == 0
    ensures r.industryMultiplier == IndustryMultiplier(data.industry, multipliers)
    ensures r.adjustedMultiplier == r.industryMultiplier * (1.0 + r.qualityAdjustment)
    ensures var normalizedEbit := Sum(data.lastThreeYearsProfit) / |data.lastThreeYearsProfit| as real + data.executiveSalary;
      && r.normalizedEBIT == Round(normalizedEbit)
      && r.companyValue as real - 500.0 <= Scaled(normalizedEbit, r.adjustedMultiplier) - data.debt + data.nonOperationalAssets
         < r.companyValue as real + 500.0
      && r.baseValue as real - 500.0 <= Scaled(normalizedEbit, r.industryMultiplier) < r.baseValue as real + 500.0
    ensures r.netDebtEffect as real - 500.0 <= data.nonOperationalAssets - data.debt < r.netDebtEffect as real + 500.0
  {
    var multiplier := IndustryMultiplier(data.industry, multipliers);
    var avgProfit := Sum(data.lastThreeYearsProfit) / |data.lastThreeYearsProfit| as real;
    var normalizedEBIT := avgProfit + data.executiveSalary;
    var baseValue := Scaled(normalizedEBIT, multiplier);
    var qualityAdjustment := Sum(Values(data.qualityFactors));
    var adjustedMultiplier := Adjusted(multiplier, qualityAdjustment);
    var adjustedValue := Scaled(normalizedEBIT, adjustedMultiplier);
    var enterpriseValue := adjustedValue - data.debt + data.nonOperationalAssets;
    ThousandRounding(enterpriseValue);
    ThousandRounding(baseValue);
    ThousandRounding(data.nonOperationalAssets - data.debt);
    ExpertoResult(
      RoundToThousand(enterpriseValue),
      multiplier,
      qualityAdjustment,
      adjustedMultiplier,
      RoundToThousand(baseValue),
      Round(normalizedEBIT),
      Round(avgProfit),
      RoundToThousand(data.nonOperationalAssets - data.debt))
  }

  // ------------------------------------------------------------ lemmas

  lemma {:induction false} SumAppend(xs: seq<real>, ys: seq<real>)
    ensures Sum(xs + ys) == Sum(xs) + Sum(ys)
    decreases |ys|
  {
    if ys == [] {
      assert xs + ys == xs;
    } else {
      var init := ys[..|ys| - 1];
      assert (xs + ys)[..|xs + ys| - 1] == xs + init;
      assert (xs + ys)[|xs + ys| - 1] == ys[|ys| - 1];
      SumAppend(xs, init);
    }
  }

  /** Summing left to right and from the front agree. */
  lemma {:induction false} SumIsSumFromFront(xs: seq<real>)
    ensures Sum(xs) == SumFromFront(xs)
    decreases |xs|
  {
    if xs != [] {
      SumIsSumFromFront(xs[1..]);
      SumAppend([xs[0]], xs[1..]);
      assert [xs[0]] + xs[1..] == xs;
      assert Sum([xs[0]]) == xs[0] by {
        assert [xs[0]][..0] == [];
      }
    }
  }

  /** Sum(xs) with the element at k taken out, plus that element. */
  lemma SumRemove(xs: seq<real>, k: nat)
    requires k < |xs|
    ensures Sum(xs) == Sum(xs[..k] + xs[k + 1..]) + xs[k]
  {
    var before, after := xs[..k], xs[k + 1..];
    var left := xs[..k + 1];
    assert xs == left + after;
    assert left[..k] == before;
    SumAppend(left, after);
    SumAppend(before, after);
  }

  /** The sum does not depend on the order of its terms. */
  lemma {:induction false} SumPermutation(xs: seq<real>, ys: seq<real>)
    requires multiset(xs) == multiset(ys)
    ensures Sum(xs) == Sum(ys)
    decreases |xs|
  {
    if xs == [] {
      assert |ys| == |multiset(ys)| == 0;
    } else {
      var init := xs[..|xs| - 1];
      var x := xs[|xs| - 1];
      assert xs == init + [x];
      assert x in multiset(ys) by {
        assert x in multiset(xs);
      }
      var k :| 0 <= k < |ys| && ys[k] == x;
      MultisetWithout(init, x, ys, k);
      SumPermutation(init, ys[..k] + ys[k + 1..]);
      SumRemove(ys, k);
    }
  }

  lemma MultisetWithout(init: seq<real>, x: real, ys: seq<real>, k: nat)
    requires k < |ys| && ys[k] == x
    requires multiset(init + [x]) == multiset(ys)
    ensures multiset(init) == multiset(ys[..k] + ys[k + 1..])
  {
    var before, after := ys[..k], ys[k + 1..];
    assert ys == before + [x] + after;
    assert multiset(ys) == multiset(before) + multiset{x} + multiset(after);
    var rest := before + after;
    assert multiset(rest) == multiset(before) + multiset(after);
    assert multiset(init) + multiset{x} == multiset(rest) + multiset{x};
    forall e
      ensures multiset(init)[e] == multiset(rest)[e]
    {
      assert (multiset(init) + multiset{x})[e] == (multiset(rest) + multiset{x})[e];
    }
  }

  /** The three yearly profits' mean is their sum over three. */
  lemma MeanOfThree(a: real, b: real, c: real)
    ensures Mean([a, b, c]) == (a + b + c) / 3.0
  {
    assert [a, b, c][1..] == [b, c];
    assert [b, c][1..] == [c];
    assert [c][1..] == [];
    assert SumFromFront([c]) == c;
    assert SumFromFront([b, c]) == b + c;
  }

  /** The mean lies between the smallest and the largest profit. */
  lemma MeanBetween(xs: seq<real>, lo: real, hi: real)
    requires xs != []
    requires forall i :: 0 <= i < |xs| ==> lo <= xs[i] <= hi
    ensures lo <= Mean(xs) <= hi
  {
    SumBounds(xs, lo, hi);
    var n := |xs| as real;
    assert SumFromFront(xs) / n >= lo by {
      assert SumFromFront(xs) >= n * lo;
      QuotientAtLeast(SumFromFront(xs), n, lo);
    }
    assert SumFromFront(xs) / n <= hi by {
      assert SumFromFront(xs) <= n * hi;
      QuotientAtMost(SumFromFront(xs), n, hi);
    }
  }

  lemma {:induction false} SumBounds(xs: seq<real>, lo: real, hi: real)
    requires forall i :: 0 <= i < |xs| ==> lo <= xs[i] <= hi
    ensures |xs| as real * lo <= SumFromFront(xs) <= |xs| as real * hi
    decreases |xs|
  {
    if xs != [] {
      SumBounds(xs[1..], lo, hi);
      var n := |xs[1..]| as real;
      assert (n + 1.0) * lo == n * lo + lo;
      assert (n + 1.0) * hi == n * hi + hi;
    }
  }

  lemma QuotientAtLeast(s: real, n: real, lo: real)
    requires n > 0.0 && s >= n * lo
    ensures s / n >= lo
  {
  }

  lemma QuotientAtMost(s: real, n: real, hi: real)
    requires n > 0.0 && s <= n * hi
    ensures s / n <= hi
  {
  }

  /** The company value, the base value and the net debt effect are whole thousands, and
      the company value is the enterprise value rounded to the nearest thousand. */
  lemma CompanyValueRounding(data: ExpertoFormAnswers, multipliers: map<string, real>)
    requires data.lastThreeYearsProfit != [] && "default" in multipliers
    ensures var r := CalculateExpertoValuation(data, multipliers);
      && r.companyValue % 1000 == 0 && r.baseValue % 1000 == 0 && r.netDebtEffect % 1000 == 0
      && r.companyValue == RoundToThousand(EnterpriseValue(data, multipliers))
      && r.companyValue as real - 500.0 <= EnterpriseValue(data, multipliers) < r.companyValue as real + 500.0
  {
    SumIsSumFromFront(data.lastThreeYearsProfit);
    SumIsSumFromFront(Values(data.qualityFactors));
    ThousandRounding(EnterpriseValue(data, multipliers));
    ThousandRounding(Scaled(Mean(data.lastThreeYearsProfit) + data.executiveSalary,
                            IndustryMultiplier(data.industry, multipliers)));
    ThousandRounding(data.nonOperationalAssets - data.debt);
  }

  /** The reported figures: the average profit and the normalised EBIT are the rounded
      mean and mean plus salary, the quality adjustment is the sum of the factors, and
      the multiplier is scaled by one plus that sum. */
  lemma ReportedFigures(data: ExpertoFormAnswers, multipliers: map<string, real>)
    requires data.lastThreeYearsProfit != [] && "default" in multipliers
    ensures var r := CalculateExpertoValuation(data, multipliers);
      && r.avgProfit == Round(Mean(data.lastThreeYearsProfit))
      && r.normalizedEBIT == Round(Mean(data.lastThreeYearsProfit) + data.executiveSalary)
      && r.qualityAdjustment == SumFromFront(Values(data.qualityFactors))
      && r.industryMultiplier == IndustryMultiplier(data.industry, multipliers)
      && r.adjustedMultiplier == r.industryMultiplier * (1.0 + r.qualityAdjustment)
  {
    SumIsSumFromFront(data.lastThreeYearsProfit);
    SumIsSumFromFront(Values(data.qualityFactors));
  }

  /** Without quality factors, or with factors that cancel, the multiplier is the industry's. */
  lemma NeutralQuality(data: ExpertoFormAnswers, multipliers: map<string, real>)
    requires data.lastThreeYearsProfit != [] && "default" in multipliers
    requires SumFromFront(Values(data.qualityFactors)) == 0.0
    ensures var r := CalculateExpertoValuation(data, multipliers);
      r.qualityAdjustment == 0.0 && r.adjustedMultiplier == r.industryMultiplier
  {
    ReportedFigures(data, multipliers);
  }

  /** The valuation depends on the quality factors only through their sum. */
  lemma QualityThroughSum(data: ExpertoFormAnswers, factors: seq<(string, real)>, multipliers: map<string, real>)
    requires data.lastThreeYearsProfit != [] && "default" in multipliers
    requires Sum(Values(factors)) == Sum(Values(data.qualityFactors))
    ensures CalculateExpertoValuation(data.(qualityFactors := factors), multipliers)
         == CalculateExpertoValuation(data, multipliers)
  {
  }

  /** The quality adjustment does not depend on the order of the factors. */
  lemma QualityOrderFree(data: ExpertoFormAnswers, reordered: seq<(string, real)>, multipliers: map<string, real>)
    requires data.lastThreeYearsProfit != [] && "default" in multipliers
    requires multiset(Values(reordered)) == multiset(Values(data.qualityFactors))
    ensures CalculateExpertoValuation(data.(qualityFactors := reordered), multipliers)
         == CalculateExpertoValuation(data, multipliers)
  {
    SumPermutation(Values(reordered), Values(data.qualityFactors));
    QualityThroughSum(data, reordered, multipliers);
  }

  /** An industry missing from the table, or listed with 0, is valued with the default multiplier. */
  lemma DefaultMultiplier(data: ExpertoFormAnswers, multipliers: map<string, real>)
    requires data.lastThreeYearsProfit != [] && "default" in multipliers
    requires data.industry !in multipliers || multipliers[data.industry] == 0.0
    ensures CalculateExpertoValuation(data, multipliers).industryMultiplier == multipliers["default"]
  {
  }

  /** More non-operational assets never lower the company value; more debt never raises it. */
  lemma CompanyValueMonotone(data: ExpertoFormAnswers, multipliers: map<string, real>, more: real)
    requires data.lastThreeYearsProfit != [] && "default" in multipliers
    requires more >= 0.0
    ensures CalculateExpertoValuation(data, multipliers).companyValue
         <= CalculateExpertoValuation(data.(nonOperationalAssets := data.nonOperationalAssets + more), multipliers).companyValue
    ensures CalculateExpertoValuation(data.(debt := data.debt + more), multipliers).companyValue
         <= CalculateExpertoValuation(data, multipliers).companyValue
  {
    var richer := data.(nonOperationalAssets := data.nonOperationalAssets + more);
    var indebted := data.(debt := data.debt + more);
    var e := EnterpriseValue(data, multipliers);
    assert EnterpriseValue(richer, multipliers) == e + more;
    assert EnterpriseValue(indebted, multipliers) == e - more;
    CompanyValueRounding(data, multipliers);
    CompanyValueRounding(richer, multipliers);
    CompanyValueRounding(indebted, multipliers);
    RoundToThousandMonotone(e, e + more);
    RoundToThousandMonotone(e - more, e);
  }

  /** The worked example: profits of 100000, 120000 and 140000, an executive salary of 60000,
      debt of 50000, assets of 20000, factors +0.10 and -0.05, and a multiplier of 6. */
  lemma WorkedExample()
    ensures var data := ExpertoFormAnswers("SaaS & IT", 1000000.0, [100000.0, 120000.0, 140000.0],
                                           60000.0, 50000.0, 20000.0, [("growth", 0.10), ("risk", -0.05)]);
            var r := CalculateExpertoValuation(data, map["SaaS & IT" := 6.0, "default" := 4.0]);
            r.avgProfit == 120000 && r.normalizedEBIT == 180000 && r.industryMultiplier == 6.0
            && r.qualityAdjustment == 0.05 && r.adjustedMultiplier == 6.3
            && r.baseValue == 1080000 && r.netDebtEffect == -30000 && r.companyValue == 1104000
  {
    var data := ExpertoFormAnswers("SaaS & IT", 1000000.0, [100000.0, 120000.0, 140000.0],
                                   60000.0, 50000.0, 20000.0, [("growth", 0.10), ("risk", -0.05)]);
    var multipliers := map["SaaS & IT" := 6.0, "default" := 4.0];
    ExampleSums();
    assert IndustryMultiplier(data.industry, multipliers) == 6.0;
    assert Adjusted(6.0, 0.05) == 6.3;
    assert Scaled(180000.0, 6.0) == 1080000.0;
    assert Scaled(180000.0, 6.3) == 1134000.0;
    ExampleRounding();
  }

  /** The sums of the worked example: the profits add up to 360000 and the factors to 0.05. */
  lemma ExampleSums()
    ensures Sum([100000.0, 120000.0, 140000.0]) / 3.0 == 120000.0
    ensures Sum(Values([("growth", 0.10), ("risk", -0.05)])) == 0.05
  {
    var profits := [100000.0, 120000.0, 140000.0];
    assert [100000.0][..0] == [];
    assert [100000.0, 120000.0][..1] == [100000.0];
    assert profits[..2] == [100000.0, 120000.0];
    assert Sum(profits) == 360000.0;
    var factors := [("growth", 0.10), ("risk", -0.05)];
    var noFields: seq<(string, real)> := [];
    assert factors[..1] == [("growth", 0.10)] && factors[..1][..0] == noFields;
    assert Values(factors) == [0.10, -0.05];
    assert [0.10, -0.05][..1] == [0.10] && [0.10][..0] == [];
  }

  /** The roundings of the worked example. */
  lemma ExampleRounding()
    ensures Round(120000.0) == 120000 && Round(180000.0) == 180000
    ensures RoundToThousand(1080000.0) == 1080000 && RoundToThousand(20000.0 - 50000.0) == -30000
    ensures RoundToThousand(1134000.0 - 50000.0 + 20000.0) == 1104000
  {
    RoundOfInteger(120000);
    RoundOfInteger(180000);
    RoundOfInteger(1080);
    RoundOfInteger(-30);
    RoundOfInteger(1104);
  }

  // ------------------------------------------------------------ the request guard

  predicate IsNumber(v: Option<Json>)
  {
    v.Some? && v.value.JNumber?
  }

  predicate IsArrayOfLength(v: Option<Json>, n: nat)
  {
    v.Some? && v.value.JArray? && |v.value.items| == n
  }

  /** The field check of the calculation endpoint: a truthy industry, numbers for the
      revenue, salary, debt and assets, an array of exactly three profits, and truthy
      quality factors. Only an object can pass it, and one that does has exactly three
      profit entries and an industry that is present and not null. */
  predicate ValidAnswers(answers: Json)
    ensures ValidAnswers(answers) ==> answers.JObject?
    ensures ValidAnswers(answers) ==> Get(answers, "industry") !in {None, Some(JNull)}
    ensures ValidAnswers(answers) ==>
      var profits := Get(answers, "lastThreeYearsProfit");
      profits.Some? && profits.value.JArray? && |profits.value.items| == 3
  {
    && Truthy(Get(answers, "industry"))
    && IsNumber(Get(answers, "yearlyRevenue"))
    && IsArrayOfLength(Get(answers, "lastThreeYearsProfit"), 3)
    && IsNumber(Get(answers, "executiveSalary"))
    && IsNumber(Get(answers, "debt"))
    && IsNumber(Get(answers, "nonOperationalAssets"))
    && Truthy(Get(answers, "qualityFactors"))
  }

  function Numbers(xs: seq<real>): (js: seq<Json>)
    ensures |js| == |xs|
  {
    if xs == [] then [] else Numbers(xs[..|xs| - 1]) + [JNumber(xs[|xs| - 1])]
  }

  function Factors(fs: seq<(string, real)>): (js: seq<(string, Json)>)
  {
    if fs == [] then [] else Factors(fs[..|fs| - 1]) + [(fs[|fs| - 1].0, JNumber(fs[|fs| - 1].1))]
  }

  /** The answers object the calculator page sends for a form. */
  function ToJson(f: ExpertoFormAnswers): (r: Json)
  {
    JObject([
      ("industry", JString(f.industry)),
      ("yearlyRevenue", JNumber(f.yearlyRevenue)),
      ("lastThreeYearsProfit", JArray(Numbers(f.lastThreeYearsProfit))),
      ("executiveSalary", JNumber(f.executiveSalary)),
      ("debt", JNumber(f.debt)),
      ("nonOperationalAssets", JNumber(f.nonOperationalAssets)),
      ("qualityFactors", JObject(Factors(f.qualityFactors)))])
  }

  function NumberList(js: seq<Json>): (r: Option<seq<real>>)
  {
    if js == [] then Some([])
    else match (NumberList(js[..|js| - 1]), js[|js| - 1])
      case (Some(xs), JNumber(x)) => Some(xs + [x])
      case _ => None
  }

  function FactorList(js: seq<(string, Json)>): (r: Option<seq<(string, real)>>)
  {
    if js == [] then Some([])
    else match (FactorList(js[..|js| - 1]), js[|js| - 1].1)
      case (Some(fs), JNumber(x)) => Some(fs + [(js[|js| - 1].0, x)])
      case _ => None
  }

  function NumberField(j: Json, key: string): (r: Option<real>)
  {
    match Get(j, key)
    case Some(JNumber(x)) => Some(x)
    case _ => None
  }

  /** Reads a form from an answers object whose industry is a string, whose profits
      are numbers and whose quality factors are an object of numbers; None otherwise. */
  function FromJson(j: Json): (r: Option<ExpertoFormAnswers>)
  {
    match (Get(j, "industry"), Get(j, "lastThreeYearsProfit"), Get(j, "qualityFactors"))
    case (Some(JString(industry)), Some(JArray(items)), Some(JObject(fields))) =>
      var revenue := NumberField(j, "yearlyRevenue");
      var salary := NumberField(j, "executiveSalary");
      var debt := NumberField(j, "debt");
      var assets := NumberField(j, "nonOperationalAssets");
      var profits := NumberList(items);
      var factors := FactorList(fields);
      if revenue.Some? && salary.Some? && debt.Some? && assets.Some? && profits.Some? && factors.Some? then
        Some(ExpertoFormAnswers(industry, revenue.value, profits.value, salary.value, debt.value, assets.value,
                                factors.value))
      else None
    case _ => None
  }

  lemma {:induction false} NumberListOfNumbers(xs: seq<real>)
    ensures NumberList(Numbers(xs)) == Some(xs)
    decreases |xs|
  {
    if xs != [] {
      var init := xs[..|xs| - 1];
      NumberListOfNumbers(init);
      var js := Numbers(xs);
      assert js[..|js| - 1] == Numbers(init);
      assert init + [xs[|xs| - 1]] == xs;
    }
  }

  lemma {:induction false} FactorListOfFactors(fs: seq<(string, real)>)
    ensures FactorList(Factors(fs)) == Some(fs)
    decreases |fs|
  {
    if fs != [] {
      var init := fs[..|fs| - 1];
      FactorListOfFactors(init);
      var js := Factors(fs);
      assert js[..|js| - 1] == Factors(init);
      assert init + [(fs[|fs| - 1].0, fs[|fs| - 1].1)] == fs;
    }
  }

  /** The field values of the answers object a form is sent as. */
  lemma ToJsonFields(f: ExpertoFormAnswers)
    ensures Get(ToJson(f), "industry") == Some(JString(f.industry))
    ensures Get(ToJson(f), "yearlyRevenue") == Some(JNumber(f.yearlyRevenue))
    ensures Get(ToJson(f), "lastThreeYearsProfit") == Some(JArray(Numbers(f.lastThreeYearsProfit)))
    ensures Get(ToJson(f), "executiveSalary") == Some(JNumber(f.executiveSalary))
    ensures Get(ToJson(f), "debt") == Some(JNumber(f.debt))
    ensures Get(ToJson(f), "nonOperationalAssets") == Some(JNumber(f.nonOperationalAssets))
    ensures Get(ToJson(f), "qualityFactors") == Some(JObject(Factors(f.qualityFactors)))
  {
    var fields := ToJson(f).fields;
    LookupLast(fields, 0);
    LookupLast(fields, 1);
    LookupLast(fields, 2);
    LookupLast(fields, 3);
    LookupLast(fields, 4);
    LookupLast(fields, 5);
    LookupLast(fields, 6);
  }

  /** A form read back from the object it is sent as is the same form. */
  lemma FromToJson(f: ExpertoFormAnswers)
    ensures FromJson(ToJson(f)) == Some(f)
  {
    ToJsonFields(f);
    NumberListOfNumbers(f.lastThreeYearsProfit);
    FactorListOfFactors(f.qualityFactors);
  }

  /** The guard accepts a sent form exactly when its industry is non-empty and it has
      three yearly profits. */
  lemma GuardOnForms(f: ExpertoFormAnswers)
    ensures ValidAnswers(ToJson(f)) <==> f.industry != "" && |f.lastThreeYearsProfit| == 3
  {
    ToJsonFields(f);
  }

  /** Whatever the guard accepts and the model can read meets the valuation's precondition. */
  lemma GuardEstablishesPrecondition(j: Json)
    requires ValidAnswers(j) && FromJson(j).Some?
    ensures |FromJson(j).value.lastThreeYearsProfit| == 3 && FromJson(j).value.industry != ""
  {
    var items := Get(j, "lastThreeYearsProfit").value.items;
    NumberListLength(items);
  }

  lemma {:induction false} NumberListLength(js: seq<Json>)
    ensures NumberList(js).Some? ==> |NumberList(js).value| == |js|
    decreases |js|
  {
    if js != [] {
      NumberListLength(js[..|js| - 1]);
    }
  }
}
