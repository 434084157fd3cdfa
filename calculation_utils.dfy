/** The client-side quick calculator: the exit readiness score of a filled-in form, the
    valuation range derived from it and the bottlenecks that hold the valuation back. */

module CalculationUtils {
  import opened JsValues

  /** The answers of the quick calculator form; the numbers come from sliders and inputs. */
  datatype CalculatorFormData = CalculatorFormData(
    businessModel: string,
    founderDependency: string,
    decisionMaker: string,
    processes: string,
    teamStructure: string,
    retentionPeriod: string,
    growthRate: string,
    recurringRevenue: real,
    automationLevel: real,
    ebitMargin: real,
    revenueAmount: real)

  datatype Severity = High | Medium

  /** A bottleneck as the seven checks report it: which check raised it, and how severe it is.
      Title and description are texts fixed per check. */
  datatype Bottleneck = Bottleneck(check: Check, severity: Severity)
  {
    function Title(): (r: string)
    {
      match check
      case FounderDependency => "Operative Abhängigkeit"
      case RecurringRevenue => "Fehlende strukturierte Wiederkehrmodelle"
      case Processes => "Mangelnde Prozessdokumentation"
      case TeamStructure => "Fehlendes Führungsteam"
      case GrowthRate => "Stagnierendes Wachstum"
      case Retention => "Geringe Kundenbindung"
      case Profitability => "Niedrige Profitabilität"
    }

    function Description(): (r: string)
    {
      match check
      case FounderDependency =>
        "Dein Geschäft ist stark von deiner persönlichen Beteiligung abhängig. Potenzielle Käufer suchen nach Unternehmen, die unabhängig vom Gründer funktionieren."
      case RecurringRevenue =>
        "Dein Umsatz besteht zu einem erheblichen Teil aus nicht-wiederkehrenden Einnahmen. Unternehmen mit vorhersehbaren, wiederkehrenden Umsätzen erzielen höhere Bewertungen."
      case Processes =>
        "Deine Geschäftsprozesse sind unzureichend dokumentiert. Gut dokumentierte Prozesse machen dein Unternehmen für Käufer attraktiver und erleichtern die Übergabe."
      case TeamStructure =>
        "Ein starkes Management-Team ist entscheidend für einen erfolgreichen Exit. Ohne ein funktionierendes Führungsteam besteht eine hohe Abhängigkeit vom Gründer."
      case GrowthRate =>
        "Käufer suchen nach Wachstumspotenzial. Ein stagnierendes oder rückläufiges Geschäft ist deutlich schwerer zu verkaufen und erzielt niedrigere Multiplikatoren."
      case Retention =>
        "Langfristige Kundenbeziehungen erhöhen den Unternehmenswert erheblich. Eine kurze Kundenbindungsdauer wird von Käufern als Risiko angesehen."
      case Profitability =>
        "Eine höhere EBIT-Marge führt direkt zu höheren Bewertungsmultiplikatoren. Die Steigerung deiner Profitabilität sollte eine Priorität sein."
    }
  }

  datatype ValuationResult = ValuationResult(
    valuationLow: int,
    valuationHigh: int,
    potentialIncrease: int,
    mainBottlenecks: seq<Bottleneck>)

  // ------------------------------------------------------------ exit readiness

  /** Points per answer; an answer not in a table adds nothing. */
  const BusinessModelPoints: map<string, int> := map["saas" := 10, "digitalproduct" := 5, "agency" := -5]
  const FounderDependencyPoints: map<string, int> :=
    map["rarely" := 15, "monthly" := 10, "weekly" := 5, "daily" := -10]
  const DecisionMakerPoints: map<string, int> := map["distributed" := 10, "management" := 5, "founder" := -5]
  const ProcessesPoints: map<string, int> := map["yes" := 10, "partial" := 5, "minimal" := -5, "no" := -10]
  const TeamStructurePoints: map<string, int> :=
    map["complete" := 10, "partial" := 5, "minimal" := -5, "none" := -10]
  const RetentionPeriodPoints: map<string, int> := map["years" := 10, "year" := 5, "months" := -5, "once" := -10]
  const GrowthRatePoints: map<string, int> := map["high" := 15, "medium" := 10, "low" := 5, "flat" := -10]

  function Points(table: map<string, int>, answer: string): (r: int)
  {
    if answer in table then table[answer] else 0
  }

  /** The EBIT margin bands: above 30, above 20, between 10 and 20, below 10. */
  function MarginPoints(margin: real): (r: int)
  {
    if margin > 30.0 then 10 else if margin > 20.0 then 5 else if margin < 10.0 then -5 else 0
  }

  /** The score before it is clamped: 50 plus the points of every answer. */
  function RawReadiness(data: CalculatorFormData): (r: int)
  {
    50
    + Points(BusinessModelPoints, data.businessModel)
    + Round(data.recurringRevenue / 10.0)
    + Points(FounderDependencyPoints, data.founderDependency)
    + Points(DecisionMakerPoints, data.decisionMaker)
    + Points(ProcessesPoints, data.processes)
    + Points(TeamStructurePoints, data.teamStructure)
    + Round(data.automationLevel / 10.0)
    + Points(RetentionPeriodPoints, data.retentionPeriod)
    + Points(GrowthRatePoints, data.growthRate)
    + MarginPoints(data.ebitMargin)
  }

  /** `Math.max(0, Math.min(100, score))`. */
  function Clamp(score: int): (r: int)
    ensures 0 <= r <= 100
    ensures 0 <= score <= 100 ==> r == score
    ensures score < 0 ==> r == 0
    ensures score > 100 ==> r == 100
  {
    var capped := if score < 100 then score else 100;
    if 0 > capped then 0 else capped
  }

  function ExitReadiness(data: CalculatorFormData): (r: int)
  {
    Clamp(RawReadiness(data))
  }

  /** calculateExitReadiness: the score updated answer by answer, then clamped. */
  method CalculateExitReadiness(data: CalculatorFormData) returns (readiness: int)
    ensures 0 <= readiness <= 100
    ensures readiness == ExitReadiness(data)
  {
    var score := 50;
    score := AddBusinessModelPoints(score, data.businessModel);
    score := score + Round(data.recurringRevenue / 10.0);
    score := AddFounderDependencyPoints(score, data.founderDependency);
    score := AddDecisionMakerPoints(score, data.decisionMaker);
    score := AddProcessesPoints(score, data.processes);
    score := AddTeamStructurePoints(score, data.teamStructure);
    score := score + Round(data.automationLevel / 10.0);
    score := AddRetentionPeriodPoints(score, data.retentionPeriod);
    score := AddGrowthRatePoints(score, data.growthRate);

    if data.ebitMargin > 30.0 { score := score + 10; }
    else if data.ebitMargin > 20.0 { score := score + 5; }
    else if data.ebitMargin < 10.0 { score := score - 5; }

    readiness := Clamp(score);
  }

  /** The business model step of calculateExitReadiness. */
  method AddBusinessModelPoints(score: int, businessModel: string) returns (updated: int)
    ensures updated == score + Points(BusinessModelPoints, businessModel)
  {
    updated := score;
    if businessModel == "saas" { updated := updated + 10; }
    else if businessModel == "digitalproduct" { updated := updated + 5; }
    else if businessModel == "agency" { updated := updated - 5; }
  }

  /** The founder dependency step of calculateExitReadiness. */
  method AddFounderDependencyPoints(score: int, founderDependency: string) returns (updated: int)
    ensures updated == score + Points(FounderDependencyPoints, founderDependency)
  {
    updated := score;
    if founderDependency == "rarely" { updated := updated + 15; }
    else if founderDependency == "monthly" { updated := updated + 10; }
    else if founderDependency == "weekly" { updated := updated + 5; }
    else if founderDependency == "daily" { updated := updated - 10; }
  }

  /** The decision-making step of calculateExitReadiness. */
  method AddDecisionMakerPoints(score: int, decisionMaker: string) returns (updated: int)
    ensures updated == score + Points(DecisionMakerPoints, decisionMaker)
  {
    updated := score;
    if decisionMaker == "distributed" { updated := updated + 10; }
    else if decisionMaker == "management" { updated := updated + 5; }
    else if decisionMaker == "founder" { updated := updated - 5; }
  }

  /** The process documentation step of calculateExitReadiness. */
  method AddProcessesPoints(score: int, processes: string) returns (updated: int)
    ensures updated == score + Points(ProcessesPoints, processes)
  {
    updated := score;
    if processes == "yes" { updated := updated + 10; }
    else if processes == "partial" { updated := updated + 5; }
    else if processes == "minimal" { updated := updated - 5; }
    else if processes == "no" { updated := updated - 10; }
  }

  /** The team structure step of calculateExitReadiness. */
  method AddTeamStructurePoints(score: int, teamStructure: string) returns (updated: int)
    ensures updated == score + Points(TeamStructurePoints, teamStructure)
  {
    updated := score;
    if teamStructure == "complete" { updated := updated + 10; }
    else if teamStructure == "partial" { updated := updated + 5; }
    else if teamStructure == "minimal" { updated := updated - 5; }
    else if teamStructure == "none" { updated := updated - 10; }
  }

  /** The customer retention step of calculateExitReadiness. */
  method AddRetentionPeriodPoints(score: int, retentionPeriod: string) returns (updated: int)
    ensures updated == score + Points(RetentionPeriodPoints, retentionPeriod)
  {
    updated := score;
    if retentionPeriod == "years" { updated := updated + 10; }
    else if retentionPeriod == "year" { updated := updated + 5; }
    else if retentionPeriod == "months" { updated := updated - 5; }
    else if retentionPeriod == "once" { updated := updated - 10; }
  }

  /** The growth rate step of calculateExitReadiness. */
  method AddGrowthRatePoints(score: int, growthRate: string) returns (updated: int)
    ensures updated == score + Points(GrowthRatePoints, growthRate)
  {
    updated := score;
    if growthRate == "high" { updated := updated + 15; }
    else if growthRate == "medium" { updated := updated + 10; }
    else if growthRate == "low" { updated := updated + 5; }
    else if growthRate == "flat" { updated := updated - 10; }
  }

  /** A higher recurring-revenue share, a higher automation level or a higher EBIT margin never
      lowers the score. */
  lemma ReadinessMonotone(data: CalculatorFormData, better: CalculatorFormData)
    requires better == data.(recurringRevenue := better.recurringRevenue,
                             automationLevel := better.automationLevel,
                             ebitMargin := better.ebitMargin)
    requires data.recurringRevenue <= better.recurringRevenue
    requires data.automationLevel <= better.automationLevel
    requires data.ebitMargin <= better.ebitMargin
    ensures ExitReadiness(data) <= ExitReadiness(better)
  {
    RoundMonotone(data.recurringRevenue / 10.0, better.recurringRevenue / 10.0);
    RoundMonotone(data.automationLevel / 10.0, better.automationLevel / 10.0);
    assert MarginPoints(data.ebitMargin) <= MarginPoints(better.ebitMargin);
    assert RawReadiness(data) <= RawReadiness(better);
  }

  /** A form whose every answer is outside the tables, with zero percentages and a margin between
      10 and 20, scores the base of 50. */
  lemma ReadinessBase(data: CalculatorFormData)
    requires data.businessModel !in BusinessModelPoints
    requires data.founderDependency !in FounderDependencyPoints
    requires data.decisionMaker !in DecisionMakerPoints
    requires data.processes !in ProcessesPoints
    requires data.teamStructure !in TeamStructurePoints
    requires data.retentionPeriod !in RetentionPeriodPoints
    requires data.growthRate !in GrowthRatePoints
    requires data.recurringRevenue == 0.0 && data.automationLevel == 0.0
    requires 10.0 <= data.ebitMargin <= 20.0
    ensures ExitReadiness(data) == 50
  {
    RoundOfInteger(0);
  }

  // ------------------------------------------------------------ valuation

  datatype Multipliers = Multipliers(low: real, high: real)

  /** The multiplier band of a readiness score: 80, 60 and 40 are the thresholds. */
  function BaseMultipliers(readinessScore: int): (r: Multipliers)
  {
    if readinessScore >= 80 then Multipliers(4.0, 5.0)
    else if readinessScore >= 60 then Multipliers(3.0, 4.0)
    else if readinessScore >= 40 then Multipliers(2.5, 3.5)
    else Multipliers(2.0, 3.0)
  }

  /** What the business model adds to the low and the high multiplier. */
  function ModelPremium(businessModel: string): (r: Multipliers)
  {
    if businessModel == "saas" then Multipliers(1.0, 1.5)
    else if businessModel == "ecommerce" then Multipliers(0.5, 0.75)
    else if businessModel == "digitalproduct" then Multipliers(0.5, 1.0)
    else Multipliers(0.0, 0.0)
  }

  function ValuationMultipliers(data: CalculatorFormData, readinessScore: int): (r: Multipliers)
  {
    var band := BaseMultipliers(readinessScore);
    var premium := ModelPremium(data.businessModel);
    Multipliers(band.low + premium.low, band.high + premium.high)
  }

  /** The yearly EBIT: the monthly revenue times twelve, times the margin in percent. */
  function Ebit(data: CalculatorFormData): (r: real)
  {
    data.revenueAmount * 12.0 * (data.ebitMargin / 100.0)
  }

  function Valued(ebit: real, multiplier: real): (r: int)
  {
    Round(ebit * multiplier)
  }

  /** The multiplier after optimisation: two more than the high one, at most 7. */
  function OptimizedMultiplier(high: real): (r: real)
  {
    Min(high + 2.0, 7.0)
  }

  /** `slice(0, n)`: the first n elements, or all of them when there are fewer. */
  function Take(s: seq<Bottleneck>, n: nat): (r: seq<Bottleneck>)
  {
    if n <= |s| then s[..n] else s
  }

  function ValuationFor(data: CalculatorFormData, readinessScore: int): (r: ValuationResult)
  {
    var m := ValuationMultipliers(data, readinessScore);
    var ebit := Ebit(data);
    var high := Valued(ebit, m.high);
    ValuationResult(Valued(ebit, m.low), high, Valued(ebit, OptimizedMultiplier(m.high)) - high,
                    Take(IdentifiedBottlenecks(data), 2))
  }

  /** calculateValuation: the multipliers reassigned by band and by business model. */
  method CalculateValuation(data: CalculatorFormData, readinessScore: int) returns (result: ValuationResult)
    ensures result == ValuationFor(data, readinessScore)
  {
    var baseMultiplierLow := 2.0;
    var baseMultiplierHigh := 3.0;

    if readinessScore >= 80 {
      baseMultiplierLow := 4.0;
      baseMultiplierHigh := 5.0;
    } else if readinessScore >= 60 {
      baseMultiplierLow := 3.0;
      baseMultiplierHigh := 4.0;
    } else if readinessScore >= 40 {
      baseMultiplierLow := 2.5;
      baseMultiplierHigh := 3.5;
    }

    if data.businessModel == "saas" {
      baseMultiplierLow := baseMultiplierLow + 1.0;
      baseMultiplierHigh := baseMultiplierHigh + 1.5;
    } else if data.businessModel == "ecommerce" {
      baseMultiplierLow := baseMultiplierLow + 0.5;
      baseMultiplierHigh := baseMultiplierHigh + 0.75;
    } else if data.businessModel == "digitalproduct" {
      baseMultiplierLow := baseMultiplierLow + 0.5;
      baseMultiplierHigh := baseMultiplierHigh + 1.0;
    }
    assert Multipliers(baseMultiplierLow, baseMultiplierHigh) == ValuationMultipliers(data, readinessScore);

    var ebit := Ebit(data);
    var valuationLow := Valued(ebit, baseMultiplierLow);
    var valuationHigh := Valued(ebit, baseMultiplierHigh);
    var optimizedMultiplier := Min(baseMultiplierHigh + 2.0, 7.0);
    var potentialIncrease := Valued(ebit, optimizedMultiplier) - valuationHigh;

    var bottlenecks := IdentifyBottlenecks(data, readinessScore);
    var count := if |bottlenecks| < 2 then |bottlenecks| else 2;
    result := ValuationResult(valuationLow, valuationHigh, potentialIncrease, bottlenecks[..count]);
  }

  /** The high multiplier is at least one above the low one, and both stay within 2 and 6.5. */
  lemma MultiplierBands(data: CalculatorFormData, readinessScore: int)
    ensures 2.0 <= ValuationMultipliers(data, readinessScore).low
    ensures ValuationMultipliers(data, readinessScore).low + 1.0 <= ValuationMultipliers(data, readinessScore).high
    ensures ValuationMultipliers(data, readinessScore).high <= 6.5
  {
  }

  /** The optimised multiplier exceeds the high one by at most 2 and is never below it. */
  lemma OptimizedMultiplierBounds(high: real)
    requires high <= 7.0
    ensures high <= OptimizedMultiplier(high) <= high + 2.0
    ensures OptimizedMultiplier(high) <= 7.0
    ensures high <= 5.0 ==> OptimizedMultiplier(high) == high + 2.0
  {
  }

  /** With a non-negative EBIT the range is ordered and the potential increase is not negative;
      with a negative EBIT both turn around. */
  lemma ValuationOrdered(data: CalculatorFormData, readinessScore: int)
    ensures Ebit(data) >= 0.0 ==>
      ValuationFor(data, readinessScore).valuationLow <= ValuationFor(data, readinessScore).valuationHigh
      && ValuationFor(data, readinessScore).potentialIncrease >= 0
    ensures Ebit(data) <= 0.0 ==>
      ValuationFor(data, readinessScore).valuationLow >= ValuationFor(data, readinessScore).valuationHigh
      && ValuationFor(data, readinessScore).potentialIncrease <= 0
  {
    var m := ValuationMultipliers(data, readinessScore);
    var e := Ebit(data);
    MultiplierBands(data, readinessScore);
    OptimizedMultiplierBounds(m.high);
    var optimized := OptimizedMultiplier(m.high);
    if e >= 0.0 {
      ValuedMonotone(e, m.low, m.high);
      ValuedMonotone(e, m.high, optimized);
    }
    if e <= 0.0 {
      ValuedAntitone(e, m.low, m.high);
      ValuedAntitone(e, m.high, optimized);
    }
  }

  /** A higher readiness score never lowers the range when the EBIT is not negative. */
  lemma ValuationMonotoneInReadiness(data: CalculatorFormData, lower: int, higher: int)
    requires lower <= higher
    requires Ebit(data) >= 0.0
    ensures ValuationFor(data, lower).valuationLow <= ValuationFor(data, higher).valuationLow
    ensures ValuationFor(data, lower).valuationHigh <= ValuationFor(data, higher).valuationHigh
  {
    var m1 := ValuationMultipliers(data, lower);
    var m2 := ValuationMultipliers(data, higher);
    assert m1.low <= m2.low && m1.high <= m2.high;
    ValuedMonotone(Ebit(data), m1.low, m2.low);
    ValuedMonotone(Ebit(data), m1.high, m2.high);
  }

  /** The main bottlenecks are at most two, a prefix of the sorted list, and if a high one is left
      out then every one shown is high. */
  lemma MainBottlenecks(data: CalculatorFormData, readinessScore: int)
    ensures |ValuationFor(data, readinessScore).mainBottlenecks| <= 2
    ensures |IdentifiedBottlenecks(data)| <= 2 ==>
      ValuationFor(data, readinessScore).mainBottlenecks == IdentifiedBottlenecks(data)
    ensures |IdentifiedBottlenecks(data)| > 2 ==>
      ValuationFor(data, readinessScore).mainBottlenecks == IdentifiedBottlenecks(data)[..2]
    ensures forall i, j :: 0 <= i < |ValuationFor(data, readinessScore).mainBottlenecks| <= j
                           && j < |IdentifiedBottlenecks(data)| && IdentifiedBottlenecks(data)[j].severity == High
                           ==> ValuationFor(data, readinessScore).mainBottlenecks[i].severity == High
  {
    var all := IdentifiedBottlenecks(data);
    var main := ValuationFor(data, readinessScore).mainBottlenecks;
    HighsFirst(Found(data));
    assert forall i :: 0 <= i < |main| ==> main[i] == all[i];
  }

  lemma ValuedMonotone(ebit: real, x: real, y: real)
    requires 0.0 <= ebit && x <= y
    ensures Valued(ebit, x) <= Valued(ebit, y)
  {
    ScaleLe(ebit, x, y);
    RoundMonotone(ebit * x, ebit * y);
  }

  lemma ValuedAntitone(ebit: real, x: real, y: real)
    requires ebit <= 0.0 && x <= y
    ensures Valued(ebit, y) <= Valued(ebit, x)
  {
    ScaleLe(-ebit, x, y);
    assert (-ebit) * x == -(ebit * x) && (-ebit) * y == -(ebit * y);
    RoundMonotone(ebit * y, ebit * x);
  }

  // ------------------------------------------------------------ bottlenecks

  /** The seven checks of identifyBottlenecks, in the order they run. */
  datatype Check = FounderDependency | RecurringRevenue | Processes | TeamStructure | GrowthRate
                 | Retention | Profitability

  /** When a check reports its bottleneck. */
  predicate Applies(c: Check, data: CalculatorFormData)
  {
    match c
    case FounderDependency => data.founderDependency == "daily" || data.founderDependency == "weekly"
    case RecurringRevenue => data.recurringRevenue < 50.0
    case Processes => data.processes == "minimal" || data.processes == "no"
    case TeamStructure => data.teamStructure == "minimal" || data.teamStructure == "none"
    case GrowthRate => data.growthRate == "flat"
    case Retention => data.retentionPeriod == "once" || data.retentionPeriod == "months"
    case Profitability => data.ebitMargin < 15.0
  }

  /** The severity a check gives its bottleneck. */
  function SeverityOf(c: Check, data: CalculatorFormData): (r: Severity)
  {
    match c
    case FounderDependency => High
    case RecurringRevenue => if data.recurringRevenue < 30.0 then High else Medium
    case Processes => if data.processes == "no" then High else Medium
    case TeamStructure => if data.teamStructure == "none" then High else Medium
    case GrowthRate => High
    case Retention => if data.retentionPeriod == "once" then High else Medium
    case Profitability => if data.ebitMargin < 10.0 then High else Medium
  }

  /** What one check pushes: its bottleneck, or nothing. */
  function Flagged(c: Check, data: CalculatorFormData): (r: seq<Bottleneck>)
  {
    if Applies(c, data) then [Bottleneck(c, SeverityOf(c, data))] else []
  }

  /** The bottlenecks in the order they are pushed. */
  function Found(data: CalculatorFormData): (r: seq<Bottleneck>)
  {
    Flagged(FounderDependency, data) + Flagged(RecurringRevenue, data) + Flagged(Processes, data)
    + Flagged(TeamStructure, data) + Flagged(GrowthRate, data) + Flagged(Retention, data)
    + Flagged(Profitability, data)
  }

  /** The bottlenecks as identifyBottlenecks returns them: sorted by severity, high first. */
  function IdentifiedBottlenecks(data: CalculatorFormData): (r: seq<Bottleneck>)
  {
    BySeverity(Found(data))
  }

  /** identifyBottlenecks: every check that applies pushes its bottleneck, then the list is
      sorted in place. */
  method IdentifyBottlenecks(data: CalculatorFormData, readinessScore: int) returns (sorted: seq<Bottleneck>)
    ensures sorted == IdentifiedBottlenecks(data)
  {
    var bottlenecks: seq<Bottleneck> := [];
    bottlenecks := PushFounderDependency(bottlenecks, data);
    assert bottlenecks == Flagged(FounderDependency, data);
    bottlenecks := PushRecurringRevenue(bottlenecks, data);
    bottlenecks := PushProcesses(bottlenecks, data);
    bottlenecks := PushTeamStructure(bottlenecks, data);
    bottlenecks := PushGrowthRate(bottlenecks, data);
    bottlenecks := PushRetention(bottlenecks, data);
    bottlenecks := PushProfitability(bottlenecks, data);
    assert bottlenecks == Found(data);

    var a := new Bottleneck[|bottlenecks|](i requires 0 <= i < |bottlenecks| => bottlenecks[i]);
    assert a[..] == bottlenecks;
    SortBySeverity(a);
    sorted := a[..];
  }

  /** The founder dependency check of identifyBottlenecks. */
  method PushFounderDependency(bottlenecks: seq<Bottleneck>, data: CalculatorFormData) returns (pushed: seq<Bottleneck>)
    ensures pushed == bottlenecks + Flagged(FounderDependency, data)
  {
    pushed := bottlenecks;
    if data.founderDependency == "daily" || data.founderDependency == "weekly" {
      pushed := pushed + [Bottleneck(FounderDependency, High)];
    }
  }

  /** The recurring revenue check of identifyBottlenecks. */
  method PushRecurringRevenue(bottlenecks: seq<Bottleneck>, data: CalculatorFormData) returns (pushed: seq<Bottleneck>)
    ensures pushed == bottlenecks + Flagged(RecurringRevenue, data)
  {
    pushed := bottlenecks;
    if data.recurringRevenue < 50.0 {
      pushed := pushed + [Bottleneck(RecurringRevenue, if data.recurringRevenue < 30.0 then High else Medium)];
    }
  }

  /** The process documentation check of identifyBottlenecks. */
  method PushProcesses(bottlenecks: seq<Bottleneck>, data: CalculatorFormData) returns (pushed: seq<Bottleneck>)
    ensures pushed == bottlenecks + Flagged(Processes, data)
  {
    pushed := bottlenecks;
    if data.processes == "minimal" || data.processes == "no" {
      pushed := pushed + [Bottleneck(Processes, if data.processes == "no" then High else Medium)];
    }
  }

  /** The team structure check of identifyBottlenecks. */
  method PushTeamStructure(bottlenecks: seq<Bottleneck>, data: CalculatorFormData) returns (pushed: seq<Bottleneck>)
    ensures pushed == bottlenecks + Flagged(TeamStructure, data)
  {
    pushed := bottlenecks;
    if data.teamStructure == "minimal" || data.teamStructure == "none" {
      pushed := pushed + [Bottleneck(TeamStructure, if data.teamStructure == "none" then High else Medium)];
    }
  }

  /** The growth rate check of identifyBottlenecks. */
  method PushGrowthRate(bottlenecks: seq<Bottleneck>, data: CalculatorFormData) returns (pushed: seq<Bottleneck>)
    ensures pushed == bottlenecks + Flagged(GrowthRate, data)
  {
    pushed := bottlenecks;
    if data.growthRate == "flat" {
      pushed := pushed + [Bottleneck(GrowthRate, High)];
    }
  }

  /** The customer retention check of identifyBottlenecks. */
  method PushRetention(bottlenecks: seq<Bottleneck>, data: CalculatorFormData) returns (pushed: seq<Bottleneck>)
    ensures pushed == bottlenecks + Flagged(Retention, data)
  {
    pushed := bottlenecks;
    if data.retentionPeriod == "once" || data.retentionPeriod == "months" {
      pushed := pushed + [Bottleneck(Retention, if data.retentionPeriod == "once" then High else Medium)];
    }
  }

  /** The EBIT margin check of identifyBottlenecks. */
  method PushProfitability(bottlenecks: seq<Bottleneck>, data: CalculatorFormData) returns (pushed: seq<Bottleneck>)
    ensures pushed == bottlenecks + Flagged(Profitability, data)
  {
    pushed := bottlenecks;
    if data.ebitMargin < 15.0 {
      pushed := pushed + [Bottleneck(Profitability, if data.ebitMargin < 10.0 then High else Medium)];
    }
  }

  /** The comparator handed to `sort`: high before medium, equal otherwise. */
  function CompareSeverity(a: Bottleneck, b: Bottleneck): (r: int)
  {
    if a.severity == High && b.severity != High then -1
    else if a.severity != High && b.severity == High then 1
    else 0
  }

  /** `Array.prototype.sort` with CompareSeverity, as a stable insertion sort. */
  method SortBySeverity(a: array<Bottleneck>)
    modifies a
    ensures a[..] == BySeverity(old(a[..]))
  {
    ghost var input := a[..];
    var i := 0;
    while i < a.Length
      invariant 0 <= i <= a.Length
      invariant a[..i] == BySeverity(input[..i])
      invariant a[i..] == input[i..]
    {
      ghost var p := input[..i];
      ghost var x := a[i];
      assert input[..i + 1] == p + [x];
      SeverityOfParts(p);
      MoveIntoPlace(a, i, BySeverity(p), |Highs(p)|);
      if x.severity == High {
        InsertHigh(p, x);
      } else {
        InsertMedium(p, x);
      }
      assert a[i + 1..] == input[i + 1..] by {
        assert input[i + 1..] == input[i..][1..];
      }
      i := i + 1;
    }
    assert a[..] == a[..a.Length];
    assert input == input[..a.Length];
  }

  /** One step of the insertion sort: a[i] moves left past every element the comparator puts
      after it, that is past the medium ones when it is high. */
  method MoveIntoPlace(a: array<Bottleneck>, i: int, ghost sortedPrefix: seq<Bottleneck>, ghost h: int)
    requires 0 <= h <= i < a.Length
    requires a[..i] == sortedPrefix
    requires forall k :: 0 <= k < h ==> sortedPrefix[k].severity == High
    requires forall k :: h <= k < i ==> sortedPrefix[k].severity == Medium
    modifies a
    ensures old(a[i]).severity == High ==> a[..i + 1] == sortedPrefix[..h] + [old(a[i])] + sortedPrefix[h..]
    ensures old(a[i]).severity == Medium ==> a[..i + 1] == sortedPrefix + [old(a[i])]
    ensures a[i + 1..] == old(a[i + 1..])
  {
    var x := a[i];
    var j := i;
    while j > 0 && CompareSeverity(a[j - 1], x) > 0
      invariant h <= j <= i
      invariant x.severity == Medium ==> j == i
      invariant forall k :: 0 <= k < j ==> a[k] == sortedPrefix[k]
      invariant a[j] == x
      invariant forall k :: j < k <= i ==> a[k] == sortedPrefix[k - 1]
      invariant forall k :: i < k < a.Length ==> a[k] == old(a[k])
    {
      a[j] := a[j - 1];
      a[j - 1] := x;
      j := j - 1;
    }
    if x.severity == High {
      assert j == h;
      ghost var placed := sortedPrefix[..h] + [x] + sortedPrefix[h..];
      assert forall k :: 0 <= k <= i ==> a[k] == placed[k];
      assert a[..i + 1] == placed;
    } else {
      assert forall k :: 0 <= k < i ==> a[k] == sortedPrefix[k];
      assert a[..i + 1] == sortedPrefix + [x];
    }
    assert a[i + 1..] == old(a[i + 1..]);
  }

  // ------------------------------------------------------------ the order by severity

  /** The elements that satisfy keep, in their order. */
  function Filter(s: seq<Bottleneck>, keep: Bottleneck -> bool): (r: seq<Bottleneck>)
  {
    if s == [] then [] else Filter(s[..|s| - 1], keep) + (if keep(s[|s| - 1]) then [s[|s| - 1]] else [])
  }

  predicate IsHigh(b: Bottleneck)
  {
    b.severity == High
  }

  predicate IsMedium(b: Bottleneck)
  {
    b.severity == Medium
  }

  function Highs(s: seq<Bottleneck>): (r: seq<Bottleneck>)
  {
    Filter(s, IsHigh)
  }

  function Mediums(s: seq<Bottleneck>): (r: seq<Bottleneck>)
  {
    Filter(s, IsMedium)
  }

  /** The stable order by severity: the high ones, then the medium ones, each in input order. */
  function BySeverity(s: seq<Bottleneck>): (r: seq<Bottleneck>)
  {
    Highs(s) + Mediums(s)
  }

  /** The test "raised by this check", as a function value. */
  function RaisedBy(c: Check): (r: Bottleneck -> bool)
  {
    (b: Bottleneck) => b.check == c
  }

  /** The bottlenecks a given check raised. */
  function OfCheck(s: seq<Bottleneck>, c: Check): (r: seq<Bottleneck>)
  {
    Filter(s, RaisedBy(c))
  }

  lemma {:induction false} FilterAppend(s: seq<Bottleneck>, t: seq<Bottleneck>, keep: Bottleneck -> bool)
    ensures Filter(s + t, keep) == Filter(s, keep) + Filter(t, keep)
    decreases |t|
  {
    if t == [] {
      assert s + t == s;
    } else {
      var init := t[..|t| - 1];
      assert (s + t)[..|s + t| - 1] == s + init;
      assert (s + t)[|s + t| - 1] == t[|t| - 1];
      FilterAppend(s, init, keep);
    }
  }

  lemma FilterSingle(x: Bottleneck, keep: Bottleneck -> bool)
    ensures Filter([x], keep) == if keep(x) then [x] else []
  {
    assert [x][..0] == [];
  }

  lemma {:induction false} FilterMembership(s: seq<Bottleneck>, keep: Bottleneck -> bool)
    ensures forall b :: b in Filter(s, keep) <==> b in s && keep(b)
    decreases |s|
  {
    if s != [] {
      var init := s[..|s| - 1];
      FilterMembership(init, keep);
      assert s == init + [s[|s| - 1]];
    }
  }

  lemma {:induction false} FilterKeepsAll(s: seq<Bottleneck>, keep: Bottleneck -> bool)
    requires forall i :: 0 <= i < |s| ==> keep(s[i])
    ensures Filter(s, keep) == s
    decreases |s|
  {
    if s != [] {
      FilterKeepsAll(s[..|s| - 1], keep);
    }
  }

  lemma {:induction false} FilterKeepsNone(s: seq<Bottleneck>, keep: Bottleneck -> bool)
    requires forall i :: 0 <= i < |s| ==> !keep(s[i])
    ensures Filter(s, keep) == []
    decreases |s|
  {
    if s != [] {
      FilterKeepsNone(s[..|s| - 1], keep);
    }
  }

  lemma {:induction false} FilterCommutes(s: seq<Bottleneck>, p: Bottleneck -> bool, q: Bottleneck -> bool)
    ensures Filter(Filter(s, p), q) == Filter(Filter(s, q), p)
    decreases |s|
  {
    if s != [] {
      var init := s[..|s| - 1];
      var x := s[|s| - 1];
      var last := [x];
      assert last[..0] == [];
      FilterCommutes(init, p, q);
      FilterAppend(Filter(init, p), if p(x) then last else [], q);
      FilterAppend(Filter(init, q), if q(x) then last else [], p);
    }
  }

  /** Every element of Highs is high and every element of Mediums is medium, and the list splits
      into the two. */
  lemma SeverityOfParts(s: seq<Bottleneck>)
    ensures forall i :: 0 <= i < |Highs(s)| ==> Highs(s)[i].severity == High
    ensures forall i :: 0 <= i < |Mediums(s)| ==> Mediums(s)[i].severity == Medium
    ensures |Highs(s)| + |Mediums(s)| == |s|
  {
    FilterMembership(s, IsHigh);
    FilterMembership(s, IsMedium);
    assert forall i :: 0 <= i < |Highs(s)| ==> Highs(s)[i] in Highs(s);
    assert forall i :: 0 <= i < |Mediums(s)| ==> Mediums(s)[i] in Mediums(s);
    SplitLength(s);
  }

  lemma {:induction false} SplitLength(s: seq<Bottleneck>)
    ensures |Highs(s)| + |Mediums(s)| == |s|
    decreases |s|
  {
    if s != [] {
      SplitLength(s[..|s| - 1]);
    }
  }

  /** Inserting a high bottleneck: it goes behind the high ones and in front of the medium ones. */
  lemma InsertHigh(p: seq<Bottleneck>, x: Bottleneck)
    requires x.severity == High
    ensures BySeverity(p + [x]) == BySeverity(p)[..|Highs(p)|] + [x] + BySeverity(p)[|Highs(p)|..]
  {
    assert (p + [x])[..|p|] == p;
    assert BySeverity(p)[..|Highs(p)|] == Highs(p);
    assert BySeverity(p)[|Highs(p)|..] == Mediums(p);
  }

  /** Inserting a medium bottleneck: it goes last. */
  lemma InsertMedium(p: seq<Bottleneck>, x: Bottleneck)
    requires x.severity == Medium
    ensures BySeverity(p + [x]) == BySeverity(p) + [x]
  {
    assert (p + [x])[..|p|] == p;
  }

  /** The sorted list is a permutation of the input. */
  lemma {:induction false} BySeverityPermutation(s: seq<Bottleneck>)
    ensures multiset(BySeverity(s)) == multiset(s)
    decreases |s|
  {
    if s != [] {
      var init := s[..|s| - 1];
      var x := s[|s| - 1];
      assert s == init + [x];
      BySeverityPermutation(init);
      if x.severity == High {
        InsertHigh(init, x);
        var k := |Highs(init)|;
        var b := BySeverity(init);
        assert b == b[..k] + b[k..];
        assert multiset(b[..k] + [x] + b[k..]) == multiset(b) + multiset{x};
      } else {
        InsertMedium(init, x);
      }
    }
  }

  /** No high bottleneck comes after a medium one. */
  lemma HighsFirst(s: seq<Bottleneck>)
    ensures forall i, j :: 0 <= i < j < |BySeverity(s)| && BySeverity(s)[j].severity == High
                           ==> BySeverity(s)[i].severity == High
  {
    SeverityOfParts(s);
  }

  /** The sort is stable: the high ones keep their order, and so do the medium ones. */
  lemma BySeverityStable(s: seq<Bottleneck>)
    ensures Highs(BySeverity(s)) == Highs(s)
    ensures Mediums(BySeverity(s)) == Mediums(s)
  {
    SeverityOfParts(s);
    FilterAppend(Highs(s), Mediums(s), IsHigh);
    FilterAppend(Highs(s), Mediums(s), IsMedium);
    FilterKeepsAll(Highs(s), IsHigh);
    FilterKeepsNone(Mediums(s), IsHigh);
    FilterKeepsNone(Highs(s), IsMedium);
    FilterKeepsAll(Mediums(s), IsMedium);
  }

  /** Sorting a sorted list changes nothing. */
  lemma BySeverityIdempotent(s: seq<Bottleneck>)
    ensures BySeverity(BySeverity(s)) == BySeverity(s)
  {
    BySeverityStable(s);
  }

  /** Picking the bottlenecks of one check commutes with the sort. */
  lemma OfCheckOfSorted(s: seq<Bottleneck>, c: Check)
    ensures OfCheck(BySeverity(s), c) == BySeverity(OfCheck(s, c))
  {
    var t := RaisedBy(c);
    FilterAppend(Highs(s), Mediums(s), t);
    FilterCommutes(s, IsHigh, t);
    FilterCommutes(s, IsMedium, t);
  }

  lemma SortedShort(e: seq<Bottleneck>)
    requires |e| <= 1
    ensures BySeverity(e) == e
  {
    if |e| == 1 {
      assert e == [e[0]];
      FilterSingle(e[0], IsHigh);
      FilterSingle(e[0], IsMedium);
    }
  }

  lemma FlaggedOfCheck(q: Check, c: Check, data: CalculatorFormData)
    ensures OfCheck(Flagged(q, data), c) == if q == c then Flagged(c, data) else []
  {
    FilterSingle(Bottleneck(q, SeverityOf(q, data)), RaisedBy(c));
  }

  /** Before the sort, the bottlenecks a check raised are what that check pushed. */
  lemma FoundOfCheck(data: CalculatorFormData, c: Check)
    ensures OfCheck(Found(data), c) == Flagged(c, data)
  {
    var f1, f2, f3, f4 := Flagged(FounderDependency, data), Flagged(RecurringRevenue, data),
                          Flagged(Processes, data), Flagged(TeamStructure, data);
    var f5, f6, f7 := Flagged(GrowthRate, data), Flagged(Retention, data), Flagged(Profitability, data);
    var t := RaisedBy(c);
    FilterAppend(f1 + f2 + f3 + f4 + f5 + f6, f7, t);
    FilterAppend(f1 + f2 + f3 + f4 + f5, f6, t);
    FilterAppend(f1 + f2 + f3 + f4, f5, t);
    FilterAppend(f1 + f2 + f3, f4, t);
    FilterAppend(f1 + f2, f3, t);
    FilterAppend(f1, f2, t);
    var o1, o2, o3, o4 := OfCheck(f1, c), OfCheck(f2, c), OfCheck(f3, c), OfCheck(f4, c);
    var o5, o6, o7 := OfCheck(f5, c), OfCheck(f6, c), OfCheck(f7, c);
    assert OfCheck(Found(data), c) == o1 + o2 + o3 + o4 + o5 + o6 + o7;
    FlaggedOfCheck(FounderDependency, c, data);
    FlaggedOfCheck(RecurringRevenue, c, data);
    FlaggedOfCheck(Processes, c, data);
    FlaggedOfCheck(TeamStructure, c, data);
    FlaggedOfCheck(GrowthRate, c, data);
    FlaggedOfCheck(Retention, c, data);
    FlaggedOfCheck(Profitability, c, data);
    match c {
      case FounderDependency =>
        assert o2 == [] && o3 == [] && o4 == [] && o5 == [] && o6 == [] && o7 == [];
        assert o1 + o2 + o3 + o4 + o5 + o6 + o7 == o1;
      case RecurringRevenue =>
        assert o1 == [] && o3 == [] && o4 == [] && o5 == [] && o6 == [] && o7 == [];
        assert o1 + o2 + o3 + o4 + o5 + o6 + o7 == o2;
      case Processes =>
        assert o1 == [] && o2 == [] && o4 == [] && o5 == [] && o6 == [] && o7 == [];
        assert o1 + o2 + o3 + o4 + o5 + o6 + o7 == o3;
      case TeamStructure =>
        assert o1 == [] && o2 == [] && o3 == [] && o5 == [] && o6 == [] && o7 == [];
        assert o1 + o2 + o3 + o4 + o5 + o6 + o7 == o4;
      case GrowthRate =>
        assert o1 == [] && o2 == [] && o3 == [] && o4 == [] && o6 == [] && o7 == [];
        assert o1 + o2 + o3 + o4 + o5 + o6 + o7 == o5;
      case Retention =>
        assert o1 == [] && o2 == [] && o3 == [] && o4 == [] && o5 == [] && o7 == [];
        assert o1 + o2 + o3 + o4 + o5 + o6 + o7 == o6;
      case Profitability =>
        assert o1 == [] && o2 == [] && o3 == [] && o4 == [] && o5 == [] && o6 == [];
        assert o1 + o2 + o3 + o4 + o5 + o6 + o7 == o7;
    }
  }

  /** Each check reports exactly what it finds: the bottlenecks a check raised are its own
      bottleneck, with its severity, when its condition holds, and none otherwise. */
  lemma BottleneckReported(data: CalculatorFormData, c: Check)
    ensures OfCheck(IdentifiedBottlenecks(data), c) == Flagged(c, data)
    ensures (exists b :: b in IdentifiedBottlenecks(data) && b.check == c) <==> Applies(c, data)
  {
    FoundOfCheck(data, c);
    OfCheckOfSorted(Found(data), c);
    SortedShort(Flagged(c, data));
    FilterMembership(IdentifiedBottlenecks(data), RaisedBy(c));
    if Applies(c, data) {
      assert Bottleneck(c, SeverityOf(c, data)) in OfCheck(IdentifiedBottlenecks(data), c);
    }
  }

  /** A recurring-revenue share below 50 yields exactly one entry for it, high below 30 and
      medium otherwise; a share of 50 or more yields none. */
  lemma RecurringRevenueBottleneck(data: CalculatorFormData)
    ensures data.recurringRevenue < 50.0 ==>
      OfCheck(IdentifiedBottlenecks(data), RecurringRevenue)
      == [Bottleneck(RecurringRevenue, if data.recurringRevenue < 30.0 then High else Medium)]
    ensures data.recurringRevenue >= 50.0 ==> OfCheck(IdentifiedBottlenecks(data), RecurringRevenue) == []
  {
    BottleneckReported(data, RecurringRevenue);
  }

  /** The titles tell the checks apart, so a bottleneck's title names the check that raised it. */
  lemma TitlesDistinct(a: Bottleneck, b: Bottleneck)
    ensures a.Title() == b.Title() <==> a.check == b.check
  {
    if a.check != b.check {
      TitleShape(a);
      TitleShape(b);
    }
  }

  /** The first letter and the length of each title. */
  lemma TitleShape(b: Bottleneck)
    ensures b.check == FounderDependency ==> b.Title()[0] == 'O' && |b.Title()| == 22
    ensures b.check == RecurringRevenue ==> b.Title()[0] == 'F' && |b.Title()| == 40
    ensures b.check == Processes ==> b.Title()[0] == 'M'
    ensures b.check == TeamStructure ==> b.Title()[0] == 'F' && |b.Title()| == 22
    ensures b.check == GrowthRate ==> b.Title()[0] == 'S'
    ensures b.check == Retention ==> b.Title()[0] == 'G'
    ensures b.check == Profitability ==> b.Title()[0] == 'N'
  {
  }

}
