# exitcheck.de: a Dafny model of the scoring, valuation and storage core

exitcheck.de helps owners of small businesses judge how ready the business is for a sale,
and what it might be worth. This project models the computations behind those answers and
proves properties about them.

- **Standard questionnaire score** (`ScoreCalculator`, server/utils/scoreCalculator.ts).
  - Every answered question adds its sub-score, times its weight. The sub-score is meant to lie
    between 0 and 5, but some answers fall outside that range (see below).
  - The total becomes a readiness percentage.
  - The percentage picks a label and a comment from the configured score ranges.
  - The percentage and an urgency tag from the answers pick a lead segment: hot, warm, cold or nurture.
  - Multi-choice answers collect motivation tags.
  - The EBITDA and an industry multiple give a valuation range.
  - The method is a loop over the questions. It is proved against a fold (`Totals`) and the
    functions built on it.
- **Expert ("Experto") multiplier valuation** (`ExpertValuation`, server/routes.ts).
  - Normalised EBIT = the mean of three yearly profits plus the executive salary.
  - That EBIT is valued at the industry multiplier, adjusted by the summed quality factors.
  - Debt is subtracted and non-operational assets are added.
  - The result is rounded to whole thousands.
  - The model also covers the field guard of the calculation endpoint.
- **Quick calculator** (`CalculationUtils`, lib/calculationUtils.ts).
  - Exit readiness: 50 points plus fixed points per answer, clamped to 0–100.
  - Valuation range: multiplier bands by readiness, plus a business-model premium.
  - Bottlenecks: seven checks, sorted so that high-severity ones come first.
  - The two main bottlenecks are reported.
  - The readiness and valuation code is imperative Dafny, proved against specification functions.
  - The sort is an insertion sort on an array.
- **In-memory storage** (`Storage`, server/storage.ts).
  - A class with three maps and one id counter per map.
  - Calculator results, expert results and sales leads.
  - It proves that ids count 1, 2, 3… per table, that saving leaves the other tables alone,
    that a save is read back unchanged, and that marking a lead as contacted changes only that flag.
- **JavaScript semantics the code relies on** (`JsValues`).
  - `Math.round`, `parseInt`, `Number()` on strings, `split`, truthiness, and property lookup on parsed JSON.

Numbers are exact reals. NaN and the infinities are explicit tags where the code can meet them.
The question document and the expert multiplier table are loaded from files in the code; here they are parameters.
`Math.log10` is a function parameter too.

Where the product's stated behaviour or the code's own comments and the code disagree, the model
follows the code:

- The readiness score is not always within 0–100, although the comment at
  server/utils/scoreCalculator.ts:140 calls it a percentage "(0-100%)". A number answer below 1000 scores below 0.
  A single-choice value above the largest option scores above 5, and so does a scale value
  outside its bounds. `PercentageInRange` therefore assumes positive weights and sub-scores in [0, 5].
- The valuation figures are not always non-negative. `ValuationOrdering` shows they are when the
  EBITDA is positive, `base <= premium` and the percentage is within 0–100.
- A single-choice answer can be an object. The answer schema (shared/schema.ts:85-92) admits
  only strings, numbers, booleans and arrays of strings, but /api/questionnaire/submit
  (server/routes.ts:377) hands the submitted answers to `calculateScore` without that schema.
  An object answer is therefore the `Record` variant: its `value` counts on a single-choice
  question, and an object without one counts as 1. On a number question an object is NaN,
  which `Scorable` excludes.
- The multiplier lookup `multipliers[industry] || multipliers.default` also falls back when an
  industry is listed with 0.
- The quick calculator's form type in lib/types.ts has no `ebitMargin` and no `revenueAmount`.
  The fields of `CalculatorFormData` are the ones calculationUtils.ts reads.

## Model

| member | source | states |
|---|---|---|
| JsValues.Round | server/utils/scoreCalculator.ts:141 | Math.round: the result is within half a unit of x, with a half rounded up |
| JsValues.OrDefault | server/utils/scoreCalculator.ts:103-104 | `x \|\| d`: undefined and 0 both give the default, any other value is kept, so the result is 0 only if the default is 0 |
| JsValues.IntOrDefault | server/utils/scoreCalculator.ts:186-187 | `parseInt(..) \|\| d`: NaN and 0 both give the default, any other parse result is kept, so the result is 0 only if the default is 0 |
| JsValues.ParseIntOfSpelling | server/utils/scoreCalculator.ts:77 | parseInt skips leading white space, reads an integer's decimal spelling back as that integer and ignores what follows |
| JsValues.ParseIntOfIntToString | server/utils/scoreCalculator.ts:186 | parseInt of an integer's decimal spelling is that integer |
| JsValues.StringToNumberOfIntToString | server/utils/scoreCalculator.ts:148 | Number() of an integer's decimal spelling is that integer |
| JsValues.SplitTwo | server/utils/scoreCalculator.ts:148 | splitting "x-y" on '-', when neither part holds a '-', gives exactly [x, y] |
| JsValues.NumberKeyReadsBack | server/utils/scoreCalculator.ts:83 | the key spelled from a choice value reads back as that value |
| JsValues.LookupSpec | server/routes.ts:129-136 | a property lookup on a parsed object finds a field of that name, or there is none |
| ScoreCalculator.CalculateScore | server/utils/scoreCalculator.ts:37-226 | the score is the rounded percentage of the totals; the motivation tags have no repeats; label and comment come from the first matching range; the segment comes from the table; the valuation comes from the EBITDA estimate; the total weight is non-zero |
| ScoreCalculator.Accumulate | server/utils/scoreCalculator.ts:42-138 | the loop over the questions ends with the fold `Totals` over all questions |
| ScoreCalculator.AddAnswer | server/utils/scoreCalculator.ts:54-137 | an answered question adds its weighted sub-score and its weight |
| ScoreCalculator.ScoreAnswer | server/utils/scoreCalculator.ts:58-137 | the switch on the question type gives the sub-score, the urgency tag and the motivation tags of one answer |
| ScoreCalculator.NumberAnswerScore | server/utils/scoreCalculator.ts:62-67 | 0 up to 0, otherwise log10(n / 10000) + 1 capped at 5 |
| ScoreCalculator.ChoiceAnswerScore | server/utils/scoreCalculator.ts:72-90 | the value (an object's `value`, a string's parseInt or 1, a number itself, otherwise 1) over the largest option value (4 without options), times 5; the urgency entry of the value's spelling overwrites the tag |
| ScoreCalculator.ScaleAnswerScore | server/utils/scoreCalculator.ts:95-114 | the value's position between scale_min (default 1) and scale_max (default 5), times 5, mirrored when inverted |
| ScoreCalculator.CollectTags | server/utils/scoreCalculator.ts:119-125 | each selected option's non-empty tag is appended unless already present |
| ScoreCalculator.FindScoreRange | server/utils/scoreCalculator.ts:144-154 | label and comment of the first range containing the percentage, both empty when none does |
| ScoreCalculator.Classify | server/utils/scoreCalculator.ts:157-182 | the segment equals the segment table for the percentage and urgency |
| ScoreCalculator.EstimateValuation | server/utils/scoreCalculator.ts:185-212 | the valuation equals the EBITDA-and-multiples specification |
| ScoreCalculator.WeightDefault | server/utils/scoreCalculator.ts:54 | a missing or zero weight counts as 1, any other weight as itself |
| ScoreCalculator.MaxOptionValue | server/utils/scoreCalculator.ts:88 | the result is an option value, and no option value exceeds it |
| ScoreCalculator.StepWeight | server/utils/scoreCalculator.ts:52-55 | an unanswered question changes nothing; an answered one adds exactly its weight |
| ScoreCalculator.TotalWeightIsAnsweredWeight | server/utils/scoreCalculator.ts:48-55 | totalWeight is the sum of the weights of exactly the answered questions |
| ScoreCalculator.OmittedAnswerWeight | server/utils/scoreCalculator.ts:52-55 | withdrawing one question's answer lowers totalWeight by exactly that question's weight |
| ScoreCalculator.AnsweredWeightIgnores | server/utils/scoreCalculator.ts:48-55 | answers to ids that no question has do not change totalWeight |
| ScoreCalculator.AddAllAppend | server/utils/scoreCalculator.ts:120-125 | collecting the tags of two lists one after the other is collecting the tags of their concatenation |
| ScoreCalculator.AddAllProperties | server/utils/scoreCalculator.ts:120-125 | collecting keeps the old tags as a prefix, adds exactly the new ones, and never repeats one |
| ScoreCalculator.TotalsTags | server/utils/scoreCalculator.ts:117-125 | the motivation tags are all selected tags with repeats removed |
| ScoreCalculator.MotivationTagsAreDistinct | server/utils/scoreCalculator.ts:122-124 | the motivation tags contain no repeats |
| ScoreCalculator.FirstSeenOrder | server/utils/scoreCalculator.ts:122-124 | removing repeats keeps the order of first appearance |
| ScoreCalculator.SelectedTagsFromTable | server/utils/scoreCalculator.ts:121-122 | a question contributes only non-empty values of its own tag table |
| ScoreCalculator.AllSelectedTagsFromTables | server/utils/scoreCalculator.ts:117-125 | every selected tag comes from the table of some answered multi-choice question |
| ScoreCalculator.MotivationTagsSpec | server/utils/scoreCalculator.ts:117-125 | the motivation tags: no repeats, exactly the selected tags, in the order they are first seen |
| ScoreCalculator.UrgencyIsLastTag | server/utils/scoreCalculator.ts:45-85 | the urgency starts as "nurture" and the last tag-setting answer wins |
| ScoreCalculator.LastUrgencySpec | server/utils/scoreCalculator.ts:83-85 | there is no last urgency tag iff no question sets one; otherwise it is the tag of the last question that does |
| ScoreCalculator.UrgencyLastWriteWins | server/utils/scoreCalculator.ts:45-85 | the urgency is "nurture" when no answer sets a tag, and otherwise the tag of the last answer that sets one |
| ScoreCalculator.NumberSubScore | server/utils/scoreCalculator.ts:62-67 | a number answer at or below 0 scores 0, and none scores above 5 |
| ScoreCalculator.NumberAnchors | server/utils/scoreCalculator.ts:65 | given log10(1) = 0, 10000 scores 1 and 0 scores 0 |
| ScoreCalculator.ScaleSubScoreInRange | server/utils/scoreCalculator.ts:103-114 | a scale answer within its bounds scores within [0, 5], inverted or not |
| ScoreCalculator.ScaleSubScoreMonotone | server/utils/scoreCalculator.ts:103-114 | raising a scale answer never lowers its sub-score, and never raises it when the scale is inverted |
| ScoreCalculator.TotalsScaleMonotone | server/utils/scoreCalculator.ts:48-138 | replacing one scale answer by a more favourable one (higher, or lower on an inverted scale) keeps totalWeight and never lowers totalScore |
| ScoreCalculator.StepScaleMonotone | server/utils/scoreCalculator.ts:49-114 | one pass of the question loop keeps that relation between the two tallies |
| ScoreCalculator.ReadinessScaleMonotone | server/utils/scoreCalculator.ts:93-141 | raising a non-inverted scale answer (lowering an inverted one) never lowers the readiness score |
| ScoreCalculator.TotalsBounded | server/utils/scoreCalculator.ts:48-138 | with positive weights and sub-scores in [0, 5], 0 <= totalScore <= 5 * totalWeight |
| ScoreCalculator.PercentageInRange | server/utils/scoreCalculator.ts:141 | with positive weights and sub-scores in [0, 5], the readiness score is within 0–100 |
| ScoreCalculator.FirstMatchIsFirst | server/utils/scoreCalculator.ts:147-154 | the range lookup returns the first range in declared order that contains the percentage, and nothing when none does |
| ScoreCalculator.FirstMatchSound | server/utils/scoreCalculator.ts:147-154 | a match contains the percentage and no earlier range does; no match means that no range contains it |
| ScoreCalculator.RangeKeyBounds | server/utils/scoreCalculator.ts:148-149 | a key spelled "min-max" reads as those bounds, and contains p iff min <= p <= max |
| ScoreCalculator.SegmentTable | server/utils/scoreCalculator.ts:157-182 | the segment table row by row: 75 and over, 50 to 74, below 50 |
| ScoreCalculator.SegmentMonotone | server/utils/scoreCalculator.ts:157-182 | a higher score or a more urgent tag never lowers the segment |
| ScoreCalculator.SegmentExamples | server/utils/scoreCalculator.ts:157-182 | (80, hot) is hot, (80, other) warm, (60, hot) warm, (60, warm) cold, (30, hot) cold, (30, other) nurture |
| ScoreCalculator.EbitdaOwnerPay | server/utils/scoreCalculator.ts:186-194 | the owner-CEO pay joins the EBITDA only when q3c is true or "true" and the pay is positive |
| ScoreCalculator.ValuationZero | server/utils/scoreCalculator.ts:196-212 | no positive EBITDA or no industry: all three figures are 0 |
| ScoreCalculator.IndustryFallback | server/utils/scoreCalculator.ts:201 | an industry missing from the table is valued with the "Andere" multiples |
| ScoreCalculator.ValuationOrdering | server/utils/scoreCalculator.ts:206-211 | for a positive EBITDA, high plus the increase is always the premium valuation; with base <= premium, low <= high, and the increase is not negative for a percentage within 0–100 |
| ExpertValuation.IndustryMultiplier | server/routes.ts:43 | a missing industry gets the default multiplier; a listed non-zero one gets its own |
| ExpertValuation.DefaultMultiplier | server/routes.ts:43 | an industry that is missing, or listed with 0, reports the default multiplier |
| ExpertValuation.SumIsSumFromFront | server/routes.ts:46 | reduce from 0, left to right, is the usual sum |
| ExpertValuation.MeanOfThree | server/routes.ts:46 | the mean of three profits is their sum over three |
| ExpertValuation.MeanBetween | server/routes.ts:46 | the mean lies between the smallest and the largest profit |
| ExpertValuation.ValuesSpec | server/routes.ts:55 | Object.values lists the factor values in the model's field order (JavaScript puts integer-like keys first; the order does not matter, see SumPermutation and QualityOrderFree) |
| ExpertValuation.SumPermutation | server/routes.ts:55 | the sum does not depend on the order of its terms |
| ExpertValuation.QualityOrderFree | server/routes.ts:55-79 | reordering the quality factors changes no result field |
| ExpertValuation.QualityThroughSum | server/routes.ts:55-79 | the result depends on the quality factors only through their sum |
| ExpertValuation.NeutralQuality | server/routes.ts:55-61 | factors that sum to 0 leave the adjusted multiplier at the industry multiplier |
| ExpertValuation.ThousandRounding | server/routes.ts:67 | rounding to thousands gives a multiple of 1000 within 500 of the value |
| ExpertValuation.CalculateExpertoValuation | server/routes.ts:37-80 | companyValue, baseValue and netDebtEffect are whole thousands; baseValue lies within 500 of the normalised EBIT at the unadjusted multiplier, and netDebtEffect within 500 of assets less debt; the multiplier is the industry's or the default; the adjusted multiplier is it times one plus the quality adjustment; normalizedEBIT is the rounded mean profit plus salary; companyValue lies within 500 of that EBIT at the adjusted multiplier, less debt, plus assets |
| ExpertValuation.CompanyValueRounding | server/routes.ts:61-78 | companyValue, baseValue and netDebtEffect are whole thousands, and companyValue is the thousand nearest to the enterprise value |
| ExpertValuation.ReportedFigures | server/routes.ts:70-79 | avgProfit and normalizedEBIT are the rounded mean and mean plus salary; the multipliers and the adjustment are reported unrounded |
| ExpertValuation.CompanyValueMonotone | server/routes.ts:64-67 | more assets never lower the company value; more debt never raises it |
| ExpertValuation.WorkedExample | server/routes.ts:37-80 | profits 100000/120000/140000, salary 60000, debt 50000, assets 20000, factors +0.10/−0.05, multiplier 6 give value 1104000 |
| ExpertValuation.FromToJson | server/routes.ts:145 | an answers object sent for a form is read back as that form |
| ExpertValuation.ValidAnswers | server/routes.ts:129-143 | only an object passes the guard, and one that does has a present, non-null industry and an array of exactly three profits |
| ExpertValuation.GuardOnForms | server/routes.ts:129-143 | the guard accepts a sent form iff its industry is non-empty and it has exactly three profits |
| ExpertValuation.GuardEstablishesPrecondition | server/routes.ts:129-145 | what the guard accepts has three profits and an industry, so the mean is defined |
| CalculationUtils.Clamp | lib/calculationUtils.ts:61 | the result is within 0–100: the score itself inside that range, 0 below it, 100 above it |
| CalculationUtils.CalculateExitReadiness | lib/calculationUtils.ts:5-62 | the readiness is within 0–100 and equals 50 plus every answer's points, clamped |
| CalculationUtils.AddBusinessModelPoints | lib/calculationUtils.ts:10-12 | saas +10, digitalproduct +5, agency −5, otherwise 0 |
| CalculationUtils.AddFounderDependencyPoints | lib/calculationUtils.ts:18-21 | the points of the founder dependency table, 0 for an unlisted answer |
| CalculationUtils.AddDecisionMakerPoints | lib/calculationUtils.ts:24-26 | the points of the decision-maker table, 0 for an unlisted answer |
| CalculationUtils.AddProcessesPoints | lib/calculationUtils.ts:29-32 | the points of the process table, 0 for an unlisted answer |
| CalculationUtils.AddTeamStructurePoints | lib/calculationUtils.ts:35-38 | the points of the team table, 0 for an unlisted answer |
| CalculationUtils.AddRetentionPeriodPoints | lib/calculationUtils.ts:44-47 | the points of the retention table, 0 for an unlisted answer |
| CalculationUtils.AddGrowthRatePoints | lib/calculationUtils.ts:50-53 | the points of the growth table, 0 for an unlisted answer |
| CalculationUtils.ReadinessMonotone | lib/calculationUtils.ts:15-58 | more recurring revenue, more automation or a higher margin never lowers the readiness |
| CalculationUtils.ReadinessBase | lib/calculationUtils.ts:7-58 | unlisted answers, zero percentages and a margin between 10 and 20 give exactly 50 |
| CalculationUtils.CalculateValuation | lib/calculationUtils.ts:65-120 | the result equals the band-and-premium valuation of the form, with the first two sorted bottlenecks |
| CalculationUtils.MultiplierBands | lib/calculationUtils.ts:70-95 | 2 <= low, low + 1 <= high, high <= 6.5 |
| CalculationUtils.OptimizedMultiplierBounds | lib/calculationUtils.ts:108-109 | high <= optimised <= high + 2, at most 7, and exactly high + 2 when high <= 5 |
| CalculationUtils.ValuationOrdered | lib/calculationUtils.ts:101-109 | EBIT >= 0: low <= high and the increase is not negative; EBIT <= 0: the reverse |
| CalculationUtils.ValuationMonotoneInReadiness | lib/calculationUtils.ts:70-105 | with EBIT >= 0, a higher readiness never lowers either end of the range |
| CalculationUtils.MainBottlenecks | lib/calculationUtils.ts:118 | at most two: the first two of the sorted list, or all of it when shorter; all shown are high whenever a high one is left out |
| CalculationUtils.IdentifyBottlenecks | lib/calculationUtils.ts:123-198 | the result is the pushed bottlenecks, ordered by severity |
| CalculationUtils.PushFounderDependency | lib/calculationUtils.ts:130-136 | pushes the founder dependency bottleneck exactly when the check applies |
| CalculationUtils.PushRecurringRevenue | lib/calculationUtils.ts:139-145 | pushes the recurring revenue bottleneck exactly when the check applies |
| CalculationUtils.PushProcesses | lib/calculationUtils.ts:148-154 | pushes the process bottleneck exactly when the check applies |
| CalculationUtils.PushTeamStructure | lib/calculationUtils.ts:157-163 | pushes the team bottleneck exactly when the check applies |
| CalculationUtils.PushGrowthRate | lib/calculationUtils.ts:166-172 | pushes the growth bottleneck exactly when the check applies |
| CalculationUtils.PushRetention | lib/calculationUtils.ts:175-181 | pushes the retention bottleneck exactly when the check applies |
| CalculationUtils.PushProfitability | lib/calculationUtils.ts:184-190 | pushes the profitability bottleneck exactly when the check applies |
| CalculationUtils.SortBySeverity | lib/calculationUtils.ts:193-197 | the array is sorted in place into the stable high-first order of its old contents |
| CalculationUtils.MoveIntoPlace | lib/calculationUtils.ts:193-197 | one insertion step: a high element goes after the highs and before the mediums, a medium last; the rest is untouched |
| CalculationUtils.BySeverityPermutation | lib/calculationUtils.ts:193-197 | the sorted list is a permutation of the input |
| CalculationUtils.HighsFirst | lib/calculationUtils.ts:193-197 | no high bottleneck comes after a medium one |
| CalculationUtils.BySeverityStable | lib/calculationUtils.ts:193-197 | the highs keep their order, and so do the mediums |
| CalculationUtils.BySeverityIdempotent | lib/calculationUtils.ts:193-197 | sorting a sorted list changes nothing |
| CalculationUtils.FoundOfCheck | lib/calculationUtils.ts:127-190 | before the sort, the bottlenecks a check raised are what that check pushed |
| CalculationUtils.BottleneckReported | lib/calculationUtils.ts:123-198 | a check's bottleneck is in the result iff its condition holds, with that severity and only once |
| CalculationUtils.RecurringRevenueBottleneck | lib/calculationUtils.ts:139-145 | a recurring share below 50 gives exactly one such entry, high iff below 30; none at 50 or more |
| CalculationUtils.TitlesDistinct | lib/calculationUtils.ts:130-190 | two bottlenecks have the same title iff the same check raised them |
| Storage.OrNull | server/storage.ts:80-82 | `x ?? null`: a value exactly when one was given, and that value |
| Storage.MemStorage.constructor | server/storage.ts:36-43 | three empty tables, counters at 1 |
| Storage.MemStorage.SaveCalculatorResult | server/storage.ts:46-52 | the result gets the counter's id, which was not in use; it is stored and read back; the counter goes up by 1; the other tables are unchanged |
| Storage.MemStorage.GetCalculatorResult | server/storage.ts:54-56 | the result stored under the id, or undefined iff there is none |
| Storage.MemStorage.SaveExpertoCalculatorResult | server/storage.ts:59-65 | the expert result gets its own counter's id; it is stored and read back; the other tables are unchanged |
| Storage.MemStorage.GetExpertoCalculatorResult | server/storage.ts:67-69 | the expert result stored under the id, or undefined iff there is none |
| Storage.MemStorage.SaveLead | server/storage.ts:72-86 | the lead gets its own counter's id and contacted = false; missing optional ids and the missing type become null; it is stored and read back; the other tables are unchanged |
| Storage.MemStorage.GetLead | server/storage.ts:88-90 | the lead stored under the id, or undefined iff there is none |
| Storage.MemStorage.GetAllLeads | server/storage.ts:92-94 | the leads in insertion (id) order, exactly the stored ones, as many as are stored |
| Storage.MemStorage.MarkLeadAsContacted | server/storage.ts:96-103 | an unknown id gives undefined and changes nothing; a known one gets contacted = true and nothing else changes |
| Storage.LeadsUpToAfterSave | server/storage.ts:72-94 | a lead saved next comes last in getAllLeads |
| Storage.LeadsUpToAfterMark | server/storage.ts:92-103 | marking a lead keeps its place in getAllLeads and changes only that entry |
| Storage.MarkedContactedOnlyThatLead | server/storage.ts:96-103 | marking changes no id and no other lead, and only the contacted flag of that lead |
| Storage.MarkedContactedIdempotent | server/storage.ts:96-103 | marking a lead twice is the same as marking it once |
| Storage.NewLeadFields | server/storage.ts:75-83 | a new lead is not contacted, has its id, carries the inserted names, email, phone, website and segment, keeps each optional field that was given, and has null for each one that was left out or null |
| Storage.KeysCount | server/storage.ts:92-94 | a table with keys exactly 1..n has n entries, and its values are the entries under those keys |

## Left out

- Reading server/data/questions.json and experto_questions.json: the parsed documents are parameters; a missing or malformed file is not modelled.
- `console.log` and the `log` calls, the other HTTP routes, the response objects, and the WebSocket relay.
- `Math.log10` is a parameter. Only its value at 1 is used (`NumberAnchors`).
- Finite IEEE-754 numbers are exact reals. Rounding error, overflow to infinity and the integer limits of parseInt and of number-to-string spellings are not modelled.
- Number keys: a choice value or an industry number is spelled as an object key only for integers below 10^21. Other numbers match no table key.
- An object answer's `value` field is modelled only when it is a number; a string or other non-number `value` (which the source would divide as it is) is not.
- A `null` entry in a question's options list is not modelled: the source throws on `'value' in null` (server/utils/scoreCalculator.ts:88). An answer that is `null` is skipped like a missing one (server/utils/scoreCalculator.ts:52), so the answer map simply has no entry for it.
- Division by zero is a precondition (`Scorable`, `CalculateScore`). This covers a total weight of 0, an empty scale range, a largest option value of 0, an empty tag table of an answered multi-choice question, and a NaN number answer. The source would produce NaN or Infinity there.
- ScoreCalculator.CalculateScore: requires that the "Andere" multiples exist, because the source would throw on `multiples.base` without them.
- ExpertValuation.CalculateExpertoValuation: requires a non-empty profit list and a "default" multiplier; these are the cases where the source divides by zero or multiplies undefined. /api/experto/calculate checks the profits first, but /api/experto/submit (server/routes.ts:178) calls it unguarded, so there an empty profit list gives 0/0 and the NaN figures are stored; that path is not modelled.
- ExpertValuation.FromJson: reads only answers whose industry is a string, whose profits are numbers and whose quality factors are numbers. Other shapes (which the guard lets through in part) are not valued.
- Duplicate keys and `__proto__`-style keys of JSON objects and the multiplier tables are not modelled; a lookup takes the last field of a name.
- Keys inherited from `Object.prototype`, such as `constructor` or `toString`, are not modelled: a lookup in the model finds only own fields. In the source, a multi-choice selection "constructor" (which the answer schema admits) finds a truthy function in `question.tags`, and server/utils/scoreCalculator.ts:121-123 pushes it as a tag. `AllSelectedTagsFromTables` and `MotivationTagsSpec` therefore do not cover such selections. Likewise an industry "toString" finds a function as the multiples (server/utils/scoreCalculator.ts:201) or as the multiplier (server/routes.ts:43).
- A multi-choice answer array with items that are not strings, which the unvalidated /api/questionnaire/submit can pass on, is not modelled: `Selection` holds strings only.
- The engine algorithm behind `Array.prototype.sort`: the comparator is consistent, and every stable sort gives the same result, so an insertion sort stands in for it.
- Bottleneck texts: the German title and description of each check are fixed functions of the check that raised it.
- `readinessScore` of the quick calculator is taken as an integer, which `calculateExitReadiness` always returns; `identifyBottlenecks` does not read it.
- The `createdAt` timestamps that the storage adds (`new Date()`) are not modelled. Neither is the asynchronous `Promise` wrapping of each storage operation.
- The database default "standard" of the leads table's `calculatorType` (shared/schema.ts:42-55): MemStorage stores null and the model follows MemStorage.
- The spread `{ ...insertResult, id }` is modelled as a record of the inserted fields plus the id; an inserted field named `id` is not possible in the insert schemas.
- The user interface, the PDF generator, the built `dist/` bundle and the database schema definitions beyond the record shapes.
