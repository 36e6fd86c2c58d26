# GP hypertension decision support — Dafny model

The model covers the core of a small decision-support tool for hypertension
in general practice, in `gp_htn_support.py`. It has three parts:

- **The patient record**: age, sex, blood pressure, a manually entered SCORE2
  percentage, smoking, the laboratory values sodium, potassium, eGFR,
  creatinine and urate, and eleven comorbidity flags.
- **SCORE2 handling**: the age-banded intervention threshold (5 % for ages
  40–59, 7.5 % for 60–69, 10 % for 70–75) and the decision whether an entered
  SCORE2 percentage reaches it.
- **The medication rules engine**: thirteen laboratory and comorbidity rules.
  Each rule that fires appends its rationale, plus fixed items to the
  first-line list of drug classes or to the list of classes to avoid or use
  with caution; only pregnancy adds to both. A default first-line list
  applies when no rule suggested one. Three combination suggestions are
  always given. Every list is then deduplicated in order by the helper
  `unique`.

## Files

- `wrappers.dfy` (`Wrappers`): the `Option` type.
- `patient.dfy` (`Patients`): the patient record. An absent value is `None`. Floats are reals.
- `score2.dfy` (`Score2`): the threshold and the intervention flag.
- `distinct.dfy` (`Distinct`):
  - `Dedup`, a reference definition of order-preserving duplicate removal, and its properties;
  - `Unique`, the source's loop with its `seen` set, proved equal to `Dedup`.
- `advice.dfy` (`Advice`):
  - every advice item as a constructor of a closed enumeration;
  - its exact Danish text;
  - a decoder proving that the text function is injective.
- `med_rules.dfy` (`MedRules`):
  - the rule table: `Rule`, `Fires`, the items of each rule and their inverses;
  - the specification `Recommend`, which runs the table in the engine's order;
  - the engine `MedRecommendations`: the source's conditional appends, one method per commented section of the source, proved to compute `Recommend`.
- `render.dfy` (`Rendering`): the rationale texts, and `Render`, which maps the item lists to the text lists the source returns. It proves that deduplicating items and deduplicating texts agree.
- `med_properties.dfy` (`MedRulesProperties`): the properties the engine promises, stated about `Recommend`.

## Model

| member | source | states |
|---|---|---|
| Score2.InterventionThreshold | gp_htn_support.py:55-63 | a threshold exists exactly for ages 40–75, and it is 5.0, 7.5 or 10.0 |
| Score2.ThresholdByBand | gp_htn_support.py:55-63 | each band maps to its cut-off, in both directions; ages outside 40–75 have no threshold (the source's NaN) |
| Score2.ThresholdNonDecreasing | gp_htn_support.py:55-63 | within 40–75 an older age never has a lower cut-off |
| Score2.Score2InterventionFlag | gp_htn_support.py:65-78 | the threshold is reported whenever it exists; no decision iff the score is absent or the age is outside 40–75; Yes iff score ≥ threshold; No iff score < threshold; the band note accompanies exactly the decided cases |
| Score2.FlagMonotoneInScore | gp_htn_support.py:74-78 | raising the SCORE2 percentage of a patient flagged Yes keeps the flag Yes |
| Distinct.Dedup | gp_htn_support.py:178-184 | the result keeps every element of the input, contains nothing else, has no duplicates and is no longer than the input |
| Distinct.DedupKeepsFirstOccurrenceOrder | gp_htn_support.py:178-184 | elements appear in the order of their first occurrence in the input |
| Distinct.DedupOfDistinct | gp_htn_support.py:178-184 | a list without duplicates comes out unchanged |
| Distinct.DedupIdempotent | gp_htn_support.py:178-184 | deduplicating twice equals deduplicating once |
| Distinct.DedupMember | gp_htn_support.py:178-184 | an element is in the output iff it is in the input |
| Distinct.NoDupOccursOnce | gp_htn_support.py:178-184 | in a duplicate-free list every present element occurs exactly once |
| Distinct.DedupMapInjective | gp_htn_support.py:178-184 | under an injective renaming, deduplicating the images equals the images of the deduplicated list |
| Distinct.Unique | gp_htn_support.py:178-184 | the loop with its `seen` set returns exactly `Dedup` of its input |
| Advice.DecodeFirstLineText | gp_htn_support.py:121-168 | every first-line class is recovered from its text |
| Advice.DecodeCautionText | gp_htn_support.py:104-163 | every caution item is recovered from its text |
| Advice.DecodeCombinationText | gp_htn_support.py:171-175 | every combination is recovered from its text |
| Advice.FirstLineTextInjective | gp_htn_support.py:121-168 | distinct first-line classes have distinct texts |
| Advice.CautionTextInjective | gp_htn_support.py:104-163 | distinct caution items have distinct texts |
| Advice.CombinationTextInjective | gp_htn_support.py:171-175 | distinct combinations have distinct texts |
| MedRules.AvoidSources | gp_htn_support.py:102-163 | for each caution item, exactly the rules whose avoid list contains it |
| MedRules.FirstLineSources | gp_htn_support.py:119-163 | for each first-line class, exactly the rules that suggest it |
| MedRules.RunRuleOrder | gp_htn_support.py:101-164 | running the table in order is the thirteen rule steps one after another, potassium first and pregnancy last |
| MedRules.PotassiumRules | gp_htn_support.py:102-109 | the nested potassium test performs the hyperkalaemia step, then the hypokalaemia step |
| MedRules.SodiumRule | gp_htn_support.py:112-114 | performs the hyponatraemia step (sodium ≤ 133) |
| MedRules.RenalRules | gp_htn_support.py:117-123 | performs the low-eGFR step, then the nephroprotection step, both only with a recorded eGFR |
| MedRules.DiabetesRule | gp_htn_support.py:126-128 | performs the diabetes step |
| MedRules.AtheroscleroticRule | gp_htn_support.py:131-133 | performs the coronary/stroke step |
| MedRules.HeartFailureRule | gp_htn_support.py:136-138 | performs the heart-failure step |
| MedRules.AtrialFibrillationRule | gp_htn_support.py:141-143 | performs the atrial-fibrillation step |
| MedRules.UrateRule | gp_htn_support.py:146-148 | performs the gout/urate step |
| MedRules.AsthmaCopdRule | gp_htn_support.py:151-153 | performs the asthma/COPD step |
| MedRules.EdemaRule | gp_htn_support.py:156-158 | performs the edema step |
| MedRules.PregnancyRule | gp_htn_support.py:161-164 | performs the pregnancy step |
| MedRules.ApplyRules | gp_htn_support.py:91-164 | from empty lists, the sections in source order produce exactly the rule table run in `RuleOrder` |
| MedRules.MedRecommendations | gp_htn_support.py:82-191 | the engine returns `Recommend(p)`: the deduplicated rule lists, the default first line when no rule suggested one, and the deduplicated combinations |
| Rendering.DecodeRationaleText | gp_htn_support.py:105-164 | every rule is recovered from its rationale text |
| Rendering.RationaleTextInjective | gp_htn_support.py:105-164 | distinct rules give distinct rationales |
| Rendering.FirstLineDedupAgrees | gp_htn_support.py:186-191 | deduplicating first-line classes and deduplicating their texts agree |
| Rendering.CombinationDedupAgrees | gp_htn_support.py:186-191 | deduplicating combinations and deduplicating their texts agree |
| Rendering.CautionDedupAgrees | gp_htn_support.py:186-191 | deduplicating caution items and deduplicating their texts agree |
| Rendering.RationaleDedupAgrees | gp_htn_support.py:186-191 | deduplicating rules and deduplicating their rationales agree |
| Rendering.RenderMatchesTextEngine | gp_htn_support.py:82-191 | the rendered result equals `unique` applied to the text lists the rules append, so the item model matches the source's string output |
| MedRulesProperties.CollectedAvoid | gp_htn_support.py:102-163 | a caution item is collected iff some rule in the sequence fires and lists it |
| MedRulesProperties.CollectedFirstLine | gp_htn_support.py:119-163 | a first-line class is collected iff some rule in the sequence fires and suggests it |
| MedRulesProperties.CollectedRationale | gp_htn_support.py:105-164 | a rationale is collected iff its rule is in the sequence and fires |
| MedRulesProperties.RationalesDistinct | gp_htn_support.py:105-164 | distinct rules give a duplicate-free rationale list |
| MedRulesProperties.AvoidListed | gp_htn_support.py:102-191 | an item is in the returned avoid list iff one of its source rules fires |
| MedRulesProperties.FirstLineListed | gp_htn_support.py:119-191 | a class is in the returned first line iff one of its source rules fires, or no rule suggested any class and it is a default |
| MedRulesProperties.AvoidListedOnlyBy | gp_htn_support.py:102-191 | an avoid item that exactly one rule lists is returned iff that rule's condition holds |
| MedRulesProperties.AvoidListedByEither | gp_htn_support.py:112-191 | an avoid item that exactly two rules list is returned iff either rule's condition holds |
| MedRulesProperties.AvoidListedOnce | gp_htn_support.py:178-191 | every returned avoid or caution item occurs exactly once |
| MedRulesProperties.FirstLineListedOnlyBy | gp_htn_support.py:119-191 | a non-default class that exactly one rule suggests is returned iff that rule's condition holds |
| MedRulesProperties.RationalesOfFiringRules | gp_htn_support.py:105-191 | a rule's rationale is returned iff the rule fires, and `unique` leaves the rationale list unchanged |
| MedRulesProperties.SuggestedFirstLine | gp_htn_support.py:117-168 | the rules suggest some first-line class iff one of nephroprotection, diabetes, CAD/stroke, heart failure, AF or pregnancy applies |
| MedRulesProperties.LaboratoryFiringConditions | gp_htn_support.py:102-148 | the conditions of the potassium, sodium, renal and urate rules in terms of the recorded laboratory values |
| MedRulesProperties.ComorbidityFiringConditions | gp_htn_support.py:126-164 | the conditions of the seven comorbidity rules in terms of the patient's flags |
| MedRulesProperties.FiringConditions | gp_htn_support.py:102-164 | each of the thirteen rules' conditions in terms of the patient record |
| MedRulesProperties.FirstLineNeverEmpty | gp_htn_support.py:166-168 | the returned first-line list is never empty |
| MedRulesProperties.SuggestionsReplaceDefault | gp_htn_support.py:166-168 | when any rule suggests a class, the returned first line holds a class that is not a default |
| MedRulesProperties.DefaultFirstLineExactly | gp_htn_support.py:166-168 | the first line equals the default list iff no suggesting rule applies |
| MedRulesProperties.CombinationsConstant | gp_htn_support.py:170-175 | the combinations are the same three for every patient |
| MedRulesProperties.PotassiumAdvice | gp_htn_support.py:102-109 | K ≥ 5.0 iff each of the three hyperkalaemia items is listed; K ≤ 3.4 iff the monotherapy caution is listed; never both; an absent K gives neither rationale |
| MedRulesProperties.ThiazideAvoidance | gp_htn_support.py:112-148 | thiazide is listed iff sodium ≤ 133, gout, or urate > 0.42, and it occurs at most once |
| MedRulesProperties.NephroprotectionCondition | gp_htn_support.py:117-123 | nephroprotection is suggested iff an eGFR is recorded and it is below 60 or CKD or proteinuria is present |
| MedRulesProperties.LowEgfrAlsoNephroprotection | gp_htn_support.py:117-123 | an eGFR below 30 gives the two low-eGFR cautions and also the nephroprotection class, with both rationales |
| MedRulesProperties.PregnancyAdvice | gp_htn_support.py:161-164 | pregnancy iff ACE inhibitor, ARB and MRA are listed to avoid; pregnancy iff labetalol, nifedipine and methyldopa are listed first-line |
| MedRulesProperties.NoRationaleExactlyWhenNoRuleFires | gp_htn_support.py:101-164 | no rationale is returned iff no rule fires |
| MedRulesProperties.HyperkalaemiaKeepsDefaultFirstLine | gp_htn_support.py:102-168 | with K ≥ 5.0 and no suggesting rule, the first line is the default list with ACE inhibitor or ARB, while ACE inhibitor and ARB are also listed to avoid |
| MedRulesProperties.SameFiringSameLists | gp_htn_support.py:101-164 | patients on whom the same rules fire get the same lists |
| MedRulesProperties.FiresReadsOnlyRuleFields | gp_htn_support.py:101-164 | no rule condition reads age, sex, blood pressure, SCORE2, smoking or creatinine |
| MedRulesProperties.RecommendReadsOnlyRuleFields | gp_htn_support.py:82-191 | age, sex, blood pressure, SCORE2, smoking and creatinine do not change the engine's result |

## Behaviour worth noting

- **Sodium.** The rule fires at sodium ≤ 133 mmol/L, so 133 itself counts (`SodiumRule`, `ThiazideAvoidance`).
- **Low eGFR.** An eGFR below 30 also satisfies the `< 60` test, so it triggers the nephroprotection suggestion as well (`LowEgfrAlsoNephroprotection`).
- **CKD and proteinuria.** These flags take effect only when an eGFR is recorded, because both renal tests sit inside the recorded-eGFR test (`NephroprotectionCondition`).
- **Pregnancy.** Pregnancy adds its first-line classes to any others that were suggested; it does not replace them (`PregnancyAdvice` states only what pregnancy adds).
- **Hyperkalaemia.** Hyperkalaemia adds to the avoid and rationale lists, not to the first line. Without another suggesting rule, the first line is still the default "ACE-hæmmer ELLER ARB" list (`HyperkalaemiaKeepsDefaultFirstLine`).

## Left out

- The `demo()` command-line routine and the web front end (`app.py`): these are I/O around the core.
- Score2.Score2InterventionFlag: the threshold is returned as a number, not as the formatted text `"5.0%"`, and the two notes are returned as an enumeration (`Note`), not as their texts.
- Floating point: percentages and laboratory values are modelled as exact reals. NaN, infinities and rounding are not modelled. The NaN threshold outside 40–75 is `None`.
- Patient fields are stored but never read by any rule: sex, systolic blood pressure, smoking and creatinine. `RecommendReadsOnlyRuleFields` states that they have no effect.
- Advice items are enumerations, each tied to its exact text. The source's string lists are recovered by `Render`, and `RenderMatchesTextEngine` proves the two agree.
- Structure of the engine: its local lists are grouped into one `Lists` value, and each commented section of `med_recommendations` is a separate method. The conditions, the appends and their order are the source's.
