/**
  The medication rules engine. Each laboratory or comorbidity rule appends
  fixed advice to three lists (first-line classes, avoid/caution items and
  rationales); a default first-line list applies when no rule suggested one;
  the combination suggestions are fixed; every list is then deduplicated,
  keeping first occurrences.

  The specification is a rule table (`Rule`, `Fires`, the per-rule items)
  run in the engine's rule order (`RunRules`). The engine itself is
  `MedRecommendations`: the source's conditional appends, one method per
  section of the source, each proved to perform one or two steps of the table.
 */
module MedRules {
  import opened Wrappers
  import opened Patients
  import opened Distinct
  import opened Advice

  // ---- The rule table ----

  datatype Rule =
    | Hyperkalaemia | Hypokalaemia | Hyponatraemia | LowEgfr | Nephroprotection
    | Diabetes | Atherosclerotic | HeartFailure | AtrialFibrillation
    | Hyperuricaemia | AsthmaCopd | EdemaTendency | Pregnancy

  /** The order in which the engine evaluates its rules. */
  const RuleOrder: seq<Rule> := [
    Hyperkalaemia, Hypokalaemia, Hyponatraemia, LowEgfr, Nephroprotection,
    Diabetes, Atherosclerotic, HeartFailure, AtrialFibrillation,
    Hyperuricaemia, AsthmaCopd, EdemaTendency, Pregnancy
  ]

  /**
    When each rule applies to a patient. The laboratory rules need the value
    to be recorded; nephroprotection is evaluated only when an eGFR is recorded.
   */
  predicate Fires(r: Rule, p: Patient) {
    match r
    case Hyperkalaemia => p.k.Some? && p.k.value >= 5.0
    case Hypokalaemia => p.k.Some? && p.k.value <= 3.4
    case Hyponatraemia => p.na.Some? && p.na.value <= 133.0
    case LowEgfr => p.egfr.Some? && p.egfr.value < 30.0
    case Nephroprotection => p.egfr.Some? && (p.egfr.value < 60.0 || p.ckd || p.proteinuria)
    case Diabetes => p.diabetes
    case Atherosclerotic => p.cad || p.strokeTia
    case HeartFailure => p.heartFailure
    case AtrialFibrillation => p.af
    case Hyperuricaemia => p.gout || (p.urate.Some? && p.urate.value > 0.42)
    case AsthmaCopd => p.asthmaCopd
    case EdemaTendency => p.peripheralEdemaTendency
    case Pregnancy => p.pregnancy
  }

  /** The first-line classes a rule suggests. */
  function FirstLineItems(r: Rule): seq<FirstLineClass> {
    match r
    case Nephroprotection => [AceOrArbNephroprotection]
    case Diabetes => [AceOrArbAlbuminuria]
    case Atherosclerotic => [AceOrArb, DhpCcb]
    case HeartFailure => [AceOrArb, BetaBlockerHf, MraHfref]
    case AtrialFibrillation => [BetaBlockerRateControl]
    case Pregnancy => [Labetalol, NifedipineRetard, Methyldopa]
    case _ => []
  }

  /** The classes a rule says to avoid or use with caution. */
  function AvoidItems(r: Rule): seq<Caution> {
    match r
    case Hyperkalaemia => [AceTemporarily, ArbTemporarily, PotassiumSparing]
    case Hypokalaemia => [ThiazideMonotherapy]
    case Hyponatraemia => [Thiazide]
    case LowEgfr => [ThiazideLowEgfr, PotassiumSparingCaution]
    case Hyperuricaemia => [Thiazide]
    case AsthmaCopd => [NonSelectiveBetaBlockers]
    case EdemaTendency => [DhpCcbMonotherapy]
    case Pregnancy => [AceInhibitor, Arb, Mra]
    case _ => []
  }

  /** The rules that list a caution item: the inverse of `AvoidItems`. */
  function AvoidSources(c: Caution): (rules: seq<Rule>)
    ensures forall r :: c in AvoidItems(r) <==> r in rules
  {
    match c
    case AceTemporarily | ArbTemporarily | PotassiumSparing => [Hyperkalaemia]
    case ThiazideMonotherapy => [Hypokalaemia]
    case Thiazide => [Hyponatraemia, Hyperuricaemia]
    case ThiazideLowEgfr | PotassiumSparingCaution => [LowEgfr]
    case NonSelectiveBetaBlockers => [AsthmaCopd]
    case DhpCcbMonotherapy => [EdemaTendency]
    case AceInhibitor | Arb | Mra => [Pregnancy]
  }

  /** The rules that suggest a first-line class: the inverse of `FirstLineItems`. */
  function FirstLineSources(c: FirstLineClass): (rules: seq<Rule>)
    ensures forall r :: c in FirstLineItems(r) <==> r in rules
  {
    match c
    case AceOrArbNephroprotection => [Nephroprotection]
    case AceOrArbAlbuminuria => [Diabetes]
    case AceOrArb => [Atherosclerotic, HeartFailure]
    case DhpCcb => [Atherosclerotic]
    case BetaBlockerHf | MraHfref => [HeartFailure]
    case BetaBlockerRateControl => [AtrialFibrillation]
    case Labetalol | NifedipineRetard | Methyldopa => [Pregnancy]
    case DefaultAceOrArb | DefaultThiazideLike => []
  }

  /**
    The three lists the rules grow. Every rule that fires contributes exactly
    one rationale of its own, so the rationale list is recorded as the rules
    whose rationale was given.
   */
  datatype Lists = Lists(firstLine: seq<FirstLineClass>, avoid: seq<Caution>, rationales: seq<Rule>)

  const NoAdvice := Lists([], [], [])

  /** One rule: if it fires, its items are appended to each list. */
  function Step(s: Lists, r: Rule, p: Patient): Lists {
    if Fires(r, p) then Lists(s.firstLine + FirstLineItems(r), s.avoid + AvoidItems(r), s.rationales + [r])
    else s
  }

  /** The lists after running `rules` in order from empty lists, before duplicates are removed. */
  function RunRules(rules: seq<Rule>, p: Patient): Lists {
    if rules == [] then NoAdvice
    else Step(RunRules(rules[..|rules| - 1], p), rules[|rules| - 1], p)
  }

  /** Running one more rule of a sequence is one more step. */
  lemma RunRulesPrefix(rules: seq<Rule>, k: nat, p: Patient)
    requires k < |rules|
    ensures RunRules(rules[..k + 1], p) == Step(RunRules(rules[..k], p), rules[k], p)
  {
    assert rules[..k + 1][..k] == rules[..k];
  }

  /** Running the table in the engine's order is the thirteen steps one after another. */
  lemma RunRuleOrder(p: Patient)
    ensures RunRules(RuleOrder, p) ==
      Step(Step(Step(Step(Step(Step(Step(Step(Step(Step(Step(Step(Step(NoAdvice,
        Hyperkalaemia, p), Hypokalaemia, p), Hyponatraemia, p), LowEgfr, p), Nephroprotection, p),
        Diabetes, p), Atherosclerotic, p), HeartFailure, p), AtrialFibrillation, p),
        Hyperuricaemia, p), AsthmaCopd, p), EdemaTendency, p), Pregnancy, p)
  {
    var rs := RuleOrder;
    assert rs[..0] == [];
    RunRulesPrefix(rs, 0, p);
    RunRulesPrefix(rs, 1, p);
    RunRulesPrefix(rs, 2, p);
    RunRulesPrefix(rs, 3, p);
    RunRulesPrefix(rs, 4, p);
    RunRulesPrefix(rs, 5, p);
    RunRulesPrefix(rs, 6, p);
    RunRulesPrefix(rs, 7, p);
    RunRulesPrefix(rs, 8, p);
    RunRulesPrefix(rs, 9, p);
    RunRulesPrefix(rs, 10, p);
    RunRulesPrefix(rs, 11, p);
    RunRulesPrefix(rs, 12, p);
    assert rs[..13] == rs;
  }

  /** First-line classes suggested when no rule suggested any. */
  const DefaultFirstLine: seq<FirstLineClass> := [DefaultAceOrArb, DhpCcb, DefaultThiazideLike]

  /** The fixed combination suggestions. */
  const CombinationAdvice: seq<Combination> := [AceArbWithCcb, AceArbWithThiazide, CcbWithThiazide]

  datatype Recommendations = Recommendations(
    firstLineOptions: seq<FirstLineClass>,
    combinations: seq<Combination>,
    avoidOrCaution: seq<Caution>,
    rationales: seq<Rule>)

  /** The first-line list before duplicates are removed: the rules' suggestions, or the default. */
  function RawFirstLine(p: Patient): seq<FirstLineClass> {
    var suggested := RunRules(RuleOrder, p).firstLine;
    if suggested == [] then DefaultFirstLine else suggested
  }

  /** The engine's result for a patient, read off the rule table. */
  function Recommend(p: Patient): Recommendations {
    var lists := RunRules(RuleOrder, p);
    Recommendations(
      Dedup(RawFirstLine(p)),
      Dedup(CombinationAdvice),
      Dedup(lists.avoid),
      Dedup(lists.rationales))
  }

  // ---- The engine, section by section ----

  /** Potassium: high potassium rules out RAAS blockade and potassium-sparing agents; otherwise low potassium cautions against thiazide monotherapy. */
  method PotassiumRules(p: Patient, s: Lists) returns (t: Lists)
    ensures t == Step(Step(s, Hyperkalaemia, p), Hypokalaemia, p)
  {
    var avoid, rationales := s.avoid, s.rationales;
    if p.k.Some? {
      if p.k.value >= 5.0 {
        avoid := avoid + [AceTemporarily, ArbTemporarily, PotassiumSparing];
        rationales := rationales + [Hyperkalaemia];
      } else if p.k.value <= 3.4 {
        avoid := avoid + [ThiazideMonotherapy];
        rationales := rationales + [Hypokalaemia];
      }
    }
    t := Lists(s.firstLine, avoid, rationales);
  }

  /** Sodium: at or below 133 thiazides are avoided. */
  method SodiumRule(p: Patient, s: Lists) returns (t: Lists)
    ensures t == Step(s, Hyponatraemia, p)
  {
    t := s;
    if p.na.Some? && p.na.value <= 133.0 {
      t := t.(avoid := t.avoid + [Thiazide], rationales := t.rationales + [Hyponatraemia]);
    }
  }

  /** eGFR and CKD: both tests apply only when an eGFR is recorded. */
  method RenalRules(p: Patient, s: Lists) returns (t: Lists)
    ensures t == Step(Step(s, LowEgfr, p), Nephroprotection, p)
  {
    var firstLine, avoid, rationales := s.firstLine, s.avoid, s.rationales;
    if p.egfr.Some? {
      if p.egfr.value < 30.0 {
        avoid := avoid + [ThiazideLowEgfr, PotassiumSparingCaution];
        rationales := rationales + [LowEgfr];
      }
      if p.egfr.value < 60.0 || p.ckd || p.proteinuria {
        firstLine := firstLine + [AceOrArbNephroprotection];
        rationales := rationales + [Nephroprotection];
      }
    }
    t := Lists(firstLine, avoid, rationales);
  }

  /** Diabetes: RAAS blockade as the base. */
  method DiabetesRule(p: Patient, s: Lists) returns (t: Lists)
    ensures t == Step(s, Diabetes, p)
  {
    t := s;
    if p.diabetes {
      t := t.(firstLine := t.firstLine + [AceOrArbAlbuminuria], rationales := t.rationales + [Diabetes]);
    }
  }

  /** Coronary artery disease, stroke or TIA: RAAS blockade and a calcium-channel blocker. */
  method AtheroscleroticRule(p: Patient, s: Lists) returns (t: Lists)
    ensures t == Step(s, Atherosclerotic, p)
  {
    t := s;
    if p.cad || p.strokeTia {
      t := t.(firstLine := t.firstLine + [AceOrArb, DhpCcb], rationales := t.rationales + [Atherosclerotic]);
    }
  }

  /** Heart failure: RAAS blockade, a heart-failure beta-blocker and an MRA. */
  method HeartFailureRule(p: Patient, s: Lists) returns (t: Lists)
    ensures t == Step(s, HeartFailure, p)
  {
    t := s;
    if p.heartFailure {
      t := t.(firstLine := t.firstLine + [AceOrArb, BetaBlockerHf, MraHfref], rationales := t.rationales + [HeartFailure]);
    }
  }

  /** Atrial fibrillation: a beta-blocker for rate control. */
  method AtrialFibrillationRule(p: Patient, s: Lists) returns (t: Lists)
    ensures t == Step(s, AtrialFibrillation, p)
  {
    t := s;
    if p.af {
      t := t.(firstLine := t.firstLine + [BetaBlockerRateControl], rationales := t.rationales + [AtrialFibrillation]);
    }
  }

  /** Gout, or urate above 0.42: thiazides are avoided. */
  method UrateRule(p: Patient, s: Lists) returns (t: Lists)
    ensures t == Step(s, Hyperuricaemia, p)
  {
    t := s;
    if p.gout || (p.urate.Some? && p.urate.value > 0.42) {
      t := t.(avoid := t.avoid + [Thiazide], rationales := t.rationales + [Hyperuricaemia]);
    }
  }

  /** Asthma or COPD: non-selective beta-blockers are avoided. */
  method AsthmaCopdRule(p: Patient, s: Lists) returns (t: Lists)
    ensures t == Step(s, AsthmaCopd, p)
  {
    t := s;
    if p.asthmaCopd {
      t := t.(avoid := t.avoid + [NonSelectiveBetaBlockers], rationales := t.rationales + [AsthmaCopd]);
    }
  }

  /** Tendency to peripheral edema: no calcium-channel blocker alone. */
  method EdemaRule(p: Patient, s: Lists) returns (t: Lists)
    ensures t == Step(s, EdemaTendency, p)
  {
    t := s;
    if p.peripheralEdemaTendency {
      t := t.(avoid := t.avoid + [DhpCcbMonotherapy], rationales := t.rationales + [EdemaTendency]);
    }
  }

  /** Pregnancy: no ACE inhibitor, ARB or MRA; labetalol, nifedipine or methyldopa instead. */
  method PregnancyRule(p: Patient, s: Lists) returns (t: Lists)
    ensures t == Step(s, Pregnancy, p)
  {
    t := s;
    if p.pregnancy {
      t := Lists(t.firstLine + [Labetalol, NifedipineRetard, Methyldopa],
                 t.avoid + [AceInhibitor, Arb, Mra],
                 t.rationales + [Pregnancy]);
    }
  }

  /** All rule sections in the source's order, from empty lists. */
  method ApplyRules(p: Patient) returns (lists: Lists)
    ensures lists == RunRules(RuleOrder, p)
  {
    lists := NoAdvice;
    lists := PotassiumRules(p, lists);
    lists := SodiumRule(p, lists);
    lists := RenalRules(p, lists);
    lists := DiabetesRule(p, lists);
    lists := AtheroscleroticRule(p, lists);
    lists := HeartFailureRule(p, lists);
    lists := AtrialFibrillationRule(p, lists);
    lists := UrateRule(p, lists);
    lists := AsthmaCopdRule(p, lists);
    lists := EdemaRule(p, lists);
    lists := PregnancyRule(p, lists);
    RunRuleOrder(p);
  }

  /**
    The engine: run the rules, fall back to the default first-line list when
    no rule suggested one, add the fixed combinations, and apply `Unique` to
    every list.
   */
  method MedRecommendations(p: Patient) returns (rec: Recommendations)
    ensures rec == Recommend(p)
  {
    var lists := ApplyRules(p);
    var firstLine := lists.firstLine;
    if firstLine == [] {
      firstLine := firstLine + DefaultFirstLine;
      assert firstLine == DefaultFirstLine;
    }
    assert firstLine == RawFirstLine(p);
    var combos: seq<Combination> := [];
    combos := combos + CombinationAdvice;
    assert combos == CombinationAdvice;

    var uniqueFirstLine := Unique(firstLine);
    var uniqueCombos := Unique(combos);
    var uniqueAvoid := Unique(lists.avoid);
    var uniqueRationales := Unique(lists.rationales);
    rec := Recommendations(uniqueFirstLine, uniqueCombos, uniqueAvoid, uniqueRationales);
  }
}
