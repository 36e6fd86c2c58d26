/**
  Properties of the medication rules engine, stated about the rule table
  (`RunRules`, `Recommend`) that `MedRecommendations` is proved to compute.
 */
module MedRulesProperties {
  import opened Wrappers
  import opened Patients
  import opened Distinct
  import opened Advice
  import opened MedRules

  // ---- What running a sequence of rules collects ----

  /** A caution item is collected exactly when some rule in the sequence fires and lists it. */
  lemma {:induction false} CollectedAvoid(rules: seq<Rule>, p: Patient, c: Caution)
    ensures c in RunRules(rules, p).avoid <==>
      exists r :: r in rules && Fires(r, p) && c in AvoidItems(r)
  {
    if rules != [] {
      var init, last := rules[..|rules| - 1], rules[|rules| - 1];
      assert rules == init + [last];
      CollectedAvoid(init, p, c);
    }
  }

  /** A first-line class is collected exactly when some rule in the sequence fires and suggests it. */
  lemma {:induction false} CollectedFirstLine(rules: seq<Rule>, p: Patient, c: FirstLineClass)
    ensures c in RunRules(rules, p).firstLine <==>
      exists r :: r in rules && Fires(r, p) && c in FirstLineItems(r)
  {
    if rules != [] {
      var init, last := rules[..|rules| - 1], rules[|rules| - 1];
      assert rules == init + [last];
      CollectedFirstLine(init, p, c);
    }
  }

  /** A rule's rationale is collected exactly when the rule is in the sequence and fires. */
  lemma {:induction false} CollectedRationale(rules: seq<Rule>, p: Patient, r: Rule)
    ensures r in RunRules(rules, p).rationales <==> r in rules && Fires(r, p)
  {
    if rules != [] {
      var init, last := rules[..|rules| - 1], rules[|rules| - 1];
      assert rules == init + [last];
      CollectedRationale(init, p, r);
    }
  }

  /** A sequence of distinct rules gives each rationale at most once. */
  lemma {:induction false} RationalesDistinct(rules: seq<Rule>, p: Patient)
    requires NoDup(rules)
    ensures NoDup(RunRules(rules, p).rationales)
  {
    if rules != [] {
      var init, last := rules[..|rules| - 1], rules[|rules| - 1];
      assert rules == init + [last];
      assert NoDup(init);
      RationalesDistinct(init, p);
      CollectedRationale(init, p, last);
    }
  }

  /** Every rule is in the engine's order, once. */
  lemma RuleOrderComplete(r: Rule)
    ensures r in RuleOrder && NoDup(RuleOrder)
  {
  }

  // ---- What the engine returns ----

  /** A caution item is listed exactly when a rule that lists it fires. */
  lemma AvoidListed(p: Patient, c: Caution)
    ensures c in Recommend(p).avoidOrCaution <==> exists r :: r in AvoidSources(c) && Fires(r, p)
  {
    DedupMember(RunRules(RuleOrder, p).avoid, c);
    CollectedAvoid(RuleOrder, p, c);
    forall r: Rule ensures r in RuleOrder {
      RuleOrderComplete(r);
    }
  }

  /**
    A first-line class is listed exactly when a rule that suggests it fires,
    or no rule suggests any and it is one of the defaults.
   */
  lemma FirstLineListed(p: Patient, c: FirstLineClass)
    ensures c in Recommend(p).firstLineOptions <==>
      (exists r :: r in FirstLineSources(c) && Fires(r, p)) ||
      (RunRules(RuleOrder, p).firstLine == [] && c in DefaultFirstLine)
  {
    DedupMember(RawFirstLine(p), c);
    CollectedFirstLine(RuleOrder, p, c);
    forall r: Rule ensures r in RuleOrder {
      RuleOrderComplete(r);
    }
  }

  /** A caution item that only rule `r` lists is listed exactly when `r`'s condition holds. */
  lemma AvoidListedOnlyBy(p: Patient, c: Caution, r: Rule, condition: bool)
    requires AvoidSources(c) == [r]
    requires Fires(r, p) == condition
    ensures c in Recommend(p).avoidOrCaution <==> condition
  {
    AvoidListed(p, c);
    assert r in AvoidSources(c);
  }

  /** An avoid or caution item that exactly two rules list is listed exactly when either rule's condition holds. */
  lemma AvoidListedByEither(p: Patient, c: Caution, r1: Rule, r2: Rule, condition1: bool, condition2: bool)
    requires AvoidSources(c) == [r1, r2]
    requires Fires(r1, p) == condition1 && Fires(r2, p) == condition2
    ensures c in Recommend(p).avoidOrCaution <==> condition1 || condition2
  {
    AvoidListed(p, c);
    assert r1 in AvoidSources(c) && r2 in AvoidSources(c);
  }

  /** Every listed avoid or caution item occurs exactly once in the result. */
  lemma AvoidListedOnce(p: Patient, c: Caution)
    ensures multiset(Recommend(p).avoidOrCaution)[c] == if c in Recommend(p).avoidOrCaution then 1 else 0
  {
    NoDupOccursOnce(Recommend(p).avoidOrCaution, c);
  }

  /** A first-line class other than the defaults that only rule `r` suggests is listed exactly when `r`'s condition holds. */
  lemma FirstLineListedOnlyBy(p: Patient, c: FirstLineClass, r: Rule, condition: bool)
    requires c !in DefaultFirstLine && FirstLineSources(c) == [r]
    requires Fires(r, p) == condition
    ensures c in Recommend(p).firstLineOptions <==> condition
  {
    FirstLineListed(p, c);
    assert r in FirstLineSources(c);
  }

  /** A rule's rationale is given exactly when the rule fires; removing duplicates changes nothing. */
  lemma RationalesOfFiringRules(p: Patient, r: Rule)
    ensures r in Recommend(p).rationales <==> Fires(r, p)
    ensures Recommend(p).rationales == RunRules(RuleOrder, p).rationales
  {
    RuleOrderComplete(r);
    CollectedRationale(RuleOrder, p, r);
    RationalesDistinct(RuleOrder, p);
    DedupOfDistinct(RunRules(RuleOrder, p).rationales);
  }

  /** The rules suggest some first-line class exactly when one of the six suggesting rules fires. */
  lemma SuggestedFirstLine(p: Patient)
    ensures RunRules(RuleOrder, p).firstLine != [] <==>
      (p.egfr.Some? && (p.egfr.value < 60.0 || p.ckd || p.proteinuria)) ||
      p.diabetes || p.cad || p.strokeTia || p.heartFailure || p.af || p.pregnancy
  {
    var fl := RunRules(RuleOrder, p).firstLine;
    if fl != [] {
      CollectedFirstLine(RuleOrder, p, fl[0]);
    }
    forall r | Fires(r, p) && FirstLineItems(r) != []
      ensures fl != []
    {
      RuleOrderComplete(r);
      CollectedFirstLine(RuleOrder, p, FirstLineItems(r)[0]);
    }
    assert (Fires(Nephroprotection, p) || Fires(Diabetes, p) || Fires(Atherosclerotic, p) ||
            Fires(HeartFailure, p) || Fires(AtrialFibrillation, p) || Fires(Pregnancy, p)) ==> fl != [];
  }

  // ---- Facts read off the rule table ----

  /** When each laboratory rule fires, in terms of the recorded values. */
  lemma LaboratoryFiringConditions(p: Patient)
    ensures Fires(Hyperkalaemia, p) == (p.k.Some? && p.k.value >= 5.0)
    ensures Fires(Hypokalaemia, p) == (p.k.Some? && p.k.value <= 3.4)
    ensures Fires(Hyponatraemia, p) == (p.na.Some? && p.na.value <= 133.0)
    ensures Fires(LowEgfr, p) == (p.egfr.Some? && p.egfr.value < 30.0)
    ensures Fires(Nephroprotection, p) == (p.egfr.Some? && (p.egfr.value < 60.0 || p.ckd || p.proteinuria))
    ensures Fires(Hyperuricaemia, p) == (p.gout || (p.urate.Some? && p.urate.value > 0.42))
  {
  }

  /** When each comorbidity rule fires, in terms of the patient's flags. */
  lemma ComorbidityFiringConditions(p: Patient)
    ensures Fires(Diabetes, p) == p.diabetes
    ensures Fires(Atherosclerotic, p) == (p.cad || p.strokeTia)
    ensures Fires(HeartFailure, p) == p.heartFailure
    ensures Fires(AtrialFibrillation, p) == p.af
    ensures Fires(AsthmaCopd, p) == p.asthmaCopd
    ensures Fires(EdemaTendency, p) == p.peripheralEdemaTendency
    ensures Fires(Pregnancy, p) == p.pregnancy
  {
  }

  /** When each of the thirteen rules fires, in terms of the patient record. */
  lemma FiringConditions(p: Patient)
    ensures Fires(Hyperkalaemia, p) == (p.k.Some? && p.k.value >= 5.0)
    ensures Fires(Hypokalaemia, p) == (p.k.Some? && p.k.value <= 3.4)
    ensures Fires(Hyponatraemia, p) == (p.na.Some? && p.na.value <= 133.0)
    ensures Fires(LowEgfr, p) == (p.egfr.Some? && p.egfr.value < 30.0)
    ensures Fires(Nephroprotection, p) == (p.egfr.Some? && (p.egfr.value < 60.0 || p.ckd || p.proteinuria))
    ensures Fires(Diabetes, p) == p.diabetes
    ensures Fires(Atherosclerotic, p) == (p.cad || p.strokeTia)
    ensures Fires(HeartFailure, p) == p.heartFailure
    ensures Fires(AtrialFibrillation, p) == p.af
    ensures Fires(Hyperuricaemia, p) == (p.gout || (p.urate.Some? && p.urate.value > 0.42))
    ensures Fires(AsthmaCopd, p) == p.asthmaCopd
    ensures Fires(EdemaTendency, p) == p.peripheralEdemaTendency
    ensures Fires(Pregnancy, p) == p.pregnancy
  {
    LaboratoryFiringConditions(p);
    ComorbidityFiringConditions(p);
  }

  /** The items that exactly one rule lists. */
  lemma SingleSourceItems()
    ensures AvoidSources(AceTemporarily) == [Hyperkalaemia] && AvoidSources(ArbTemporarily) == [Hyperkalaemia]
    ensures AvoidSources(PotassiumSparing) == [Hyperkalaemia] && AvoidSources(ThiazideMonotherapy) == [Hypokalaemia]
    ensures AvoidSources(ThiazideLowEgfr) == [LowEgfr] && AvoidSources(PotassiumSparingCaution) == [LowEgfr]
    ensures AvoidSources(AceInhibitor) == [Pregnancy] && AvoidSources(Arb) == [Pregnancy] && AvoidSources(Mra) == [Pregnancy]
    ensures FirstLineSources(AceOrArbNephroprotection) == [Nephroprotection]
    ensures FirstLineSources(Labetalol) == [Pregnancy] && FirstLineSources(NifedipineRetard) == [Pregnancy]
    ensures FirstLineSources(Methyldopa) == [Pregnancy]
    ensures AceOrArbNephroprotection !in DefaultFirstLine
    ensures Labetalol !in DefaultFirstLine && NifedipineRetard !in DefaultFirstLine && Methyldopa !in DefaultFirstLine
  {
  }

  /** Every rule that suggests first-line classes suggests, first, one that is not a default. */
  lemma FirstSuggestionNotDefault(r: Rule)
    requires FirstLineItems(r) != []
    ensures FirstLineItems(r)[0] !in DefaultFirstLine
  {
  }

  // ---- The properties the engine promises ----

  /** The first-line list is never empty. */
  lemma FirstLineNeverEmpty(p: Patient)
    ensures Recommend(p).firstLineOptions != []
  {
    var raw := RawFirstLine(p);
    assert raw[0] in raw;
    DedupMember(raw, raw[0]);
  }

  /** When some rule suggests a first-line class, the result lists a class that is not a default. */
  lemma SuggestionsReplaceDefault(p: Patient)
    requires RunRules(RuleOrder, p).firstLine != []
    ensures exists c :: c in Recommend(p).firstLineOptions && c !in DefaultFirstLine
  {
    var fl := RunRules(RuleOrder, p).firstLine;
    CollectedFirstLine(RuleOrder, p, fl[0]);
    var r :| r in RuleOrder && Fires(r, p) && fl[0] in FirstLineItems(r);
    var own := FirstLineItems(r)[0];
    FirstSuggestionNotDefault(r);
    CollectedFirstLine(RuleOrder, p, own);
    assert RawFirstLine(p) == fl;
    DedupMember(fl, own);
    assert own in Recommend(p).firstLineOptions && own !in DefaultFirstLine;
  }

  /**
    The first-line list is exactly the default list when, and only when, none
    of the six suggesting rules fires.
   */
  lemma DefaultFirstLineExactly(p: Patient)
    ensures Recommend(p).firstLineOptions == DefaultFirstLine <==>
      !((p.egfr.Some? && (p.egfr.value < 60.0 || p.ckd || p.proteinuria)) ||
        p.diabetes || p.cad || p.strokeTia || p.heartFailure || p.af || p.pregnancy)
  {
    SuggestedFirstLine(p);
    if RunRules(RuleOrder, p).firstLine == [] {
      DedupOfDistinct(DefaultFirstLine);
    } else {
      SuggestionsReplaceDefault(p);
    }
  }

  /** The combination suggestions are the same three for every patient. */
  lemma CombinationsConstant(p: Patient)
    ensures Recommend(p).combinations == CombinationAdvice
  {
    DedupOfDistinct(CombinationAdvice);
  }

  /**
    Potassium: a value of at least 5.0 lists the three hyperkalaemia items and
    at most 3.4 lists only the monotherapy caution; the two never occur
    together, and without a recorded value neither rule applies.
   */
  lemma PotassiumAdvice(p: Patient)
    ensures AceTemporarily in Recommend(p).avoidOrCaution <==> p.k.Some? && p.k.value >= 5.0
    ensures ArbTemporarily in Recommend(p).avoidOrCaution <==> p.k.Some? && p.k.value >= 5.0
    ensures PotassiumSparing in Recommend(p).avoidOrCaution <==> p.k.Some? && p.k.value >= 5.0
    ensures ThiazideMonotherapy in Recommend(p).avoidOrCaution <==> p.k.Some? && p.k.value <= 3.4
    ensures !(AceTemporarily in Recommend(p).avoidOrCaution && ThiazideMonotherapy in Recommend(p).avoidOrCaution)
    ensures p.k.None? ==> Hyperkalaemia !in Recommend(p).rationales && Hypokalaemia !in Recommend(p).rationales
  {
    FiringConditions(p);
    SingleSourceItems();
    AvoidListedOnlyBy(p, AceTemporarily, Hyperkalaemia, p.k.Some? && p.k.value >= 5.0);
    AvoidListedOnlyBy(p, ArbTemporarily, Hyperkalaemia, p.k.Some? && p.k.value >= 5.0);
    AvoidListedOnlyBy(p, PotassiumSparing, Hyperkalaemia, p.k.Some? && p.k.value >= 5.0);
    AvoidListedOnlyBy(p, ThiazideMonotherapy, Hypokalaemia, p.k.Some? && p.k.value <= 3.4);
    RationalesOfFiringRules(p, Hyperkalaemia);
    RationalesOfFiringRules(p, Hypokalaemia);
  }

  /**
    Thiazides are avoided when sodium is at most 133, with gout, or with urate
    above 0.42, and the item is listed once even when several of these hold.
   */
  lemma ThiazideAvoidance(p: Patient)
    ensures Thiazide in Recommend(p).avoidOrCaution <==>
      (p.na.Some? && p.na.value <= 133.0) || p.gout || (p.urate.Some? && p.urate.value > 0.42)
    ensures multiset(Recommend(p).avoidOrCaution)[Thiazide] ==
      if Thiazide in Recommend(p).avoidOrCaution then 1 else 0
  {
    FiringConditions(p);
    AvoidListedByEither(p, Thiazide, Hyponatraemia, Hyperuricaemia,
      p.na.Some? && p.na.value <= 133.0, p.gout || (p.urate.Some? && p.urate.value > 0.42));
    AvoidListedOnce(p, Thiazide);
  }

  /**
    Nephroprotection is suggested exactly when an eGFR is recorded and it is
    below 60 or the patient has CKD or proteinuria; without a recorded eGFR,
    CKD and proteinuria alone do not trigger it.
   */
  lemma NephroprotectionCondition(p: Patient)
    ensures AceOrArbNephroprotection in Recommend(p).firstLineOptions <==>
      p.egfr.Some? && (p.egfr.value < 60.0 || p.ckd || p.proteinuria)
  {
    FiringConditions(p);
    SingleSourceItems();
    FirstLineListedOnlyBy(p, AceOrArbNephroprotection, Nephroprotection,
      p.egfr.Some? && (p.egfr.value < 60.0 || p.ckd || p.proteinuria));
  }

  /** An eGFR below 30 triggers the low-eGFR cautions and, since it is also below 60, nephroprotection. */
  lemma LowEgfrAlsoNephroprotection(p: Patient)
    requires p.egfr.Some? && p.egfr.value < 30.0
    ensures ThiazideLowEgfr in Recommend(p).avoidOrCaution
    ensures PotassiumSparingCaution in Recommend(p).avoidOrCaution
    ensures AceOrArbNephroprotection in Recommend(p).firstLineOptions
    ensures LowEgfr in Recommend(p).rationales && Nephroprotection in Recommend(p).rationales
  {
    FiringConditions(p);
    SingleSourceItems();
    AvoidListedOnlyBy(p, ThiazideLowEgfr, LowEgfr, true);
    AvoidListedOnlyBy(p, PotassiumSparingCaution, LowEgfr, true);
    NephroprotectionCondition(p);
    RationalesOfFiringRules(p, LowEgfr);
    RationalesOfFiringRules(p, Nephroprotection);
  }

  /**
    Pregnancy lists ACE inhibitors, ARBs and MRAs to avoid and labetalol,
    nifedipine and methyldopa as first line; nothing else lists these.
   */
  lemma PregnancyAdvice(p: Patient)
    ensures AceInhibitor in Recommend(p).avoidOrCaution <==> p.pregnancy
    ensures Arb in Recommend(p).avoidOrCaution <==> p.pregnancy
    ensures Mra in Recommend(p).avoidOrCaution <==> p.pregnancy
    ensures Labetalol in Recommend(p).firstLineOptions <==> p.pregnancy
    ensures NifedipineRetard in Recommend(p).firstLineOptions <==> p.pregnancy
    ensures Methyldopa in Recommend(p).firstLineOptions <==> p.pregnancy
  {
    FiringConditions(p);
    SingleSourceItems();
    AvoidListedOnlyBy(p, AceInhibitor, Pregnancy, p.pregnancy);
    AvoidListedOnlyBy(p, Arb, Pregnancy, p.pregnancy);
    AvoidListedOnlyBy(p, Mra, Pregnancy, p.pregnancy);
    FirstLineListedOnlyBy(p, Labetalol, Pregnancy, p.pregnancy);
    FirstLineListedOnlyBy(p, NifedipineRetard, Pregnancy, p.pregnancy);
    FirstLineListedOnlyBy(p, Methyldopa, Pregnancy, p.pregnancy);
  }

  /** No rationale is given exactly when no rule fires. */
  lemma NoRationaleExactlyWhenNoRuleFires(p: Patient)
    ensures Recommend(p).rationales == [] <==> forall r :: !Fires(r, p)
  {
    var ra := Recommend(p).rationales;
    if ra != [] {
      RationalesOfFiringRules(p, ra[0]);
    }
    forall r | Fires(r, p) ensures ra != [] {
      RationalesOfFiringRules(p, r);
    }
  }

  /**
    Hyperkalaemia on its own leaves the default first-line list, ACE inhibitor
    or ARB included, while it also lists ACE inhibitors and ARBs to avoid.
   */
  lemma HyperkalaemiaKeepsDefaultFirstLine(p: Patient)
    requires p.k.Some? && p.k.value >= 5.0
    requires !((p.egfr.Some? && (p.egfr.value < 60.0 || p.ckd || p.proteinuria)) ||
               p.diabetes || p.cad || p.strokeTia || p.heartFailure || p.af || p.pregnancy)
    ensures Recommend(p).firstLineOptions == DefaultFirstLine
    ensures DefaultAceOrArb in Recommend(p).firstLineOptions
    ensures AceTemporarily in Recommend(p).avoidOrCaution && ArbTemporarily in Recommend(p).avoidOrCaution
  {
    DefaultFirstLineExactly(p);
    PotassiumAdvice(p);
  }

  // ---- What the engine reads ----

  /** Patients on whom the same rules fire get the same lists. */
  lemma {:induction false} SameFiringSameLists(rules: seq<Rule>, p: Patient, q: Patient)
    requires forall r :: Fires(r, p) == Fires(r, q)
    ensures RunRules(rules, p) == RunRules(rules, q)
  {
    if rules != [] {
      SameFiringSameLists(rules[..|rules| - 1], p, q);
    }
  }

  /** The rules' conditions read only the laboratory values and the comorbidity flags. */
  lemma FiresReadsOnlyRuleFields(p: Patient, q: Patient)
    requires q == p.(age := q.age, sex := q.sex, sbp := q.sbp, score2Pct := q.score2Pct,
                     smoker := q.smoker, creat := q.creat)
    ensures forall r :: Fires(r, p) == Fires(r, q)
  {
  }

  /**
    The engine reads only the laboratory values sodium, potassium, eGFR and
    urate and the comorbidity flags: age, sex, blood pressure, SCORE2,
    smoking and creatinine do not change its result.
   */
  lemma RecommendReadsOnlyRuleFields(p: Patient, q: Patient)
    requires q == p.(age := q.age, sex := q.sex, sbp := q.sbp, score2Pct := q.score2Pct,
                     smoker := q.smoker, creat := q.creat)
    ensures Recommend(p) == Recommend(q)
  {
    FiresReadsOnlyRuleFields(p, q);
    SameFiringSameLists(RuleOrder, p, q);
  }
}
