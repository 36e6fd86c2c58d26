/**
  The engine's output as the source returns it: four lists of texts. Because
  every text function is injective, rendering the deduplicated items gives
  exactly the deduplicated texts, so the model over items loses nothing.
 */
module Rendering {
  import opened Wrappers
  import opened Patients
  import opened Distinct
  import opened Advice
  import opened MedRules

  const HyperkalaemiaRationale := "Hyperkaliæmi øger risiko ved ACE/ARB/K+-besparende; korrigér K+ og vurder årsag først."
  const HypokalaemiaRationale := "Hypokaliæmi kan forværres af tiazider; korrigér og/eller kombiner for at balancere K+."
  const HyponatraemiaRationale := "Hyponatriæmi kan forværres af tiazider; undgå tilstanden er korrigeret."
  const LowEgfrRationale := "Tiazider er ofte ineffektive ved eGFR <30; overvej loop-diuretika ved volumenoverload."
  const NephroprotectionRationale := "ACE/ARB reducerer albuminuri og beskytter nyrefunktion. Monitorér kreatinin/K+."
  const DiabetesRationale := "Ved diabetes og albuminuri anbefales RAAS-blokade som grundstamme."
  const AtheroscleroticRationale := "Sekundærprofylakse: RAAS-blokade og/eller CCB har outcome-data; beta-blokker ved angina/post-MI."
  const HeartFailureRationale := "HFrEF: livsforlængende behandling. Vurder ejection fraction og guideline-specifik titrering."
  const AtrialFibrillationRationale := "AF: beta-blokker kan være hensigtsmæssig ved behov for frekvenskontrol."
  const HyperuricaemiaRationale := "Tiazider kan øge urinsyre og trigge urinsyregigt."
  const AsthmaCopdRationale := "Bronkokonstriktionsrisiko ved ikke-selektive beta-blokkere."
  const EdemaTendencyRationale := "Amlodipin kan give ankelsvulst; RAAS-kombination reducerer risiko."
  const PregnancyRationale := "Graviditet: undgå RAAS-blokade. Foretræk labetalol, nifedipin (retard) eller methyldopa."

  /** The short rationale each rule gives when it fires. */
  function RationaleText(r: Rule): string {
    match r
    case Hyperkalaemia => HyperkalaemiaRationale
    case Hypokalaemia => HypokalaemiaRationale
    case Hyponatraemia => HyponatraemiaRationale
    case LowEgfr => LowEgfrRationale
    case Nephroprotection => NephroprotectionRationale
    case Diabetes => DiabetesRationale
    case Atherosclerotic => AtheroscleroticRationale
    case HeartFailure => HeartFailureRationale
    case AtrialFibrillation => AtrialFibrillationRationale
    case Hyperuricaemia => HyperuricaemiaRationale
    case AsthmaCopd => AsthmaCopdRationale
    case EdemaTendency => EdemaTendencyRationale
    case Pregnancy => PregnancyRationale
  }

  // The decoder below exists only to prove `RationaleText` injective
  // cheaply; it models nothing in the program.

  /** Recovers a rule from its rationale, reading characters from the end. */
  function DecodeRationale(s: string): Option<Rule> {
    if CharFromEnd(s, 2) == Some('t') then
      if CharFromEnd(s, 3) == Some('s') then Some(Hyperkalaemia)
      else if CharFromEnd(s, 3) == Some('e') then Some(Hyponatraemia)
      else if CharFromEnd(s, 3) == Some('g') then Some(Hyperuricaemia)
      else None
    else if CharFromEnd(s, 2) == Some('+') then
      if CharFromEnd(s, 4) == Some(' ') then Some(Hypokalaemia)
      else if CharFromEnd(s, 4) == Some('/') then Some(Nephroprotection)
      else None
    else if CharFromEnd(s, 2) == Some('d') then Some(LowEgfr)
    else if CharFromEnd(s, 2) == Some('e') then
      if CharFromEnd(s, 3) == Some('m') then Some(Diabetes)
      else if CharFromEnd(s, 3) == Some('r') then Some(AsthmaCopd)
      else None
    else if CharFromEnd(s, 2) == Some('I') then Some(Atherosclerotic)
    else if CharFromEnd(s, 2) == Some('g') then Some(HeartFailure)
    else if CharFromEnd(s, 2) == Some('l') then Some(AtrialFibrillation)
    else if CharFromEnd(s, 2) == Some('o') then Some(EdemaTendency)
    else if CharFromEnd(s, 2) == Some('a') then Some(Pregnancy)
    else None
  }

  lemma DecodeRationaleText(r: Rule)
    ensures DecodeRationale(RationaleText(r)) == Some(r)
  {
    match r
    case Hyperkalaemia =>
    case Hypokalaemia =>
    case Hyponatraemia =>
    case LowEgfr =>
    case Nephroprotection =>
    case Diabetes =>
    case Atherosclerotic =>
    case HeartFailure =>
    case AtrialFibrillation =>
    case Hyperuricaemia =>
    case AsthmaCopd =>
    case EdemaTendency =>
    case Pregnancy =>
  }

  /** Distinct rules give distinct rationales. */
  lemma RationaleTextInjective(a: Rule, b: Rule)
    ensures RationaleText(a) == RationaleText(b) ==> a == b
  {
    DecodeRationaleText(a);
    DecodeRationaleText(b);
  }

  /** The engine's result as the source returns it: four lists of texts. */
  datatype RenderedRecommendations = RenderedRecommendations(
    firstLineOptions: seq<string>,
    combinations: seq<string>,
    avoidOrCaution: seq<string>,
    rationales: seq<string>)

  function Render(rec: Recommendations): RenderedRecommendations {
    RenderedRecommendations(
      MapSeq(FirstLineText, rec.firstLineOptions),
      MapSeq(CombinationText, rec.combinations),
      MapSeq(CautionText, rec.avoidOrCaution),
      MapSeq(RationaleText, rec.rationales))
  }

  /** Removing duplicate first-line classes and removing duplicate texts agree. */
  lemma FirstLineDedupAgrees(xs: seq<FirstLineClass>)
    ensures Dedup(MapSeq(FirstLineText, xs)) == MapSeq(FirstLineText, Dedup(xs))
  {
    forall a: FirstLineClass, b: FirstLineClass ensures FirstLineText(a) == FirstLineText(b) ==> a == b {
      FirstLineTextInjective(a, b);
    }
    DedupMapInjective(FirstLineText, xs);
  }

  /** Removing duplicate combinations and removing duplicate texts agree. */
  lemma CombinationDedupAgrees(xs: seq<Combination>)
    ensures Dedup(MapSeq(CombinationText, xs)) == MapSeq(CombinationText, Dedup(xs))
  {
    forall a: Combination, b: Combination ensures CombinationText(a) == CombinationText(b) ==> a == b {
      CombinationTextInjective(a, b);
    }
    DedupMapInjective(CombinationText, xs);
  }

  /** Removing duplicate caution items and removing duplicate texts agree. */
  lemma CautionDedupAgrees(xs: seq<Caution>)
    ensures Dedup(MapSeq(CautionText, xs)) == MapSeq(CautionText, Dedup(xs))
  {
    forall a: Caution, b: Caution ensures CautionText(a) == CautionText(b) ==> a == b {
      CautionTextInjective(a, b);
    }
    DedupMapInjective(CautionText, xs);
  }

  /** Removing duplicate rationales and removing duplicate texts agree. */
  lemma RationaleDedupAgrees(xs: seq<Rule>)
    ensures Dedup(MapSeq(RationaleText, xs)) == MapSeq(RationaleText, Dedup(xs))
  {
    forall a: Rule, b: Rule ensures RationaleText(a) == RationaleText(b) ==> a == b {
      RationaleTextInjective(a, b);
    }
    DedupMapInjective(RationaleText, xs);
  }

  /**
    Rendering the model's result gives what the source computes on texts:
    every list is the order-preserving duplicate removal of the texts the
    rules appended, in the order they appended them.
   */
  lemma RenderMatchesTextEngine(p: Patient)
    ensures Render(Recommend(p)) == RenderedRecommendations(
      Dedup(MapSeq(FirstLineText, RawFirstLine(p))),
      Dedup(MapSeq(CombinationText, CombinationAdvice)),
      Dedup(MapSeq(CautionText, RunRules(RuleOrder, p).avoid)),
      Dedup(MapSeq(RationaleText, RunRules(RuleOrder, p).rationales)))
  {
    FirstLineDedupAgrees(RawFirstLine(p));
    CombinationDedupAgrees(CombinationAdvice);
    CautionDedupAgrees(RunRules(RuleOrder, p).avoid);
    RationaleDedupAgrees(RunRules(RuleOrder, p).rationales);
  }
}
