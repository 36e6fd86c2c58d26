/**
  The fixed advice the rules engine can emit. Every item is a constructor of a
  closed enumeration; `...Text` gives the exact (Danish) text the engine
  shows. Each text function is injective, shown by a decoder that recovers the
  item from its text, so removing duplicate items and removing duplicate texts
  are the same thing.
 */
module Advice {
  import opened Wrappers

  /** Drug classes suggested as first-line treatment. */
  datatype FirstLineClass =
    | AceOrArbNephroprotection | AceOrArbAlbuminuria | AceOrArb | DhpCcb
    | BetaBlockerHf | MraHfref | BetaBlockerRateControl
    | Labetalol | NifedipineRetard | Methyldopa
    | DefaultAceOrArb | DefaultThiazideLike

  /** Drug classes to avoid or use with caution. */
  datatype Caution =
    | AceTemporarily | ArbTemporarily | PotassiumSparing
    | ThiazideMonotherapy | Thiazide | ThiazideLowEgfr | PotassiumSparingCaution
    | NonSelectiveBetaBlockers | DhpCcbMonotherapy
    | AceInhibitor | Arb | Mra

  /** Two-drug combinations. */
  datatype Combination = AceArbWithCcb | AceArbWithThiazide | CcbWithThiazide

  const AceOrArbNephroprotectionText := "ACE-hæmmer eller ARB (nefroprotektion ved proteinuri/CKD)"
  const AceOrArbAlbuminuriaText := "ACE-hæmmer eller ARB (især ved albuminuri)"
  const AceOrArbText := "ACE-hæmmer eller ARB"
  const DhpCcbText := "DHP-CCB (amlodipin)"
  const BetaBlockerHfText := "Beta-blokker (HF-udgave)"
  const MraHfrefText := "Mineralokortikoid-antagonist (ved HFrEF og efter K+/nyrer)"
  const BetaBlockerRateControlText := "Beta-blokker (hvis frekvenskontrol ønskes)"
  const LabetalolText := "Labetalol"
  const NifedipineRetardText := "Nifedipin (retard)"
  const MethyldopaText := "Methyldopa"
  const DefaultAceOrArbText := "ACE-hæmmer ELLER ARB"
  const DefaultThiazideLikeText := "Tiazid-lignende diuretikum (indapamid/klortalidon)"

  function FirstLineText(c: FirstLineClass): string {
    match c
    case AceOrArbNephroprotection => AceOrArbNephroprotectionText
    case AceOrArbAlbuminuria => AceOrArbAlbuminuriaText
    case AceOrArb => AceOrArbText
    case DhpCcb => DhpCcbText
    case BetaBlockerHf => BetaBlockerHfText
    case MraHfref => MraHfrefText
    case BetaBlockerRateControl => BetaBlockerRateControlText
    case Labetalol => LabetalolText
    case NifedipineRetard => NifedipineRetardText
    case Methyldopa => MethyldopaText
    case DefaultAceOrArb => DefaultAceOrArbText
    case DefaultThiazideLike => DefaultThiazideLikeText
  }

  const AceTemporarilyText := "ACE-hæmmer (midlertidigt/individuelt)"
  const ArbTemporarilyText := "ARB (midlertidigt/individuelt)"
  const PotassiumSparingText := "K+-besparende diuretika (fx spironolakton)"
  const ThiazideMonotherapyText := "Tiazid(-lign.) diuretikum som monoterapi (overvej kombination med ACE/ARB eller K+-tilskud/kost)"
  const ThiazideText := "Tiazid(-lign.) diuretikum"
  const ThiazideLowEgfrText := "Tiazid(-lign.) diuretikum (nedsat effekt ved eGFR <30)"
  const PotassiumSparingCautionText := "K+-besparende diuretika (forsigtighed)"
  const NonSelectiveBetaBlockersText := "Ikke-selektive beta-blokkere"
  const DhpCcbMonotherapyText := "DHP-CCB som monoterapi (overvej kombination med ACE/ARB)"
  const AceInhibitorText := "ACE-hæmmer"
  const ArbText := "ARB"
  const MraText := "MRA (spironolakton/eplerenon)"

  function CautionText(c: Caution): string {
    match c
    case AceTemporarily => AceTemporarilyText
    case ArbTemporarily => ArbTemporarilyText
    case PotassiumSparing => PotassiumSparingText
    case ThiazideMonotherapy => ThiazideMonotherapyText
    case Thiazide => ThiazideText
    case ThiazideLowEgfr => ThiazideLowEgfrText
    case PotassiumSparingCaution => PotassiumSparingCautionText
    case NonSelectiveBetaBlockers => NonSelectiveBetaBlockersText
    case DhpCcbMonotherapy => DhpCcbMonotherapyText
    case AceInhibitor => AceInhibitorText
    case Arb => ArbText
    case Mra => MraText
  }

  const AceArbWithCcbText := "ACE-hæmmer/ARB + DHP-CCB"
  const AceArbWithThiazideText := "ACE-hæmmer/ARB + tiazid-lignende diuretikum"
  const CcbWithThiazideText := "DHP-CCB + tiazid-lignende diuretikum (hvis RAAS-blokade ikke tåles)"

  function CombinationText(c: Combination): string {
    match c
    case AceArbWithCcb => AceArbWithCcbText
    case AceArbWithThiazide => AceArbWithThiazideText
    case CcbWithThiazide => CcbWithThiazideText
  }

  // The decoders below exist only to prove the text functions injective
  // cheaply; they model nothing in the program.

  /** The `k`-th character counted from the end of `s` (the last one is `k == 1`), if `s` has one. */
  function CharFromEnd(s: string, k: nat): (c: Option<char>)
    requires k >= 1
    ensures c.Some? <==> k <= |s|
  {
    if k <= |s| then Some(s[|s| - k]) else None
  }

  /** Recovers a first-line class from its text, reading characters from the end. */
  function DecodeFirstLine(s: string): Option<FirstLineClass> {
    if CharFromEnd(s, 1) == Some(')') then
      if CharFromEnd(s, 2) == Some('D') then Some(AceOrArbNephroprotection)
      else if CharFromEnd(s, 2) == Some('i') then Some(AceOrArbAlbuminuria)
      else if CharFromEnd(s, 2) == Some('n') then
        if CharFromEnd(s, 3) == Some('i') then Some(DhpCcb)
        else if CharFromEnd(s, 3) == Some('o') then Some(DefaultThiazideLike)
        else None
      else if CharFromEnd(s, 2) == Some('e') then Some(BetaBlockerHf)
      else if CharFromEnd(s, 2) == Some('r') then Some(MraHfref)
      else if CharFromEnd(s, 2) == Some('s') then Some(BetaBlockerRateControl)
      else if CharFromEnd(s, 2) == Some('d') then Some(NifedipineRetard)
      else None
    else if CharFromEnd(s, 1) == Some('B') then
      if CharFromEnd(s, 5) == Some('r') then Some(AceOrArb)
      else if CharFromEnd(s, 5) == Some('R') then Some(DefaultAceOrArb)
      else None
    else if CharFromEnd(s, 1) == Some('l') then Some(Labetalol)
    else if CharFromEnd(s, 1) == Some('a') then Some(Methyldopa)
    else None
  }

  /** Recovers a caution item from its text, reading characters from the end. */
  function DecodeCaution(s: string): Option<Caution> {
    if CharFromEnd(s, 1) == Some(')') then
      if CharFromEnd(s, 2) == Some('t') then
        if CharFromEnd(s, 3) == Some('l') then
          if CharFromEnd(s, 28) == Some('r') then Some(AceTemporarily)
          else if CharFromEnd(s, 28) == Some('B') then Some(ArbTemporarily)
          else None
        else if CharFromEnd(s, 3) == Some('s') then Some(ThiazideMonotherapy)
        else None
      else if CharFromEnd(s, 2) == Some('n') then
        if CharFromEnd(s, 4) == Some('t') then Some(PotassiumSparing)
        else if CharFromEnd(s, 4) == Some('n') then Some(Mra)
        else None
      else if CharFromEnd(s, 2) == Some('0') then Some(ThiazideLowEgfr)
      else if CharFromEnd(s, 2) == Some('d') then Some(PotassiumSparingCaution)
      else if CharFromEnd(s, 2) == Some('B') then Some(DhpCcbMonotherapy)
      else None
    else if CharFromEnd(s, 1) == Some('m') then Some(Thiazide)
    else if CharFromEnd(s, 1) == Some('e') then Some(NonSelectiveBetaBlockers)
    else if CharFromEnd(s, 1) == Some('r') then Some(AceInhibitor)
    else if CharFromEnd(s, 1) == Some('B') then Some(Arb)
    else None
  }

  /** Recovers a combination from its text, which its last character determines. */
  function DecodeCombination(s: string): Option<Combination> {
    if CharFromEnd(s, 1) == Some('B') then Some(AceArbWithCcb)
    else if CharFromEnd(s, 1) == Some('m') then Some(AceArbWithThiazide)
    else if CharFromEnd(s, 1) == Some(')') then Some(CcbWithThiazide)
    else None
  }

  lemma DecodeFirstLineText(c: FirstLineClass)
    ensures DecodeFirstLine(FirstLineText(c)) == Some(c)
  {
  }

  lemma DecodeCautionText(c: Caution)
    ensures DecodeCaution(CautionText(c)) == Some(c)
  {
    match c
    case AceTemporarily =>
    case ArbTemporarily =>
    case PotassiumSparing =>
    case ThiazideMonotherapy =>
    case Thiazide =>
    case ThiazideLowEgfr =>
    case PotassiumSparingCaution =>
    case NonSelectiveBetaBlockers =>
    case DhpCcbMonotherapy =>
    case AceInhibitor =>
    case Arb =>
    case Mra =>
  }

  lemma DecodeCombinationText(c: Combination)
    ensures DecodeCombination(CombinationText(c)) == Some(c)
  {
  }

  /** Distinct first-line classes are shown with distinct texts. */
  lemma FirstLineTextInjective(a: FirstLineClass, b: FirstLineClass)
    ensures FirstLineText(a) == FirstLineText(b) ==> a == b
  {
    DecodeFirstLineText(a);
    DecodeFirstLineText(b);
  }

  /** Distinct caution items are shown with distinct texts. */
  lemma CautionTextInjective(a: Caution, b: Caution)
    ensures CautionText(a) == CautionText(b) ==> a == b
  {
    DecodeCautionText(a);
    DecodeCautionText(b);
  }

  /** Distinct combinations are shown with distinct texts. */
  lemma CombinationTextInjective(a: Combination, b: Combination)
    ensures CombinationText(a) == CombinationText(b) ==> a == b
  {
    DecodeCombinationText(a);
    DecodeCombinationText(b);
  }
}
