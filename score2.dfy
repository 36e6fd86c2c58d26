/**
  SCORE2 handling: the age-banded intervention threshold and the decision
  whether a manually entered SCORE2 percentage crosses it.
 */
module Score2 {
  import opened Wrappers
  import opened Patients

  /** The lowest and highest age for which the threshold scheme gives a cut-off. */
  const MinThresholdAge := 40
  const MaxThresholdAge := 75

  predicate InThresholdRange(age: int) {
    MinThresholdAge <= age <= MaxThresholdAge
  }

  /**
    Percentage cut-off for the patient's age; `None` stands for the NaN the
    source returns outside the validated ages.
   */
  function InterventionThreshold(age: int): (th: Option<real>)
    ensures th.Some? <==> InThresholdRange(age)
    ensures th.Some? ==> th.value == 5.0 || th.value == 7.5 || th.value == 10.0
  {
    if 40 <= age <= 59 then Some(5.0)
    else if 60 <= age <= 69 then Some(7.5)
    else if 70 <= age <= 75 then Some(10.0)
    else None
  }

  /** The exact cut-off of each age band. */
  lemma ThresholdByBand(age: int)
    ensures 40 <= age <= 59 <==> InterventionThreshold(age) == Some(5.0)
    ensures 60 <= age <= 69 <==> InterventionThreshold(age) == Some(7.5)
    ensures 70 <= age <= 75 <==> InterventionThreshold(age) == Some(10.0)
    ensures !InThresholdRange(age) <==> InterventionThreshold(age) == None
  {
  }

  /** Older patients never get a lower cut-off than younger ones. */
  lemma ThresholdNonDecreasing(younger: int, older: int)
    requires InThresholdRange(younger) && InThresholdRange(older)
    requires younger <= older
    ensures InterventionThreshold(younger).value <= InterventionThreshold(older).value
  {
  }

  datatype Decision = Yes | No

  /** Which of the two explanatory notes accompanies the result (the note texts are not modelled). */
  datatype Note =
    | EnterScore2       // asks for a SCORE2 value / reminds of the valid ages
    | DsamThresholds    // lists the per-band thresholds that were applied

  datatype Score2Flag = Score2Flag(
    threshold: Option<real>,
    interventionRecommended: Option<Decision>,
    note: Note)

  /**
    Compares the manually entered SCORE2 percentage with the cut-off for the
    patient's age. No recommendation is given when the percentage is missing or
    the age lies outside 40-75; the threshold is reported whenever it exists.
   */
  function Score2InterventionFlag(p: Patient): (f: Score2Flag)
    ensures f.threshold == InterventionThreshold(p.age)
    ensures f.interventionRecommended == None <==>
      p.score2Pct == None || !InThresholdRange(p.age)
    ensures f.interventionRecommended == Some(Yes) <==>
      p.score2Pct.Some? && InThresholdRange(p.age) &&
      p.score2Pct.value >= InterventionThreshold(p.age).value
    ensures f.interventionRecommended == Some(No) <==>
      p.score2Pct.Some? && InThresholdRange(p.age) &&
      p.score2Pct.value < InterventionThreshold(p.age).value
    ensures f.note == DsamThresholds <==> f.interventionRecommended.Some?
  {
    var th := InterventionThreshold(p.age);
    if p.score2Pct.None? || !(40 <= p.age <= 75) then
      Score2Flag(th, None, EnterScore2)
    else
      var flag := p.score2Pct.value >= th.value;
      Score2Flag(th, Some(if flag then Yes else No), DsamThresholds)
  }

  /**
    A recommendation is stable under a higher score: if a patient is above the
    cut-off, the same patient with a larger SCORE2 percentage is too.
   */
  lemma FlagMonotoneInScore(p: Patient, higher: real)
    requires Score2InterventionFlag(p).interventionRecommended == Some(Yes)
    requires higher >= p.score2Pct.value
    ensures Score2InterventionFlag(p.(score2Pct := Some(higher))).interventionRecommended == Some(Yes)
  {
  }
}
