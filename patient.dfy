/**
  The patient record that the decision support reads: demographics, the SCORE2
  percentage read off the chart, laboratory values and comorbidity flags.
  Every optional field of the source is an `Option`; floating-point values are
  modelled as exact reals.
 */
module Patients {
  import opened Wrappers

  datatype Patient = Patient(
    age: int,
    sex: string,              // 'F' or 'M'; not read by any rule
    sbp: Option<int>,         // systolic blood pressure (mmHg); not read by any rule
    score2Pct: Option<real>,  // SCORE2 percentage as read from the chart
    smoker: Option<bool>,     // not read by any rule
    // laboratory values
    na: Option<real>,         // sodium (mmol/L)
    k: Option<real>,          // potassium (mmol/L)
    egfr: Option<real>,       // eGFR (mL/min/1.73 m2)
    creat: Option<real>,      // creatinine; not read by any rule
    urate: Option<real>,      // urate (mmol/L)
    // comorbidities
    diabetes: bool,
    ckd: bool,
    cad: bool,
    heartFailure: bool,
    af: bool,
    strokeTia: bool,
    pregnancy: bool,
    gout: bool,
    asthmaCopd: bool,
    peripheralEdemaTendency: bool,
    proteinuria: bool)
}
