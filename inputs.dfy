/** The raw answers the sidebar form collects, kept in the form the widgets
    hand them over: numbers for the sliders and number inputs, the chosen
    option's text for the select boxes and radio groups. */
module Inputs {

  /** Options of the gender select box, in display order. */
  const GenderOptions: seq<string> := ["Female", "Male", "Other"]

  /** Options of the hypertension and heart-disease radio groups. */
  const YesNoOptions: seq<string> := ["No", "Yes"]

  /** Options of the smoking-history select box, in display order. */
  const SmokingOptions: seq<string> :=
    ["Never smoked", "Quit smoking", "Currently smoking",
     "Smoked earlier (not now)", "Smoked at least once"]

  /** One patient's answers, as the form's variables hold them. */
  datatype Profile = Profile(
    age: int,
    gender: string,
    bmi: real,
    hba1c: real,
    bloodGlucose: int,
    hypertension: string,
    heartDisease: string,
    smokingUi: string)

  /** Every select box and radio group returned one of its own options. */
  predicate ChoicesFromWidgets(p: Profile) {
    p.gender in GenderOptions &&
    p.hypertension in YesNoOptions &&
    p.heartDisease in YesNoOptions &&
    p.smokingUi in SmokingOptions
  }

  /** Everything the widgets guarantee: the choices above, and the ranges the
      age slider, the BMI and HbA1c inputs and the glucose slider clamp to. */
  predicate FromWidgets(p: Profile) {
    ChoicesFromWidgets(p) &&
    1 <= p.age <= 120 &&
    10.0 <= p.bmi <= 60.0 &&
    3.0 <= p.hba1c <= 15.0 &&
    50 <= p.bloodGlucose <= 300
  }
}
