/** The two health indicators shown beside the form: the BMI category and the
    HbA1c category. Each starts at its default, "Normal", and an if/elif chain
    overwrites it when a threshold is crossed. */
module Indicators {

  datatype BmiStatus = Underweight | NormalWeight | Overweight | Obese {
    /** The text shown on the card and written to the report. */
    function Label(): string {
      match this
      case Underweight => "Underweight"
      case NormalWeight => "Normal"
      case Overweight => "Overweight"
      case Obese => "Obese"
    }

    /** Position on the scale from lightest to heaviest. */
    function Rank(): nat {
      match this
      case Underweight => 0
      case NormalWeight => 1
      case Overweight => 2
      case Obese => 3
    }
  }

  datatype HbA1cStatus = NormalHbA1c | Prediabetes | Diabetes {
    /** The text shown on the card and written to the report. */
    function Label(): string {
      match this
      case NormalHbA1c => "Normal"
      case Prediabetes => "Prediabetes"
      case Diabetes => "Diabetes"
    }

    /** Position on the scale from normal to diabetic. */
    function Rank(): nat {
      match this
      case NormalHbA1c => 0
      case Prediabetes => 1
      case Diabetes => 2
    }
  }

  /** The BMI category, read off the bands from the top down: each band is
      closed below and open above. */
  function BmiCategory(bmi: real): (s: BmiStatus)
    ensures s == Underweight <==> bmi < 18.5
    ensures s == NormalWeight <==> 18.5 <= bmi < 25.0
    ensures s == Overweight <==> 25.0 <= bmi < 30.0
    ensures s == Obese <==> 30.0 <= bmi
  {
    if bmi >= 30.0 then Obese
    else if bmi >= 25.0 then Overweight
    else if bmi >= 18.5 then NormalWeight
    else Underweight
  }

  /** The HbA1c category, read off the bands from the top down. */
  function HbA1cCategory(hba1c: real): (s: HbA1cStatus)
    ensures s == NormalHbA1c <==> hba1c < 5.7
    ensures s == Prediabetes <==> 5.7 <= hba1c < 6.5
    ensures s == Diabetes <==> 6.5 <= hba1c
  {
    if hba1c >= 6.5 then Diabetes
    else if hba1c >= 5.7 then Prediabetes
    else NormalHbA1c
  }

  /** The BMI card's default-then-overwrite chain. */
  method ClassifyBmi(bmi: real) returns (status: BmiStatus)
    ensures status == BmiCategory(bmi)
  {
    status := NormalWeight;
    if bmi < 18.5 {
      status := Underweight;
    } else if bmi >= 25.0 && bmi < 30.0 {
      status := Overweight;
    } else if bmi >= 30.0 {
      status := Obese;
    }
  }

  /** The HbA1c card's default-then-overwrite chain. */
  method ClassifyHbA1c(hba1c: real) returns (status: HbA1cStatus)
    ensures status == HbA1cCategory(hba1c)
  {
    status := NormalHbA1c;
    if hba1c >= 5.7 && hba1c < 6.5 {
      status := Prediabetes;
    } else if hba1c >= 6.5 {
      status := Diabetes;
    }
  }

  /** The word the card and the report print names the category unambiguously:
      no two BMI categories, and no two HbA1c categories, share a word. */
  lemma StatusWordsIdentifyCategories(a: BmiStatus, b: BmiStatus, x: HbA1cStatus, y: HbA1cStatus)
    ensures a.Label() == b.Label() <==> a == b
    ensures x.Label() == y.Label() <==> x == y
  {
  }

  /** A higher BMI never gives a lighter category. */
  lemma BmiCategoryMonotone(a: real, b: real)
    requires a <= b
    ensures BmiCategory(a).Rank() <= BmiCategory(b).Rank()
  {
  }

  /** A higher HbA1c never gives a milder category. */
  lemma HbA1cCategoryMonotone(a: real, b: real)
    requires a <= b
    ensures HbA1cCategory(a).Rank() <= HbA1cCategory(b).Rank()
  {
  }
}
