/** Turning the form's answers into the 14 numbers the scaler and the
    classifier were fit on: yes/no answers become 0/1, gender and smoking
    history are expanded into one-hot blocks, and everything is laid out in
    one fixed column order. */
module Encoding {
  import opened Inputs

  /** The smoking select box's labels mapped to the categories of the
      training data. */
  const SmokingMap: map<string, string> := map[
    "Never smoked" := "never",
    "Quit smoking" := "former",
    "Currently smoking" := "current",
    "Smoked earlier (not now)" := "not current",
    "Smoked at least once" := "ever"]

  /** The smoking categories in the column order of the smoking block. */
  const SmokingCategories: seq<string> := ["current", "ever", "former", "never", "not current"]

  /** Number of columns of the feature vector. */
  const FeatureCount: nat := 14

  /** Sum of a block of features. */
  function Total(s: seq<real>): real {
    if s == [] then 0.0 else s[0] + Total(s[1..])
  }

  /** A flag column holds exactly 0 or 1. */
  predicate IsFlag(x: real) {
    x == 0.0 || x == 1.0
  }

  /** A radio answer counts as 1 exactly when it reads "Yes"; anything else,
      "No" included, counts as 0. */
  function YesNoValue(answer: string): (v: real)
    ensures IsFlag(v)
    ensures v == 1.0 <==> answer == YesNoOptions[1]
  {
    if answer == "Yes" then 1.0 else 0.0
  }

  /** The gender flags, in the order female, male, other. */
  function GenderOneHot(gender: string): (flags: seq<real>)
    ensures |flags| == |GenderOptions|
    ensures forall i :: 0 <= i < |flags| ==> IsFlag(flags[i])
    ensures forall i :: 0 <= i < |flags| ==> (flags[i] == 1.0 <==> gender == GenderOptions[i])
  {
    [if gender == "Female" then 1.0 else 0.0,
     if gender == "Male" then 1.0 else 0.0,
     if gender == "Other" then 1.0 else 0.0]
  }

  /** The smoking flags, in the order current, ever, former, never, not current. */
  function SmokingOneHot(smoking: string): (flags: seq<real>)
    ensures |flags| == |SmokingCategories|
    ensures forall i :: 0 <= i < |flags| ==> IsFlag(flags[i])
    ensures forall i :: 0 <= i < |flags| ==> (flags[i] == 1.0 <==> smoking == SmokingCategories[i])
  {
    [if smoking == "current" then 1.0 else 0.0,
     if smoking == "ever" then 1.0 else 0.0,
     if smoking == "former" then 1.0 else 0.0,
     if smoking == "never" then 1.0 else 0.0,
     if smoking == "not current" then 1.0 else 0.0]
  }

  /** The model's input row. The smoking label must be a key of the map:
      any other label makes the lookup fail, and nothing catches that. */
  function FeatureVector(p: Profile): (v: seq<real>)
    requires p.smokingUi in SmokingMap
    ensures |v| == FeatureCount
    // the six raw columns: age, hypertension, heart disease, BMI, HbA1c, glucose
    ensures v[0] == p.age as real && v[3] == p.bmi && v[4] == p.hba1c && v[5] == p.bloodGlucose as real
    ensures IsFlag(v[1]) && (v[1] == 1.0 <==> p.hypertension == "Yes")
    ensures IsFlag(v[2]) && (v[2] == 1.0 <==> p.heartDisease == "Yes")
    // then the gender block, then the smoking block
    ensures v[6..9] == GenderOneHot(p.gender)
    ensures v[9..14] == SmokingOneHot(SmokingMap[p.smokingUi])
  {
    var smoking := SmokingMap[p.smokingUi];
    [p.age as real,
     YesNoValue(p.hypertension),
     YesNoValue(p.heartDisease),
     p.bmi,
     p.hba1c,
     p.bloodGlucose as real]
    + GenderOneHot(p.gender)
    + SmokingOneHot(smoking)
  }

  /** The smoking map is defined on exactly the five select-box labels, it
      reaches exactly the five categories, and no two labels share one. */
  lemma SmokingMapIsBijective()
    ensures SmokingMap.Keys == set o | o in SmokingOptions
    ensures SmokingMap.Values == set c | c in SmokingCategories
    ensures forall a, b :: a in SmokingMap && b in SmokingMap && SmokingMap[a] == SmokingMap[b] ==> a == b
  {
    SmokingMapValues();
    SmokingMapInjective();
  }

  /** The categories the smoking map reaches. */
  lemma SmokingMapValues()
    ensures SmokingMap.Values == set c | c in SmokingCategories
  {
    forall c | c in SmokingMap.Values ensures c in SmokingCategories {
      var k :| k in SmokingMap && SmokingMap[k] == c;
    }
    forall c | c in SmokingCategories ensures c in SmokingMap.Values {
      var k := if c == "current" then "Currently smoking"
               else if c == "ever" then "Smoked at least once"
               else if c == "former" then "Quit smoking"
               else if c == "never" then "Never smoked"
               else "Smoked earlier (not now)";
      assert SmokingMap[k] == c;
    }
  }

  /** No two labels of the smoking map share a category. */
  lemma SmokingMapInjective()
    ensures forall a, b :: a in SmokingMap && b in SmokingMap && SmokingMap[a] == SmokingMap[b] ==> a == b
  {
  }

  /** Exactly one flag of a block is set when the value is one of the block's
      categories, so the block sums to 1. */
  lemma {:induction false} OneHotTotal(flags: seq<real>, k: nat)
    requires k < |flags|
    requires flags[k] == 1.0
    requires forall i :: 0 <= i < |flags| && i != k ==> flags[i] == 0.0
    ensures Total(flags) == 1.0
  {
    if k == 0 {
      ZeroTotal(flags[1..]);
    } else {
      OneHotTotal(flags[1..], k - 1);
    }
  }

  /** A block with no flag set sums to 0. */
  lemma {:induction false} ZeroTotal(flags: seq<real>)
    requires forall i :: 0 <= i < |flags| ==> flags[i] == 0.0
    ensures Total(flags) == 0.0
  {
    if flags != [] {
      ZeroTotal(flags[1..]);
    }
  }

  /** A gender the select box offers sets exactly one gender flag. */
  lemma GenderBlockSumsToOne(gender: string)
    requires gender in GenderOptions
    ensures Total(GenderOneHot(gender)) == 1.0
  {
    var g :| 0 <= g < |GenderOptions| && GenderOptions[g] == gender;
    OneHotTotal(GenderOneHot(gender), g);
  }

  /** A category of the smoking map sets exactly one smoking flag. */
  lemma SmokingBlockSumsToOne(smoking: string)
    requires smoking in SmokingCategories
    ensures Total(SmokingOneHot(smoking)) == 1.0
  {
    var s :| 0 <= s < |SmokingCategories| && SmokingCategories[s] == smoking;
    OneHotTotal(SmokingOneHot(smoking), s);
  }

  /** For every profile the form can produce, the gender block and the smoking
      block of the feature vector each sum to exactly 1. */
  lemma OneHotBlocksSumToOne(p: Profile)
    requires ChoicesFromWidgets(p)
    ensures p.smokingUi in SmokingMap
    ensures Total(FeatureVector(p)[6..9]) == 1.0
    ensures Total(FeatureVector(p)[9..14]) == 1.0
  {
    SmokingMapIsBijective();
    GenderBlockSumsToOne(p.gender);
    assert SmokingMap[p.smokingUi] in SmokingMap.Values;
    SmokingBlockSumsToOne(SmokingMap[p.smokingUi]);
  }

  /** Two profiles the form can produce that encode to the same feature
      vector are the same profile: the encoding loses nothing. */
  lemma FeatureVectorInjective(a: Profile, b: Profile)
    requires ChoicesFromWidgets(a) && ChoicesFromWidgets(b)
    requires a.smokingUi in SmokingMap && b.smokingUi in SmokingMap
    requires FeatureVector(a) == FeatureVector(b)
    ensures a == b
  {
  }

  /** The worked example: a 60-year-old male current smoker with hypertension. */
  lemma EncodingExample()
    ensures var p := Profile(60, "Male", 32.0, 6.8, 150, "Yes", "No", "Currently smoking");
      FromWidgets(p) && p.smokingUi in SmokingMap &&
      FeatureVector(p) == [60.0, 1.0, 0.0, 32.0, 6.8, 150.0, 0.0, 1.0, 0.0, 1.0, 0.0, 0.0, 0.0, 0.0]
  {
  }
}
