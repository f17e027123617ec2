/** The "Identified Risk Factors" list: seven fixed rules on the raw answers,
    checked in a fixed order, each appending its label when it holds. */
module RiskFactors {
  import opened Inputs
  import opened Encoding
  import opened Indicators

  /** One entry of the list. The BMI, HbA1c and glucose entries carry the
      value their label prints. */
  datatype RiskFactor =
    | AgeOver45
    | ElevatedBmi(bmi: real)
    | ElevatedHbA1c(hba1c: real)
    | ElevatedGlucose(level: int)
    | Hypertension
    | HeartDisease
    | SmokingHistory
  {
    /** Position of the rule in the order the checks run. */
    function Rank(): nat {
      match this
      case AgeOver45 => 0
      case ElevatedBmi(_) => 1
      case ElevatedHbA1c(_) => 2
      case ElevatedGlucose(_) => 3
      case Hypertension => 4
      case HeartDisease => 5
      case SmokingHistory => 6
    }
  }

  /** What the page shows under the heading: the bullets, or a fixed message
      when the list is empty. */
  datatype FactorSection = Bullets(factors: seq<RiskFactor>) | NoFactorsMessage(text: string)

  /** The fixed message of the empty case. */
  const NoFactorsText: string := "No significant risk factors identified in your profile."

  /** The smoking categories that count as a smoking history. */
  const SmokingRiskCategories: seq<string> := ["current", "former"]

  /** Every entry the list can hold for this profile, in checking order. */
  function Candidates(p: Profile): (c: seq<RiskFactor>)
    ensures |c| == 7
    ensures forall i :: 0 <= i < |c| ==> c[i].Rank() == i
  {
    [AgeOver45, ElevatedBmi(p.bmi), ElevatedHbA1c(p.hba1c), ElevatedGlucose(p.bloodGlucose),
     Hypertension, HeartDisease, SmokingHistory]
  }

  /** The rule that puts an entry on the list. */
  predicate Holds(f: RiskFactor, p: Profile)
    requires p.smokingUi in SmokingMap
  {
    match f
    case AgeOver45 => p.age >= 45
    case ElevatedBmi(_) => p.bmi >= 25.0
    case ElevatedHbA1c(_) => p.hba1c >= 5.7
    case ElevatedGlucose(_) => p.bloodGlucose >= 100
    case Hypertension => YesNoValue(p.hypertension) == 1.0
    case HeartDisease => YesNoValue(p.heartDisease) == 1.0
    case SmokingHistory => SmokingMap[p.smokingUi] in SmokingRiskCategories
  }

  /** The one-entry list of f when its rule holds, the empty list otherwise. */
  function Pick(f: RiskFactor, p: Profile): seq<RiskFactor>
    requires p.smokingUi in SmokingMap
  {
    if Holds(f, p) then [f] else []
  }

  /** The entries of fs whose rule holds, in the order of fs. */
  function Select(fs: seq<RiskFactor>, p: Profile): (r: seq<RiskFactor>)
    requires p.smokingUi in SmokingMap
  {
    if fs == [] then []
    else Pick(fs[0], p) + Select(fs[1..], p)
  }

  /** The list the page builds for a profile. */
  function RiskFactorList(p: Profile): seq<RiskFactor>
    requires p.smokingUi in SmokingMap
  {
    Select(Candidates(p), p)
  }

  /** An entry is selected exactly when it is a candidate whose rule holds. */
  lemma {:induction false} SelectMembership(fs: seq<RiskFactor>, p: Profile, f: RiskFactor)
    requires p.smokingUi in SmokingMap
    ensures f in Select(fs, p) <==> f in fs && Holds(f, p)
  {
    if fs != [] {
      SelectMembership(fs[1..], p, f);
      assert fs == [fs[0]] + fs[1..];
    }
  }

  /** Selecting never lengthens the list. */
  lemma {:induction false} SelectLength(fs: seq<RiskFactor>, p: Profile)
    requires p.smokingUi in SmokingMap
    ensures |Select(fs, p)| <= |fs|
  {
    if fs != [] {
      SelectLength(fs[1..], p);
    }
  }

  /** Selecting from a list whose ranks strictly increase gives a list whose
      ranks strictly increase. */
  lemma {:induction false} SelectKeepsOrder(fs: seq<RiskFactor>, p: Profile)
    requires p.smokingUi in SmokingMap
    requires forall i, j :: 0 <= i < j < |fs| ==> fs[i].Rank() < fs[j].Rank()
    ensures var r := Select(fs, p);
      forall i, j :: 0 <= i < j < |r| ==> r[i].Rank() < r[j].Rank()
  {
    if fs != [] {
      var rest := Select(fs[1..], p);
      SelectKeepsOrder(fs[1..], p);
      if Holds(fs[0], p) {
        forall k | 0 <= k < |rest| ensures fs[0].Rank() < rest[k].Rank() {
          SelectMembership(fs[1..], p, rest[k]);
          var m :| 0 <= m < |fs[1..]| && fs[1..][m] == rest[k];
          assert fs[m + 1] == rest[k];
        }
        var r := Select(fs, p);
        assert r == [fs[0]] + rest;
        forall i, j | 0 <= i < j < |r| ensures r[i].Rank() < r[j].Rank() {
          if i > 0 {
            assert r[i] == rest[i - 1] && r[j] == rest[j - 1];
          } else {
            assert r[j] == rest[j - 1];
          }
        }
      }
    }
  }

  /** The list holds at most the seven entries, in checking order, each at most
      once, and each entry is there exactly when its rule holds. */
  lemma RiskFactorListSpec(p: Profile)
    requires p.smokingUi in SmokingMap
    ensures var r := RiskFactorList(p);
      |r| <= 7 &&
      (forall i, j :: 0 <= i < j < |r| ==> r[i].Rank() < r[j].Rank()) &&
      (forall i, j :: 0 <= i < j < |r| ==> r[i] != r[j]) &&
      (forall f :: f in r <==> f in Candidates(p) && Holds(f, p))
  {
    var c := Candidates(p);
    SelectLength(c, p);
    SelectKeepsOrder(c, p);
    forall f ensures f in RiskFactorList(p) <==> f in c && Holds(f, p) {
      SelectMembership(c, p, f);
    }
  }

  /** Rule by rule: each label is on the list exactly when its condition on
      the raw answers holds. "not current" and "ever" smokers get no smoking
      entry. */
  lemma RiskFactorRules(p: Profile)
    requires p.smokingUi in SmokingMap
    ensures var r := RiskFactorList(p);
      (AgeOver45 in r <==> p.age >= 45) &&
      (ElevatedBmi(p.bmi) in r <==> p.bmi >= 25.0) &&
      (ElevatedHbA1c(p.hba1c) in r <==> p.hba1c >= 5.7) &&
      (ElevatedGlucose(p.bloodGlucose) in r <==> p.bloodGlucose >= 100) &&
      (Hypertension in r <==> p.hypertension == "Yes") &&
      (HeartDisease in r <==> p.heartDisease == "Yes") &&
      (SmokingHistory in r <==> p.smokingUi in ["Quit smoking", "Currently smoking"])
  {
    var c := Candidates(p);
    SelectMembership(c, p, AgeOver45);
    SelectMembership(c, p, ElevatedBmi(p.bmi));
    SelectMembership(c, p, ElevatedHbA1c(p.hba1c));
    SelectMembership(c, p, ElevatedGlucose(p.bloodGlucose));
    SelectMembership(c, p, Hypertension);
    SelectMembership(c, p, HeartDisease);
    SelectMembership(c, p, SmokingHistory);
    assert c[0] == AgeOver45 && c[4] == Hypertension && c[5] == HeartDisease && c[6] == SmokingHistory;
  }

  /** The BMI and HbA1c entries appear exactly when the indicator cards show
      something other than a normal (or lighter) category. */
  lemma RiskFactorsAgreeWithIndicators(p: Profile)
    requires p.smokingUi in SmokingMap
    ensures var r := RiskFactorList(p);
      (ElevatedBmi(p.bmi) in r <==> BmiCategory(p.bmi) in {Overweight, Obese}) &&
      (ElevatedHbA1c(p.hba1c) in r <==> HbA1cCategory(p.hba1c) != NormalHbA1c)
  {
    RiskFactorRules(p);
  }

  /** Selecting from a non-empty list: the first entry's pick, then the rest. */
  lemma SelectCons(fs: seq<RiskFactor>, p: Profile)
    requires p.smokingUi in SmokingMap
    requires fs != []
    ensures Select(fs, p) == Pick(fs[0], p) + Select(fs[1..], p)
  {
  }

  /** The list is the seven candidates' picks, one after another. */
  lemma RiskFactorListUnrolled(p: Profile)
    requires p.smokingUi in SmokingMap
    ensures RiskFactorList(p) ==
      Pick(AgeOver45, p) + Pick(ElevatedBmi(p.bmi), p) + Pick(ElevatedHbA1c(p.hba1c), p) +
      Pick(ElevatedGlucose(p.bloodGlucose), p) + Pick(Hypertension, p) + Pick(HeartDisease, p) +
      Pick(SmokingHistory, p)
  {
    var c := Candidates(p);
    assert Select(c[7..], p) == [];
    assert Select(c[6..], p) == Pick(SmokingHistory, p) + Select(c[7..], p) by {
      SelectCons(c[6..], p);
      assert c[6..][0] == SmokingHistory && c[6..][1..] == c[7..];
    }
    assert Select(c[5..], p) == Pick(HeartDisease, p) + Select(c[6..], p) by {
      SelectCons(c[5..], p);
      assert c[5..][0] == HeartDisease && c[5..][1..] == c[6..];
    }
    assert Select(c[4..], p) == Pick(Hypertension, p) + Select(c[5..], p) by {
      SelectCons(c[4..], p);
      assert c[4..][0] == Hypertension && c[4..][1..] == c[5..];
    }
    assert Select(c[3..], p) == Pick(ElevatedGlucose(p.bloodGlucose), p) + Select(c[4..], p) by {
      SelectCons(c[3..], p);
      assert c[3..][0] == ElevatedGlucose(p.bloodGlucose) && c[3..][1..] == c[4..];
    }
    assert Select(c[2..], p) == Pick(ElevatedHbA1c(p.hba1c), p) + Select(c[3..], p) by {
      SelectCons(c[2..], p);
      assert c[2..][0] == ElevatedHbA1c(p.hba1c) && c[2..][1..] == c[3..];
    }
    assert Select(c[1..], p) == Pick(ElevatedBmi(p.bmi), p) + Select(c[2..], p) by {
      SelectCons(c[1..], p);
      assert c[1..][0] == ElevatedBmi(p.bmi) && c[1..][1..] == c[2..];
    }
    assert Select(c[0..], p) == Pick(AgeOver45, p) + Select(c[1..], p) by {
      SelectCons(c[0..], p);
      assert c[0..][0] == AgeOver45 && c[0..][1..] == c[1..];
    }
    assert c[0..] == c;
    Reassociate(Pick(AgeOver45, p), Pick(ElevatedBmi(p.bmi), p), Pick(ElevatedHbA1c(p.hba1c), p),
      Pick(ElevatedGlucose(p.bloodGlucose), p), Pick(Hypertension, p), Pick(HeartDisease, p),
      Pick(SmokingHistory, p));
  }

  /** Concatenating seven lists from the right or from the left gives the same list. */
  lemma Reassociate<T>(a: seq<T>, b: seq<T>, c: seq<T>, d: seq<T>, e: seq<T>, f: seq<T>, g: seq<T>)
    ensures a + (b + (c + (d + (e + (f + g))))) == a + b + c + d + e + f + g
  {
  }

  /** The page's appends under successive ifs, one rule after another. */
  method CollectRiskFactors(p: Profile) returns (factors: seq<RiskFactor>)
    requires p.smokingUi in SmokingMap
    ensures factors == RiskFactorList(p)
  {
    // picked: the picks of the rules checked so far; factors always equals it
    factors := [];
    if p.age >= 45 {
      factors := factors + [AgeOver45];
    }
    ghost var picked := Pick(AgeOver45, p);
    assert factors == picked;
    if p.bmi >= 25.0 {
      factors := factors + [ElevatedBmi(p.bmi)];
    }
    picked := picked + Pick(ElevatedBmi(p.bmi), p);
    assert factors == picked;
    if p.hba1c >= 5.7 {
      factors := factors + [ElevatedHbA1c(p.hba1c)];
    }
    picked := picked + Pick(ElevatedHbA1c(p.hba1c), p);
    assert factors == picked;
    if p.bloodGlucose >= 100 {
      factors := factors + [ElevatedGlucose(p.bloodGlucose)];
    }
    picked := picked + Pick(ElevatedGlucose(p.bloodGlucose), p);
    assert factors == picked;
    if YesNoValue(p.hypertension) == 1.0 {
      factors := factors + [Hypertension];
    }
    picked := picked + Pick(Hypertension, p);
    assert factors == picked;
    if YesNoValue(p.heartDisease) == 1.0 {
      factors := factors + [HeartDisease];
    }
    picked := picked + Pick(HeartDisease, p);
    assert factors == picked;
    if SmokingMap[p.smokingUi] in ["current", "former"] {
      factors := factors + [SmokingHistory];
    }
    picked := picked + Pick(SmokingHistory, p);
    assert factors == picked;
    RiskFactorListUnrolled(p);
  }

  /** Bullets for a non-empty list, the fixed message for an empty one. */
  function Section(factors: seq<RiskFactor>): (s: FactorSection)
    ensures s.NoFactorsMessage? <==> factors == []
    ensures s.NoFactorsMessage? ==> s.text == NoFactorsText
    ensures s.Bullets? ==> s.factors == factors
  {
    if |factors| > 0 then Bullets(factors) else NoFactorsMessage(NoFactorsText)
  }

  /** The message replaces the list exactly when no rule holds. */
  lemma NoFactorsMessageIff(p: Profile)
    requires p.smokingUi in SmokingMap
    ensures Section(RiskFactorList(p)).NoFactorsMessage? <==>
      p.age < 45 && p.bmi < 25.0 && p.hba1c < 5.7 && p.bloodGlucose < 100 &&
      p.hypertension != "Yes" && p.heartDisease != "Yes" &&
      SmokingMap[p.smokingUi] !in SmokingRiskCategories
  {
    var r := RiskFactorList(p);
    RiskFactorListSpec(p);
    RiskFactorRules(p);
    if r != [] {
      assert r[0] in r;
    }
  }

  /** The worked example: a 50-year-old former smoker with hypertension and
      no heart disease gets every entry but heart disease. */
  lemma RiskFactorExample()
    ensures var p := Profile(50, "Female", 27.0, 6.0, 110, "Yes", "No", "Quit smoking");
      p.smokingUi in SmokingMap &&
      RiskFactorList(p) == [AgeOver45, ElevatedBmi(27.0), ElevatedHbA1c(6.0), ElevatedGlucose(110),
                            Hypertension, SmokingHistory]
  {
  }
}
