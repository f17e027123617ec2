# Diabetes risk assessment: encoding and classification logic

This project models the deterministic logic in the Streamlit page `app.py` of a
diabetes risk assessment tool. It proves properties of that model in Dafny.

The page collects a patient's answers. It encodes them into the 14-column row
that a pre-trained scaler and classifier expect. It turns the classifier's
probability into a risk tier and shows a BMI and an HbA1c indicator. It lists
the risk factors that fixed rules detect, and it writes the tier into a
downloadable report. The modules are:

- `Inputs` (`inputs.dfy`): the answers as the widgets return them (numbers,
  and the chosen option's text for select boxes and radios), plus two
  predicates. `ChoicesFromWidgets` holds when every choice is one of its
  widget's options. `FromWidgets` adds the slider and number-input ranges.
- `Encoding` (`encoding.dfy`): the yes/no conversion, the gender one-hot, the
  smoking-label map with its one-hot, and the feature vector in its fixed
  column order. It proves that the smoking map is a bijection, that each
  one-hot block sums to 1, and that the encoding is injective on answers the
  form can produce.
- `Indicators` (`indicators.dfy`): BMI and HbA1c categories. Each has a
  reference function that reads the bands from the top down, and a method
  that follows the page's default-then-overwrite `if/elif` chain. The method
  is proved equal to the function.
- `Tiers` (`tiers.dfy`): the tier chosen by the result card and the report's
  separate "Risk Level" and recommendation expressions. It proves the
  three-way partition, monotonicity, and that the two copies of the
  thresholds agree.
- `RiskFactors` (`risk_factors.dfy`): the risk-factor list. The reference
  definition filters the seven candidates in checking order. A method
  follows the page's appends under successive `if`s and is proved equal to
  it. Lemmas cover order, absence of duplicates, the length bound, each
  rule's if-and-only-if, and the "no significant risk factors" message.

The card's advice for a moderate tier reads "Lifestyle modifications and
regular monitoring advised". The report's reads "Lifestyle modifications and
monitoring advised". The two copies agree on the tier but not on this
wording. `Tiers.ReportRecommendation` states exactly where they differ.

Two facts about the code shape the contracts:

- The encoder is partial. A smoking label outside the map's five keys makes
  the lookup at app.py:181 raise, and nothing catches it, so
  `Encoding.FeatureVector` requires a known key.
- The code validates no input ranges itself. It relies on the widgets, whose
  domains are the predicates `Inputs.ChoicesFromWidgets` and
  `Inputs.FromWidgets`.

## Model

| member | source | states |
|---|---|---|
| `Encoding.YesNoValue` | app.py:167-168 | a radio answer becomes a flag (0 or 1), and 1 exactly when it is "Yes" |
| `Encoding.GenderOneHot` | app.py:170-172 | three 0/1 flags; flag i is 1 exactly when the gender is the i-th select-box option (Female, Male, Other) |
| `Encoding.SmokingMapIsBijective` | app.py:160-181 | the map's keys are exactly the five select-box labels, its values exactly the five categories, and no two labels map to the same category |
| `Encoding.SmokingOneHot` | app.py:183-187 | five 0/1 flags in the order current, ever, former, never, not current; flag i is 1 exactly when the category is the i-th of that order |
| `Encoding.FeatureVector` | app.py:271-286 | 14 columns: age, hypertension flag, heart-disease flag, BMI, HbA1c, glucose, then the gender block, then the smoking block of the mapped label; only a label that is a key of the map is accepted |
| `Encoding.GenderBlockSumsToOne` | app.py:139-172 | each of the three select-box genders sets exactly one gender flag, so the block sums to 1 |
| `Encoding.SmokingBlockSumsToOne` | app.py:183-187 | each of the five smoking categories sets exactly one smoking flag, so the block sums to 1 |
| `Encoding.OneHotBlocksSumToOne` | app.py:170-187 | for every profile the form can produce, the gender block and the smoking block each sum to exactly 1 |
| `Encoding.FeatureVectorInjective` | app.py:271-286 | two profiles the form can produce with the same feature vector are equal, so the row loses no answer |
| `Encoding.EncodingExample` | app.py:271-286 | a 60-year-old hypertensive male current smoker with BMI 32, HbA1c 6.8 and glucose 150 encodes to [60,1,0,32,6.8,150,0,1,0,1,0,0,0,0] |
| `Indicators.BmiCategory` | app.py:221-231 | Underweight iff bmi < 18.5, Normal iff 18.5 <= bmi < 25, Overweight iff 25 <= bmi < 30, Obese iff bmi >= 30 |
| `Indicators.ClassifyBmi` | app.py:221-231 | the default-then-overwrite chain yields the same category as the band definition |
| `Indicators.StatusWordsIdentifyCategories` | app.py:221-241 | the status word printed on the card and in the report determines the category: two BMI categories share a word iff they are equal, and likewise for HbA1c |
| `Indicators.BmiCategoryMonotone` | app.py:221-231 | a higher BMI never yields a lighter category |
| `Indicators.HbA1cCategory` | app.py:234-241 | Normal iff h < 5.7, Prediabetes iff 5.7 <= h < 6.5, Diabetes iff h >= 6.5 |
| `Indicators.ClassifyHbA1c` | app.py:234-241 | the default-then-overwrite chain yields the same category as the band definition |
| `Indicators.HbA1cCategoryMonotone` | app.py:234-241 | a higher HbA1c never yields a milder category |
| `Tiers.CardTier` | app.py:323-372 | High iff p >= 0.40, Moderate iff 0.30 < p < 0.40, Low iff p <= 0.30, so exactly one branch fires |
| `Tiers.CardTierMonotone` | app.py:323-372 | a higher probability never yields a lower tier |
| `Tiers.TierBoundaries` | app.py:323-372 | 0.40 is High, 0.3999 Moderate, 0.30 Low, 0.3001 Moderate |
| `Tiers.ReportRiskLevel` | app.py:442 | the report's "Risk Level" word is the name of the tier the card chose, for every probability |
| `Tiers.ReportRecommendation` | app.py:445-447 | the report's recommendation equals the card's advice line exactly when the tier is not Moderate |
| `Tiers.ReportAgreesWithCard` | app.py:442-447 | two probabilities get the same report level, and the same recommendation, iff the card gives them the same tier |
| `RiskFactors.CollectRiskFactors` | app.py:399-414 | the successive appends build exactly the filter of the seven candidates by their rules |
| `RiskFactors.RiskFactorListSpec` | app.py:399-414 | at most 7 entries, strictly in checking order, no duplicates, and an entry is present iff it is a candidate whose rule holds |
| `RiskFactors.RiskFactorRules` | app.py:401-414 | each entry is present iff its rule holds: age >= 45, bmi >= 25, hba1c >= 5.7, glucose >= 100, hypertension "Yes", heart disease "Yes", smoking label "Quit smoking" or "Currently smoking" ("not current" and "ever" give no entry) |
| `RiskFactors.RiskFactorsAgreeWithIndicators` | app.py:403-406 | the BMI entry is present iff the BMI card shows Overweight or Obese; the HbA1c entry iff the HbA1c card shows something other than Normal |
| `RiskFactors.Section` | app.py:416-420 | the fixed message "No significant risk factors identified in your profile." replaces the bullets exactly when the list is empty; otherwise the bullets are the list |
| `RiskFactors.NoFactorsMessageIff` | app.py:399-420 | the message is shown iff no rule holds for the profile |
| `RiskFactors.RiskFactorExample` | app.py:399-414 | age 50, BMI 27, HbA1c 6.0, glucose 110, hypertension, no heart disease, former smoker give every entry except heart disease, in checking order |

## Left out

- Page configuration, CSS, the header, sidebar layout, expanders, the disclaimer and footer text, and all HTML and markdown rendering are presentational. The indicator colours and the result card's headline are also left out.
- Loading the model and scaler files, and the stop on a load failure (app.py:103-108), are file I/O.
- `scaler.transform` and `model.predict_proba` (app.py:289-290) are trained artefacts that cannot be seen. The probability is an input of type `Tiers.Probability`, a real in [0, 1].
- The gauge chart (app.py:298-320) is a third-party visualisation.
- The report's timestamp and the download file name depend on the clock. The download button is I/O.
- The `:.1f` number formatting in the risk-factor labels and the report is left out. The BMI, HbA1c and glucose entries carry the value their label prints, not the printed text.
- The report fields copied verbatim from the answers (age, gender, radio answers, smoking label) are not modelled. The report's status words are the `Label()` of the BMI and HbA1c categories, which `Indicators.StatusWordsIdentifyCategories` shows to be unambiguous.
- BMI, HbA1c and probability are exact reals. IEEE-754 rounding at the literals 0.3, 0.30, 0.40, 5.7, 6.5 and 18.5 is not captured.
- The widget ranges (age 1-120, BMI 10-60, HbA1c 3-15, glucose 50-300) appear only in the predicate `Inputs.FromWidgets`. No operation needs them.
