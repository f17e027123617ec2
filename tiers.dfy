/** From the classifier's probability to a risk tier. The on-screen result
    card picks the tier with an if/elif/else; the downloadable report picks
    its "Risk Level" and its recommendation with two conditional expressions
    of its own. */
module Tiers {

  /** The probability the classifier assigns to the positive class. */
  type Probability = p: real | 0.0 <= p <= 1.0 witness 0.0

  /** At or above this probability the risk is high. */
  const Threshold: real := 0.40

  /** Strictly above this probability (and below Threshold) the risk is moderate. */
  const ModerateFloor: real := 0.30

  datatype RiskTier = Low | Moderate | High {
    /** Position from lowest to highest risk. */
    function Rank(): nat {
      match this
      case Low => 0
      case Moderate => 1
      case High => 2
    }

    /** The "Risk Level" word the report uses for this tier. */
    function LevelName(): string {
      match this
      case Low => "Low"
      case Moderate => "Moderate"
      case High => "High"
    }

    /** The advice line under the result card's probability. */
    function CardAdvice(): string {
      match this
      case Low => "Maintain healthy lifestyle with regular check-ups"
      case Moderate => "Lifestyle modifications and regular monitoring advised"
      case High => "Immediate medical consultation recommended"
    }
  }

  /** The tier of the result card: exactly one branch applies to every
      probability; 0.30 itself is low and 0.40 itself is high. */
  function CardTier(p: Probability): (t: RiskTier)
    ensures t == High <==> p >= 0.40
    ensures t == Moderate <==> 0.30 < p < 0.40
    ensures t == Low <==> p <= 0.30
  {
    if p >= Threshold then High
    else if ModerateFloor < p < Threshold then Moderate
    else Low
  }

  /** The report's "Risk Level" line: the same word as the card's tier. */
  function ReportRiskLevel(p: Probability): (level: string)
    ensures level == CardTier(p).LevelName()
  {
    if p >= Threshold then "High" else if p > 0.3 then "Moderate" else "Low"
  }

  /** The report's recommendation sentence: the card's advice line for a high
      or a low tier; for a moderate tier the report words it differently
      (it leaves out "regular"). */
  function ReportRecommendation(p: Probability): (advice: string)
    ensures advice == CardTier(p).CardAdvice() <==> CardTier(p) != Moderate
  {
    if p >= Threshold then "Immediate medical consultation recommended"
    else if p > 0.3 then "Lifestyle modifications and monitoring advised"
    else "Maintain healthy lifestyle with regular check-ups"
  }

  /** A higher probability never gives a lower tier. */
  lemma CardTierMonotone(p: Probability, q: Probability)
    requires p <= q
    ensures CardTier(p).Rank() <= CardTier(q).Rank()
  {
  }

  /** The two copies of the thresholds pick the same tier for every
      probability, and different tiers get different report lines. */
  lemma ReportAgreesWithCard(p: Probability, q: Probability)
    ensures ReportRiskLevel(p) == ReportRiskLevel(q) <==> CardTier(p) == CardTier(q)
    ensures ReportRecommendation(p) == ReportRecommendation(q) <==> CardTier(p) == CardTier(q)
  {
  }

  /** The boundary cases around both thresholds. */
  lemma TierBoundaries()
    ensures CardTier(0.40) == High && CardTier(0.3999) == Moderate
    ensures CardTier(0.30) == Low && CardTier(0.3001) == Moderate
  {
  }
}
