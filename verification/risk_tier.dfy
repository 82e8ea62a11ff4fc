/**
 Risk stratification of one patient: the three-tier labelling the batch report
 applies to every risk percentage (`etiketle` in kalp_super_ust_seviye.py).
 */
module RiskTier {
  import opened Wrappers

  /** The three risk groups, from lowest to highest. */
  datatype Tier = Low | Medium | High

  /** Inclusive lower bound of the high group, in percent. */
  const HighThreshold: real := 70.0
  /** Inclusive lower bound of the medium group, in percent. */
  const MediumThreshold: real := 40.0

  /** Position of a tier in the order Low < Medium < High. */
  function Rank(t: Tier): nat
  {
    match t
    case Low => 0
    case Medium => 1
    case High => 2
  }

  /**
   The band of percentages each tier stands for, written as intervals:
   [70, +inf) for High, [40, 70) for Medium and (-inf, 40) for Low.
   */
  predicate InBand(t: Tier, risk: real)
  {
    match t
    case High => HighThreshold <= risk
    case Medium => MediumThreshold <= risk < HighThreshold
    case Low => risk < MediumThreshold
  }

  /**
   The stratifier: the first threshold the percentage reaches decides the
   group, so both bounds are inclusive from below.
   */
  function Stratify(risk: real): (t: Tier)
    ensures InBand(t, risk)
    ensures forall u :: InBand(u, risk) ==> u == t
  {
    if risk >= HighThreshold then High
    else if risk >= MediumThreshold then Medium
    else Low
  }

  /** Every percentage falls in exactly one band, and the stratifier picks it. */
  lemma StratifyIsBand(risk: real, t: Tier)
    ensures Stratify(risk) == t <==> InBand(t, risk)
  {
  }

  /** Exactly 70 is already High and exactly 40 is already Medium. */
  lemma BoundaryValues()
    ensures Stratify(70.0) == High
    ensures Stratify(40.0) == Medium
    ensures forall r :: r < 70.0 ==> Stratify(r) != High
    ensures forall r :: r < 40.0 ==> Stratify(r) == Low
  {
  }

  /** A higher percentage never lands in a lower group. */
  lemma StratifyMonotone(r1: real, r2: real)
    requires r1 <= r2
    ensures Rank(Stratify(r1)) <= Rank(Stratify(r2))
  {
  }

  /** The text written into the report's group column for each tier. */
  function Label(t: Tier): (r: string)
    ensures |r| > 5 && r[|r| - 5..] == " Risk"
  {
    match t
    case High => "Yüksek Risk"
    case Medium => "Orta Risk"
    case Low => "Düşük Risk"
  }

  /** Distinct tiers get distinct labels. */
  lemma LabelInjective(t: Tier, u: Tier)
    requires t != u
    ensures Label(t) != Label(u)
  {
  }

  /** Reads a group label back from the report; fails on any other text. */
  function ParseLabel(s: string): (r: Option<Tier>)
    ensures r.Some? ==> Label(r.value) == s
    ensures r.None? ==> forall t :: Label(t) != s
  {
    if s == Label(High) then Some(High)
    else if s == Label(Medium) then Some(Medium)
    else if s == Label(Low) then Some(Low)
    else None
  }

  /** Distinct tiers get distinct labels, so a label names its tier. */
  lemma LabelRoundTrip(t: Tier)
    ensures ParseLabel(Label(t)) == Some(t)
  {
  }
}
