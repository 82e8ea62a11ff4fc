/**
 The scored batch and its cohort summary: how many patients were scored, how
 many the classifier flagged, the flagged rate, the mean risk percentage and
 how many patients fall in each risk group.
 */
module Cohort {
  import opened RiskTier

  /** What the classifier says about one patient: its label and the probability of label 1. */
  datatype Prediction = Prediction(predicted: int, probability: real)

  /** The three values the report attaches to one patient. */
  datatype Scored = Scored(predicted: int, riskPercent: real, group: Tier)

  /** Scores one patient: the probability as a percentage, and the group of that percentage. */
  function Score(p: Prediction): (s: Scored)
    ensures s.predicted == p.predicted
    ensures s.riskPercent == p.probability * 100.0
    ensures InBand(s.group, s.riskPercent)
  {
    var pct := p.probability * 100.0;
    Scored(p.predicted, pct, Stratify(pct))
  }

  // ---------------------------------------------------------------- flagged patients

  /** Number of rows whose label is 1, counted front to back. */
  function RiskyCount(rows: seq<Scored>): (n: nat)
    ensures n <= |rows|
  {
    if rows == [] then 0
    else RiskyCount(rows[..|rows| - 1]) + (if rows[|rows| - 1].predicted == 1 then 1 else 0)
  }

  /** The positions of the flagged rows. */
  ghost function RiskyIndices(rows: seq<Scored>): set<int>
  {
    set i | 0 <= i < |rows| && rows[i].predicted == 1
  }

  /** The count is the number of flagged positions. */
  lemma {:induction false} RiskyCountIsCardinality(rows: seq<Scored>)
    ensures RiskyCount(rows) == |RiskyIndices(rows)|
  {
    if rows != [] {
      var n := |rows| - 1;
      var front := rows[..n];
      RiskyCountIsCardinality(front);
      if rows[n].predicted == 1 {
        assert RiskyIndices(rows) == RiskyIndices(front) + {n};
      } else {
        assert RiskyIndices(rows) == RiskyIndices(front);
      }
    }
  }

  /** All rows are counted exactly when every label is 1. */
  lemma {:induction false} RiskyCountAll(rows: seq<Scored>)
    ensures RiskyCount(rows) == |rows| <==> forall i :: 0 <= i < |rows| ==> rows[i].predicted == 1
  {
    if rows != [] {
      var n := |rows| - 1;
      RiskyCountAll(rows[..n]);
      if RiskyCount(rows) == |rows| {
        forall i | 0 <= i < |rows|
          ensures rows[i].predicted == 1
        {
          if i < n {
            assert rows[..n][i] == rows[i];
          }
        }
      }
    }
  }

  /** No row is counted exactly when no label is 1. */
  lemma {:induction false} RiskyCountNone(rows: seq<Scored>)
    ensures RiskyCount(rows) == 0 <==> forall i :: 0 <= i < |rows| ==> rows[i].predicted != 1
  {
    if rows != [] {
      var n := |rows| - 1;
      RiskyCountNone(rows[..n]);
      assert forall i :: 0 <= i < n ==> rows[..n][i] == rows[i];
    }
  }

  /** `riskli / total * 100`: the flagged share in percent. */
  function RiskRate(risky: nat, total: nat): (r: real)
    requires 0 < total && risky <= total
    ensures 0.0 <= r <= 100.0
    ensures r == 100.0 <==> risky == total
    ensures r == 0.0 <==> risky == 0
  {
    risky as real / total as real * 100.0
  }

  // ---------------------------------------------------------------- mean risk

  /** Sum of the risk percentages, added front to back. */
  function RiskSum(rows: seq<Scored>): real
  {
    if rows == [] then 0.0
    else RiskSum(rows[..|rows| - 1]) + rows[|rows| - 1].riskPercent
  }

  /** Every risk percentage lies in [lo, hi]. */
  predicate PercentsWithin(rows: seq<Scored>, lo: real, hi: real)
  {
    forall i :: 0 <= i < |rows| ==> lo <= rows[i].riskPercent <= hi
  }

  /** When every percentage lies in [lo, hi], the sum lies between n*lo and n*hi. */
  lemma {:induction false} RiskSumWithin(rows: seq<Scored>, lo: real, hi: real)
    requires PercentsWithin(rows, lo, hi)
    ensures lo * |rows| as real <= RiskSum(rows) <= hi * |rows| as real
  {
    if rows != [] {
      var n := |rows| - 1;
      var front := rows[..n];
      assert forall i :: 0 <= i < n ==> front[i] == rows[i];
      RiskSumWithin(front, lo, hi);
      var x := rows[n].riskPercent;
      assert RiskSum(rows) == RiskSum(front) + x;
      assert lo <= x <= hi;
      assert lo * |rows| as real == lo * n as real + lo;
      assert hi * |rows| as real == hi * n as real + hi;
    }
  }

  /** The arithmetic mean of the risk percentages (`mean()` of the percentage column). */
  function MeanRisk(rows: seq<Scored>): (m: real)
    requires |rows| > 0
    ensures m * |rows| as real == RiskSum(rows)
  {
    RiskSum(rows) / |rows| as real
  }

  /** The mean of percentages within [lo, hi] is itself within [lo, hi]. */
  lemma MeanRiskWithin(rows: seq<Scored>, lo: real, hi: real)
    requires |rows| > 0
    requires PercentsWithin(rows, lo, hi)
    ensures lo <= MeanRisk(rows) <= hi
  {
    RiskSumWithin(rows, lo, hi);
    var n := |rows| as real;
    assert RiskSum(rows) / n >= lo * n / n;
    assert RiskSum(rows) / n <= hi * n / n;
  }

  /** Percentages taken from probabilities in [0, 1] have a mean in [0, 100]. */
  lemma MeanRiskPercent(rows: seq<Scored>)
    requires |rows| > 0
    ensures PercentsWithin(rows, 0.0, 100.0) ==> 0.0 <= MeanRisk(rows) <= 100.0
  {
    if PercentsWithin(rows, 0.0, 100.0) {
      MeanRiskWithin(rows, 0.0, 100.0);
    }
  }

  // ---------------------------------------------------------------- risk groups

  /** Number of rows in group t. */
  function TierCount(rows: seq<Scored>, t: Tier): (n: nat)
    ensures n <= |rows|
  {
    if rows == [] then 0
    else TierCount(rows[..|rows| - 1], t) + (if rows[|rows| - 1].group == t then 1 else 0)
  }

  /** The positions of the rows in group t. */
  ghost function TierIndices(rows: seq<Scored>, t: Tier): set<int>
  {
    set i | 0 <= i < |rows| && rows[i].group == t
  }

  lemma {:induction false} TierCountIsCardinality(rows: seq<Scored>, t: Tier)
    ensures TierCount(rows, t) == |TierIndices(rows, t)|
  {
    if rows != [] {
      var n := |rows| - 1;
      var front := rows[..n];
      TierCountIsCardinality(front, t);
      if rows[n].group == t {
        assert TierIndices(rows, t) == TierIndices(front, t) + {n};
      } else {
        assert TierIndices(rows, t) == TierIndices(front, t);
      }
    }
  }

  /** A group has a positive count exactly when some row is in it. */
  lemma TierPresent(rows: seq<Scored>, t: Tier)
    ensures TierCount(rows, t) > 0 <==> exists i :: 0 <= i < |rows| && rows[i].group == t
  {
  }

  /** The three group counts add up to the number of rows. */
  lemma {:induction false} TierCountsPartition(rows: seq<Scored>)
    ensures TierCount(rows, High) + TierCount(rows, Medium) + TierCount(rows, Low) == |rows|
  {
    if rows != [] {
      TierCountsPartition(rows[..|rows| - 1]);
    }
  }

  /** A row is consistent when its group is the group of its own percentage. */
  predicate Consistent(rows: seq<Scored>)
  {
    forall i :: 0 <= i < |rows| ==> rows[i].group == Stratify(rows[i].riskPercent)
  }

  /** In a consistent batch, group t holds exactly the rows whose percentage lies in t's band. */
  lemma TierIndicesByBand(rows: seq<Scored>, t: Tier)
    requires Consistent(rows)
    ensures TierIndices(rows, t) == set i | 0 <= i < |rows| && InBand(t, rows[i].riskPercent)
  {
  }

  /** The groups at least one row falls in. */
  ghost function PresentTiers(rows: seq<Scored>): set<Tier>
  {
    set i | 0 <= i < |rows| :: rows[i].group
  }

  /** Count of t in a distribution, zero when t is absent. */
  function CountOf(m: map<Tier, nat>, t: Tier): nat
  {
    if t in m then m[t] else 0
  }

  /** The sum of the counts a distribution holds. */
  function DistributionTotal(m: map<Tier, nat>): nat
  {
    CountOf(m, High) + CountOf(m, Medium) + CountOf(m, Low)
  }

  /**
   `value_counts` of the group column: one entry per group that occurs, with
   its number of rows; groups that do not occur have no entry.
   */
  function GroupCounts(rows: seq<Scored>): (m: map<Tier, nat>)
    ensures m.Keys == PresentTiers(rows)
    ensures forall t :: t in m ==> m[t] == TierCount(rows, t) && m[t] > 0
    ensures DistributionTotal(m) == |rows|
  {
    TierPresent(rows, High);
    TierPresent(rows, Medium);
    TierPresent(rows, Low);
    TierCountsPartition(rows);
    map t | t in {High, Medium, Low} && TierCount(rows, t) > 0 :: TierCount(rows, t)
  }

  // ---------------------------------------------------------------- summary

  /** The report summary of one batch. */
  datatype Summary = Summary(total: nat, risky: nat, riskRate: real, meanRisk: real,
                             groups: map<Tier, nat>)

  /**
   The summary the report shows: total, flagged count, flagged rate, mean
   risk percentage and group distribution. The batch must not be empty.
   */
  function Summarize(rows: seq<Scored>): (s: Summary)
    requires |rows| > 0
    ensures s.total == |rows|
    ensures s.risky == |RiskyIndices(rows)| <= s.total
    ensures s.riskRate == s.risky as real / s.total as real * 100.0
    ensures 0.0 <= s.riskRate <= 100.0
    ensures s.riskRate == 100.0 <==> forall i :: 0 <= i < |rows| ==> rows[i].predicted == 1
    ensures s.riskRate == 0.0 <==> forall i :: 0 <= i < |rows| ==> rows[i].predicted != 1
    ensures s.meanRisk == MeanRisk(rows)
    ensures PercentsWithin(rows, 0.0, 100.0) ==> 0.0 <= s.meanRisk <= 100.0
    ensures s.groups.Keys == PresentTiers(rows)
    ensures forall t :: t in s.groups ==> s.groups[t] == |TierIndices(rows, t)|
    ensures DistributionTotal(s.groups) == s.total
  {
    RiskyCountIsCardinality(rows);
    RiskyCountAll(rows);
    RiskyCountNone(rows);
    TierCountIsCardinality(rows, High);
    TierCountIsCardinality(rows, Medium);
    TierCountIsCardinality(rows, Low);
    var total := |rows|;
    var risky := RiskyCount(rows);
    MeanRiskPercent(rows);
    Summary(total, risky, RiskRate(risky, total), MeanRisk(rows), GroupCounts(rows))
  }
}
