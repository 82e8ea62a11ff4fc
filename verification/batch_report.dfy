/**
 The batch path of the report: attach the classifier's results to the
 uploaded table as three new columns, then summarise the batch from those
 columns.
 */
module BatchReport {
  import opened Wrappers
  import opened RiskTier
  import opened Frame
  import opened Cohort

  /** Names of the three columns the report attaches, in the order it attaches them. */
  const PredictedColumn: string := "Kalp Krizi Riski"
  const PercentColumn: string := "Risk Olasılığı (%)"
  const GroupColumn: string := "Risk Grubu"

  function NewColumns(): seq<string>
  {
    [PredictedColumn, PercentColumn, GroupColumn]
  }

  /** The predicted labels as a column of integers. */
  function PredictedCells(preds: seq<Prediction>): (c: seq<Cell>)
    ensures |c| == |preds|
  {
    seq(|preds|, i requires 0 <= i < |preds| => Int(preds[i].predicted))
  }

  /** The probabilities, times 100, as a column of floats. */
  function PercentCells(preds: seq<Prediction>): (c: seq<Cell>)
    ensures |c| == |preds|
  {
    seq(|preds|, i requires 0 <= i < |preds| => Num(preds[i].probability * 100.0))
  }

  /** The stratifier applied to every cell of a float column. */
  function GroupCells(pct: seq<Cell>): (c: seq<Cell>)
    requires forall i :: 0 <= i < |pct| ==> pct[i].Num?
    ensures |c| == |pct|
  {
    seq(|pct|, i requires 0 <= i < |pct| => Text(Label(Stratify(pct[i].x))))
  }

  /**
   Annotation of the uploaded table: the predicted label column, then the
   percentage column, then the group column computed from the percentage
   column just written.
   */
  function Annotate(f: Frame, preds: seq<Prediction>): (g: Frame)
    requires Valid(f) && |preds| == |f.rows|
    ensures Valid(g) && |g.rows| == |f.rows|
    ensures PredictedColumn in g.columns && PercentColumn in g.columns && GroupColumn in g.columns
  {
    var f1 := SetColumn(f, PredictedColumn, PredictedCells(preds));
    var f2 := SetColumn(f1, PercentColumn, PercentCells(preds));
    ColumnOfSetColumn(f1, PercentColumn, PercentCells(preds));
    SetColumn(f2, GroupColumn, GroupCells(Column(f2, PercentColumn)))
  }

  /** The three cells one scored patient contributes to its row. */
  function ScoredCells(s: Scored): seq<Cell>
  {
    [Int(s.predicted), Num(s.riskPercent), Text(Label(s.group))]
  }

  /** Scores every patient of the batch, in order. */
  function ScoreAll(preds: seq<Prediction>): (rows: seq<Scored>)
    ensures |rows| == |preds|
    ensures forall i :: 0 <= i < |preds| ==> rows[i].predicted == preds[i].predicted
    ensures forall i :: 0 <= i < |preds| ==> rows[i].riskPercent == preds[i].probability * 100.0
    ensures forall i :: 0 <= i < |preds| ==> InBand(rows[i].group, rows[i].riskPercent)
  {
    seq(|preds|, i requires 0 <= i < |preds| => Score(preds[i]))
  }

  /** The upload has none of the three result column names. */
  predicate FreshNames(f: Frame)
  {
    PredictedColumn !in f.columns && PercentColumn !in f.columns && GroupColumn !in f.columns
  }

  /** When the uploaded table has none of the three names, each row is the old row followed by its three new cells. */
  lemma AnnotateAppends(f: Frame, preds: seq<Prediction>)
    requires Valid(f) && |preds| == |f.rows|
    requires FreshNames(f)
    ensures Annotate(f, preds).columns == f.columns + NewColumns()
    ensures forall i :: 0 <= i < |f.rows| ==>
      Annotate(f, preds).rows[i] == f.rows[i] + ScoredCells(Score(preds[i]))
  {
    AppendedHeader(f, preds);
    forall i | 0 <= i < |f.rows|
      ensures Annotate(f, preds).rows[i] == f.rows[i] + ScoredCells(Score(preds[i]))
    {
      AppendedRow(f, preds, i);
    }
  }

  lemma AppendedHeader(f: Frame, preds: seq<Prediction>)
    requires Valid(f) && |preds| == |f.rows|
    requires FreshNames(f)
    ensures Annotate(f, preds).columns == f.columns + NewColumns()
  {
    var f1 := SetColumn(f, PredictedColumn, PredictedCells(preds));
    assert PercentColumn !in f1.columns;
    var f2 := SetColumn(f1, PercentColumn, PercentCells(preds));
    assert GroupColumn !in f2.columns;
  }

  lemma AppendedRow(f: Frame, preds: seq<Prediction>, i: int)
    requires Valid(f) && |preds| == |f.rows|
    requires FreshNames(f)
    requires 0 <= i < |f.rows|
    ensures Annotate(f, preds).rows[i] == f.rows[i] + ScoredCells(Score(preds[i]))
  {
    var pc := PredictedCells(preds);
    var rc := PercentCells(preds);
    var f1 := SetColumn(f, PredictedColumn, pc);
    assert PercentColumn !in f1.columns;
    var f2 := SetColumn(f1, PercentColumn, rc);
    assert GroupColumn !in f2.columns;
    ColumnOfSetColumn(f1, PercentColumn, rc);
    var gc := GroupCells(Column(f2, PercentColumn));
    var s := Score(preds[i]);
    assert f1.rows[i] == f.rows[i] + [Int(s.predicted)];
    assert f2.rows[i] == f1.rows[i] + [Num(s.riskPercent)];
    assert gc[i] == Text(Label(s.group));
  }

  /** Every column of the uploaded table survives annotation; those not named like a new column keep their cells. */
  lemma AnnotateKeepsColumns(f: Frame, preds: seq<Prediction>, c: string)
    requires Valid(f) && |preds| == |f.rows|
    requires c in f.columns
    ensures c in Annotate(f, preds).columns
    ensures c !in NewColumns() ==> Column(Annotate(f, preds), c) == Column(f, c)
  {
    var f1 := SetColumn(f, PredictedColumn, PredictedCells(preds));
    var f2 := SetColumn(f1, PercentColumn, PercentCells(preds));
    ColumnOfSetColumn(f1, PercentColumn, PercentCells(preds));
    if c !in NewColumns() {
      ColumnOfSetColumnOther(f, PredictedColumn, PredictedCells(preds), c);
      ColumnOfSetColumnOther(f1, PercentColumn, PercentCells(preds), c);
      ColumnOfSetColumnOther(f2, GroupColumn, GroupCells(Column(f2, PercentColumn)), c);
    }
  }

  /** Annotation adds no column besides the three new ones. */
  lemma AnnotateAddsOnlyNew(f: Frame, preds: seq<Prediction>, c: string)
    requires Valid(f) && |preds| == |f.rows|
    requires c in Annotate(f, preds).columns
    ensures c in f.columns || c in NewColumns()
  {
  }

  // ---------------------------------------------------------------- reading the columns back

  /** One patient's three cells read back; any other shape of cell is rejected. */
  function DecodeRow(p: Cell, r: Cell, g: Cell): (s: Option<Scored>)
    ensures s.Some? ==> ScoredCells(s.value) == [p, r, g]
  {
    if p.Int? && r.Num? && g.Text? && ParseLabel(g.s).Some? then
      Some(Scored(p.n, r.x, ParseLabel(g.s).value))
    else None
  }

  /** Decoding inverts encoding for every scored patient. */
  lemma DecodeRowRoundTrip(s: Scored)
    ensures DecodeRow(Int(s.predicted), Num(s.riskPercent), Text(Label(s.group))) == Some(s)
  {
  }

  /** Three parallel columns read back row by row; one bad row rejects the batch. */
  function DecodeRows(ps: seq<Cell>, rs: seq<Cell>, gs: seq<Cell>): (o: Option<seq<Scored>>)
    requires |ps| == |rs| == |gs|
    ensures o.Some? ==> |o.value| == |ps|
    ensures o.Some? ==> forall i :: 0 <= i < |ps| ==> ScoredCells(o.value[i]) == [ps[i], rs[i], gs[i]]
  {
    if ps == [] then Some([])
    else
      match (DecodeRow(ps[0], rs[0], gs[0]), DecodeRows(ps[1..], rs[1..], gs[1..]))
      case (Some(s), Some(rest)) => Some([s] + rest)
      case _ => None
  }

  /** Rows that each decode make a batch that decodes to exactly them. */
  lemma {:induction false} DecodeRowsAll(ps: seq<Cell>, rs: seq<Cell>, gs: seq<Cell>, rows: seq<Scored>)
    requires |ps| == |rs| == |gs| == |rows|
    requires forall i :: 0 <= i < |rows| ==> DecodeRow(ps[i], rs[i], gs[i]) == Some(rows[i])
    ensures DecodeRows(ps, rs, gs) == Some(rows)
  {
    if rows != [] {
      DecodeRowsAll(ps[1..], rs[1..], gs[1..], rows[1..]);
      assert rows == [rows[0]] + rows[1..];
    }
  }

  /** The scored batch as the report sees it: read from the three attached columns. */
  function ReadScored(g: Frame): (o: Option<seq<Scored>>)
    requires Valid(g)
    ensures o.Some? ==> |o.value| == |g.rows|
  {
    if PredictedColumn in g.columns && PercentColumn in g.columns && GroupColumn in g.columns then
      DecodeRows(Column(g, PredictedColumn), Column(g, PercentColumn), Column(g, GroupColumn))
    else None
  }

  /** The three result columns of the annotated table hold exactly the cells written into them. */
  lemma AnnotatedColumns(f: Frame, preds: seq<Prediction>)
    requires Valid(f) && |preds| == |f.rows|
    ensures Column(Annotate(f, preds), PredictedColumn) == PredictedCells(preds)
    ensures Column(Annotate(f, preds), PercentColumn) == PercentCells(preds)
    ensures Column(Annotate(f, preds), GroupColumn) == GroupCells(PercentCells(preds))
  {
    var pc := PredictedCells(preds);
    var rc := PercentCells(preds);
    var f1 := SetColumn(f, PredictedColumn, pc);
    var f2 := SetColumn(f1, PercentColumn, rc);
    ColumnOfSetColumn(f1, PercentColumn, rc);
    var gc := GroupCells(Column(f2, PercentColumn));
    ColumnOfSetColumn(f, PredictedColumn, pc);
    ColumnOfSetColumnOther(f1, PercentColumn, rc, PredictedColumn);
    ColumnOfSetColumnOther(f2, GroupColumn, gc, PredictedColumn);
    ColumnOfSetColumnOther(f2, GroupColumn, gc, PercentColumn);
    ColumnOfSetColumn(f2, GroupColumn, gc);
  }

  /** Reading the annotated table back gives exactly the scored patients, in upload order. */
  lemma AnnotateReadBack(f: Frame, preds: seq<Prediction>)
    requires Valid(f) && |preds| == |f.rows|
    ensures ReadScored(Annotate(f, preds)) == Some(ScoreAll(preds))
  {
    AnnotatedColumns(f, preds);
    var pc := PredictedCells(preds);
    var rc := PercentCells(preds);
    var gc := GroupCells(rc);
    var rows := ScoreAll(preds);
    forall i | 0 <= i < |rows|
      ensures DecodeRow(pc[i], rc[i], gc[i]) == Some(rows[i])
    {
      var x := rows[i];
      assert x == Score(preds[i]);
      assert pc[i] == Int(x.predicted);
      assert rc[i] == Num(x.riskPercent);
      assert gc[i] == Text(Label(x.group));
      DecodeRowRoundTrip(x);
    }
    DecodeRowsAll(pc, rc, gc, rows);
  }

  // ---------------------------------------------------------------- the batch report

  /**
   The batch report: the annotated table and the summary computed from its
   columns. The uploaded batch must hold at least one patient.
   */
  function Report(f: Frame, preds: seq<Prediction>): (r: (Frame, Summary))
    requires Valid(f) && |preds| == |f.rows| && |f.rows| > 0
    ensures r.0 == Annotate(f, preds)
    ensures r.1.total == |f.rows|
    ensures r.1.risky == |set i | 0 <= i < |preds| && preds[i].predicted == 1|
    ensures r.1.riskRate == r.1.risky as real / |f.rows| as real * 100.0
    ensures 0.0 <= r.1.riskRate <= 100.0
    ensures r.1.meanRisk == MeanRisk(ScoreAll(preds))
    ensures (forall i :: 0 <= i < |preds| ==> 0.0 <= preds[i].probability <= 1.0) ==>
      0.0 <= r.1.meanRisk <= 100.0
    ensures r.1.groups.Keys == set i | 0 <= i < |preds| :: Stratify(preds[i].probability * 100.0)
    ensures forall t :: t in r.1.groups ==>
      r.1.groups[t] == |set i | 0 <= i < |preds| && Stratify(preds[i].probability * 100.0) == t|
    ensures DistributionTotal(r.1.groups) == |f.rows|
  {
    var g := Annotate(f, preds);
    AnnotateReadBack(f, preds);
    ScoreAllSummaryFacts(preds);
    (g, Summarize(ReadScored(g).value))
  }

  /** Restates what the summary says about the scored rows in terms of the predictions. */
  lemma ScoreAllSummaryFacts(preds: seq<Prediction>)
    ensures RiskyIndices(ScoreAll(preds)) == set i | 0 <= i < |preds| && preds[i].predicted == 1
    ensures (forall i :: 0 <= i < |preds| ==> 0.0 <= preds[i].probability <= 1.0) ==>
      PercentsWithin(ScoreAll(preds), 0.0, 100.0)
    ensures PresentTiers(ScoreAll(preds)) == set i | 0 <= i < |preds| :: Stratify(preds[i].probability * 100.0)
    ensures forall t ::
      TierIndices(ScoreAll(preds), t) == set i | 0 <= i < |preds| && Stratify(preds[i].probability * 100.0) == t
  {
  }
}
