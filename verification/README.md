# Batch risk stratification and cohort summary of the heart-attack risk report

This project models the batch path of the Streamlit heart-attack risk app
`kalp_super_ust_seviye.py`. A clinician uploads a table of patients. The app
scores them with a pre-trained classifier and attaches three columns to the
table:

- "Kalp Krizi Riski": the predicted label.
- "Risk Olasılığı (%)": the probability of label 1, times 100.
- "Risk Grubu": the risk group of that percentage.

It then shows a summary of the batch: the number of patients, the number
flagged (label 1), the flagged rate in percent, the mean risk percentage, and
how many patients fall in each risk group.

The classifier is not modelled. Its outputs come in as inputs: one
`Prediction(predicted, probability)` per uploaded row, in row order.
Probabilities and percentages are Dafny `real`s.

Modules:

- `Wrappers`: the `Option` type.
- `RiskTier`: the three groups (`Tier`), the stratifier `Stratify` (the
  app's `etiketle`) with its thresholds 70 and 40, and the group labels
  "Yüksek Risk", "Orta Risk" and "Düşük Risk".
- `Frame`: the uploaded table. It is a header of distinct column names plus
  rows of cells. `SetColumn` is pandas column assignment `frame[name] = values`:
  an existing column is overwritten in place, and a new one is appended at
  the end. `Column` reads one column back.
- `Cohort`: the scored patients (`Scored`), the counts and sums over them, and
  the `Summary`. The summary holds total, flagged count, flagged rate, mean
  risk and the group distribution.
- `BatchReport`: annotation of the table with the three columns (`Annotate`),
  reading the scored patients back out of those columns (`ReadScored`), and
  the whole batch report (`Report`), whose summary is computed from the
  annotated table's columns as the app does.

Three behaviours of the code shape the model's contracts:

- **Empty batch.** The code has no guard before `riskli / total * 100`
  (line 89). The scaler's `transform` at line 66 refuses an upload with zero
  rows before that line is reached. So `Summarize` and `Report` require a
  non-empty batch.
- **Absent groups.** `value_counts` (line 100) lists only the groups that
  occur. So `GroupCounts` has no entry for an absent group, and `CountOf`
  reads such a group as 0.
- **Probability range.** The code never checks that a probability lies in
  [0, 1]. So the mean-risk bound is stated under that condition.

## Model

| member | source | states |
|---|---|---|
| RiskTier.Stratify | kalp_super_ust_seviye.py:73-79 | the group returned is the one whose band contains the percentage ([70,∞) High, [40,70) Medium, below 40 Low), and no other group's band contains it |
| RiskTier.StratifyIsBand | kalp_super_ust_seviye.py:73-79 | for every percentage and every group: the stratifier returns that group iff the percentage lies in its band (totality and uniqueness) |
| RiskTier.BoundaryValues | kalp_super_ust_seviye.py:74-77 | exactly 70 is High and exactly 40 is Medium; nothing below 70 is High; everything below 40 is Low |
| RiskTier.StratifyMonotone | kalp_super_ust_seviye.py:73-79 | a larger percentage never gets a lower group |
| RiskTier.Label | kalp_super_ust_seviye.py:73-79 | each group's label is one of the three strings the stratifier returns, and each ends in " Risk" |
| RiskTier.LabelInjective | kalp_super_ust_seviye.py:73-79 | two different groups never share a label |
| RiskTier.ParseLabel | kalp_super_ust_seviye.py:73-79 | reading a group label back yields the group whose label it is, and fails only on text that is no group's label |
| RiskTier.LabelRoundTrip | kalp_super_ust_seviye.py:73-79 | each group's label reads back as that group, so the three labels are distinct |
| Frame.SetColumn | kalp_super_ust_seviye.py:70-71 | column assignment keeps the table well formed and keeps the row count; an existing column keeps its place, and a new column is appended after all others with row i gaining exactly value i |
| Frame.Column | kalp_super_ust_seviye.py:88-90 | a column read has one cell per row, taken from that column's position in each row |
| Frame.ColumnOfSetColumn | kalp_super_ust_seviye.py:70-71 | reading back a column just assigned yields exactly the assigned values |
| Frame.ColumnOfSetColumnOther | kalp_super_ust_seviye.py:70-71 | assigning one column leaves every other column present and unchanged |
| Cohort.Score | kalp_super_ust_seviye.py:70-81 | a scored patient keeps its predicted label, its percentage is the probability times 100, and its group is the band of that percentage |
| Cohort.RiskyCount | kalp_super_ust_seviye.py:88 | the flagged count never exceeds the number of rows |
| Cohort.RiskyCountIsCardinality | kalp_super_ust_seviye.py:88 | the flagged count equals the number of positions whose label is 1 |
| Cohort.RiskyCountAll | kalp_super_ust_seviye.py:88 | the flagged count equals the row count iff every label is 1 |
| Cohort.RiskyCountNone | kalp_super_ust_seviye.py:88 | the flagged count is 0 iff no label is 1 |
| Cohort.RiskRate | kalp_super_ust_seviye.py:89 | the flagged rate lies in [0,100]; it is 100 iff all are flagged and 0 iff none is |
| Cohort.RiskSumWithin | kalp_super_ust_seviye.py:90 | if every percentage lies in [lo,hi], their sum lies in [n·lo, n·hi] |
| Cohort.MeanRisk | kalp_super_ust_seviye.py:90 | the mean is the value whose n-fold equals the sum of the n risk percentages |
| Cohort.MeanRiskWithin | kalp_super_ust_seviye.py:90 | if every percentage lies in [lo,hi], the mean lies in [lo,hi] |
| Cohort.MeanRiskPercent | kalp_super_ust_seviye.py:90 | if every percentage lies in [0,100], the mean lies in [0,100] |
| Cohort.TierCount | kalp_super_ust_seviye.py:100 | a group's count never exceeds the number of rows |
| Cohort.TierCountIsCardinality | kalp_super_ust_seviye.py:100 | a group's count equals the number of positions in that group |
| Cohort.TierPresent | kalp_super_ust_seviye.py:100 | a group's count is positive iff some row is in that group |
| Cohort.TierCountsPartition | kalp_super_ust_seviye.py:100 | the High, Medium and Low counts add up to the number of rows |
| Cohort.TierIndicesByBand | kalp_super_ust_seviye.py:81 | when every row's group was computed from its own percentage, a group holds exactly the rows whose percentage lies in its band |
| Cohort.GroupCounts | kalp_super_ust_seviye.py:100 | the distribution has an entry for a group iff some row is in it; each entry is that group's positive count; the entries sum to the number of rows |
| Cohort.Summarize | kalp_super_ust_seviye.py:87-100 | for a non-empty batch: total is the row count; flagged is the number of label-1 positions; the rate is flagged / total * 100, lies in [0,100], and is 100/0 exactly when all/none are flagged; the mean is the mean of the percentages and lies in [0,100] when all percentages do; the distribution lists exactly the groups that occur, each with the number of its positions, and the counts sum to total |
| BatchReport.Annotate | kalp_super_ust_seviye.py:70-81 | annotation keeps the table well formed and keeps the row count, and the three result columns are present afterwards |
| BatchReport.ScoreAll | kalp_super_ust_seviye.py:70-81 | one scored patient per prediction, in order, each keeping its label, with percentage equal to its probability times 100, and falling in the band of that percentage |
| BatchReport.AnnotateAppends | kalp_super_ust_seviye.py:70-81 | when the upload has none of the three names, the header becomes the old header followed by label, percentage and group columns in that order, and row i becomes the old row i followed by label i, probability i times 100, and the group of that percentage |
| BatchReport.AppendedHeader | kalp_super_ust_seviye.py:70-81 | when the upload has none of the three names, the header becomes the old header followed by the label, percentage and group column names in that order |
| BatchReport.AppendedRow | kalp_super_ust_seviye.py:70-81 | when the upload has none of the three names, row i becomes the old row i followed by label i, probability i times 100, and the group label of that percentage |
| BatchReport.AnnotateKeepsColumns | kalp_super_ust_seviye.py:70-81 | every uploaded column survives annotation, and one not named like a result column keeps its cells |
| BatchReport.AnnotateAddsOnlyNew | kalp_super_ust_seviye.py:70-81 | annotation adds no column besides the three result columns |
| BatchReport.DecodeRow | kalp_super_ust_seviye.py:88-100 | a row's three result cells decode only to the scored patient that encodes back to exactly those cells |
| BatchReport.DecodeRowRoundTrip | kalp_super_ust_seviye.py:88-100 | decoding the cells of a scored patient gives back that patient |
| BatchReport.DecodeRows | kalp_super_ust_seviye.py:88-100 | a decoded batch has one patient per row, each encoding back to that row's cells |
| BatchReport.DecodeRowsAll | kalp_super_ust_seviye.py:88-100 | if every row decodes, the batch decodes to exactly those patients in order |
| BatchReport.ReadScored | kalp_super_ust_seviye.py:88-100 | a batch read from the result columns has one patient per table row |
| BatchReport.AnnotatedColumns | kalp_super_ust_seviye.py:70-81 | after annotation the label column holds the predicted labels, the percentage column the probabilities times 100, and the group column the stratifier applied to that percentage column |
| BatchReport.AnnotateReadBack | kalp_super_ust_seviye.py:70-100 | reading the annotated table's result columns yields exactly the scored predictions, in upload order |
| BatchReport.ScoreAllSummaryFacts | kalp_super_ust_seviye.py:70-100 | over the scored predictions, the label-1 positions are those of the predictions with label 1, probabilities in [0,1] give percentages in [0,100], the groups that occur are the groups of the predictions' percentages, and each group holds exactly the predictions whose percentage stratifies to it |
| BatchReport.Report | kalp_super_ust_seviye.py:70-100 | the report's table is the annotated upload; its summary counts every row, flags exactly the label-1 predictions, has rate flagged / rows * 100 in [0,100], has as mean the mean of the probabilities times 100 (in [0,100] when probabilities are in [0,1]), lists exactly the groups some prediction falls in, gives each listed group the number of predictions whose percentage stratifies to it, and its distribution sums to the row count |

## Left out

- The Streamlit page, the sidebar widgets and the single-patient form and message (lines 14-60, 83-84, 92-97, 161-162): presentation only.
- Loading the classifier with `joblib.load` and calling `predict` / `predict_proba` (lines 22, 54-55, 67-68): the classifier is foreign code. Its outputs are the `Prediction` inputs.
- Fitting and applying `StandardScaler` (lines 25-26, 53, 66): foreign floating-point numerics. Its rejection of an empty upload is the reason for the non-empty precondition.
- The ROC curve and AUC from `roc_curve` / `auc` (lines 107-108): foreign calls whose algorithm is not part of this model.
- The pie chart and ROC chart (lines 101-104, 109-116): rendering only.
- CSV encoding with `to_csv` (line 119): library serialisation. The column layout it writes is captured by `BatchReport.AnnotateAppends`, and reading the result columns back by `BatchReport.AnnotateReadBack`.
- The PDF report, the temporary PNG files and their removal (lines 122-159): file I/O and fixed-coordinate layout. This includes the two-decimal formatting of the summary lines.
- Cohort.Score: `probability * 100` is an exact product of reals, but the program multiplies floats. A float product that rounds onto a threshold can put a row one group higher in the program than in the model. For example, the float nearest 0.7 times 100 rounds to exactly 70.0, which the program labels High. The model's exact product is just below 70, which is Medium.
- Cohort.MeanRisk: float rounding is not modelled. Percentages, their sum and the mean are exact reals, and `probability * 100` is exact.
- Cohort.GroupCounts: the order of `value_counts` (most frequent group first) is not modelled. It only decides the order of slices in the pie chart, so the distribution is a map.
