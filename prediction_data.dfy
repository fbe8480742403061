/** The monthly shipping-cost predictions (AUD per kg) of four markets, December 2024 to December 2025. */
module PredictionData {

  /** One month's predicted cost and the confidence (a fraction) in it. */
  datatype Trend = Trend(month: string, cost: real, confidence: real)

  /** The predicted series of one market. */
  datatype MarketPrediction = MarketPrediction(marketId: string, trends: seq<Trend>)

  const ChinaTrends: seq<Trend> := [
    Trend("2024-12", 2.5, 0.95),
    Trend("2025-01", 2.7, 0.92),
    Trend("2025-02", 2.8, 0.90),
    Trend("2025-03", 2.6, 0.89),
    Trend("2025-04", 2.4, 0.88),
    Trend("2025-05", 2.3, 0.87),
    Trend("2025-06", 2.2, 0.86),
    Trend("2025-07", 2.4, 0.85),
    Trend("2025-08", 2.5, 0.85),
    Trend("2025-09", 2.6, 0.84),
    Trend("2025-10", 2.7, 0.83),
    Trend("2025-11", 2.8, 0.82),
    Trend("2025-12", 2.9, 0.80)
  ]

  const JapanTrends: seq<Trend> := [
    Trend("2024-12", 2.0, 0.95),
    Trend("2025-01", 2.1, 0.93),
    Trend("2025-02", 2.2, 0.91),
    Trend("2025-03", 2.1, 0.90),
    Trend("2025-04", 2.0, 0.89),
    Trend("2025-05", 1.9, 0.88),
    Trend("2025-06", 1.8, 0.87),
    Trend("2025-07", 1.9, 0.86),
    Trend("2025-08", 2.0, 0.85),
    Trend("2025-09", 2.1, 0.84),
    Trend("2025-10", 2.2, 0.83),
    Trend("2025-11", 2.3, 0.82),
    Trend("2025-12", 2.4, 0.81)
  ]

  const UsaTrends: seq<Trend> := [
    Trend("2024-12", 3.0, 0.95),
    Trend("2025-01", 3.1, 0.93),
    Trend("2025-02", 3.2, 0.91),
    Trend("2025-03", 3.1, 0.90),
    Trend("2025-04", 3.0, 0.89),
    Trend("2025-05", 2.9, 0.88),
    Trend("2025-06", 2.8, 0.87),
    Trend("2025-07", 2.9, 0.86),
    Trend("2025-08", 3.0, 0.85),
    Trend("2025-09", 3.1, 0.84),
    Trend("2025-10", 3.2, 0.83),
    Trend("2025-11", 3.3, 0.82),
    Trend("2025-12", 3.4, 0.81)
  ]

  const SingaporeTrends: seq<Trend> := [
    Trend("2024-12", 2.0, 0.95),
    Trend("2025-01", 2.1, 0.93),
    Trend("2025-02", 2.2, 0.91),
    Trend("2025-03", 2.1, 0.90),
    Trend("2025-04", 2.0, 0.89),
    Trend("2025-05", 1.9, 0.88),
    Trend("2025-06", 1.8, 0.87),
    Trend("2025-07", 1.9, 0.86),
    Trend("2025-08", 2.0, 0.85),
    Trend("2025-09", 2.1, 0.84),
    Trend("2025-10", 2.2, 0.83),
    Trend("2025-11", 2.3, 0.82),
    Trend("2025-12", 2.4, 0.81)
  ]

  /** The array `predictionData`, in its order. */
  const Predictions: seq<MarketPrediction> := [
    MarketPrediction("china", ChinaTrends),
    MarketPrediction("japan", JapanTrends),
    MarketPrediction("usa", UsaTrends),
    MarketPrediction("singapore", SingaporeTrends)
  ]

  function DigitValue(c: char): int
  {
    c as int - '0' as int
  }

  /** A "YYYY-MM" label: four digits, a dash, two digits naming a month from 01 to 12. */
  predicate IsMonthLabel(m: string)
  {
    && |m| == 7 && m[4] == '-'
    && IsDigit(m[0]) && IsDigit(m[1]) && IsDigit(m[2]) && IsDigit(m[3])
    && IsDigit(m[5]) && IsDigit(m[6])
    && 1 <= DigitValue(m[5]) * 10 + DigitValue(m[6]) <= 12
  }

  predicate IsDigit(c: char)
  {
    '0' <= c <= '9'
  }

  /** The number of months from January of year 0 to the labelled month. */
  function MonthNumber(m: string): int
    requires IsMonthLabel(m)
  {
    var year := DigitValue(m[0]) * 1000 + DigitValue(m[1]) * 100 + DigitValue(m[2]) * 10 + DigitValue(m[3]);
    var month := DigitValue(m[5]) * 10 + DigitValue(m[6]);
    year * 12 + month - 1
  }

  /** The thirteen month labels every series carries, December 2024 to December 2025. */
  const SeriesMonths: seq<string> := [
    "2024-12", "2025-01", "2025-02", "2025-03", "2025-04", "2025-05", "2025-06",
    "2025-07", "2025-08", "2025-09", "2025-10", "2025-11", "2025-12"
  ]

  /** Labels `lo` to `hi` (exclusive) name the month `i` months after December 2024. */
  predicate LabelsFromDecember2024(labels: seq<string>, lo: int, hi: int)
  {
    forall i :: lo <= i < hi && 0 <= i < |labels| ==> IsMonthLabel(labels[i]) && MonthNumber(labels[i]) == 2024 * 12 + 11 + i
  }

  /** Entry `i` is labelled with the month `i` months after December 2024. */
  predicate MonthsFromDecember2024(ts: seq<Trend>)
  {
    forall i :: 0 <= i < |ts| ==> IsMonthLabel(ts[i].month) && MonthNumber(ts[i].month) == 2024 * 12 + 11 + i
  }

  predicate PositiveValues(ts: seq<Trend>)
  {
    forall i :: 0 <= i < |ts| ==> ts[i].cost > 0.0 && 0.0 < ts[i].confidence <= 1.0
  }

  predicate ConfidenceNonIncreasing(ts: seq<Trend>)
  {
    forall i :: 0 < i < |ts| ==> ts[i].confidence <= ts[i - 1].confidence
  }

  /** Every cost of the series lies in [lo, hi]. */
  predicate CostsBetween(ts: seq<Trend>, lo: real, hi: real)
  {
    forall i :: 0 <= i < |ts| ==> lo <= ts[i].cost <= hi
  }

  /** The cheapest prediction is 1.8 and the dearest 3.4. */
  lemma CostRanges()
    ensures CostsBetween(ChinaTrends, 1.8, 3.4) && CostsBetween(JapanTrends, 1.8, 3.4)
    ensures CostsBetween(UsaTrends, 1.8, 3.4) && CostsBetween(SingaporeTrends, 1.8, 3.4)
    ensures UsaTrends[12] == Trend("2025-12", 3.4, 0.81)
    ensures JapanTrends[6].month == "2025-06" && JapanTrends[6].cost == 1.8
    ensures SingaporeTrends[6].month == "2025-06" && SingaporeTrends[6].cost == 1.8
  {
    assert CostsBetween(ChinaTrends, 1.8, 3.4);
    assert CostsBetween(JapanTrends, 1.8, 3.4);
    assert CostsBetween(UsaTrends, 1.8, 3.4);
    assert CostsBetween(SingaporeTrends, 1.8, 3.4);
  }

  /** The shape every series has: 13 consecutive months from 2024-12 to 2025-12,
      positive costs, and a confidence in (0, 1] that never rises. */
  predicate WellFormedSeries(ts: seq<Trend>)
  {
    |ts| == 13 && MonthsFromDecember2024(ts) && PositiveValues(ts) && ConfidenceNonIncreasing(ts)
  }

  /** In a well-formed series each month directly follows the one before, and the last is December 2025. */
  lemma WellFormedSeriesMonths(ts: seq<Trend>)
    requires WellFormedSeries(ts)
    ensures forall i :: 0 < i < |ts| ==> MonthNumber(ts[i].month) == MonthNumber(ts[i - 1].month) + 1
    ensures MonthNumber(ts[12].month) == 2025 * 12 + 11
  {
  }

  lemma SeriesMonthsEarly() ensures LabelsFromDecember2024(SeriesMonths, 0, 5) {}
  lemma SeriesMonthsMiddle() ensures LabelsFromDecember2024(SeriesMonths, 5, 9) {}
  lemma SeriesMonthsLate() ensures LabelsFromDecember2024(SeriesMonths, 9, 13) {}

  /** A series labelled with the thirteen shared labels, in order, runs month by month from December 2024. */
  lemma LabelledSeriesMonths(ts: seq<Trend>)
    requires |ts| == |SeriesMonths|
    requires forall i :: 0 <= i < |ts| ==> ts[i].month == SeriesMonths[i]
    ensures MonthsFromDecember2024(ts)
  {
    SeriesMonthsEarly();
    SeriesMonthsMiddle();
    SeriesMonthsLate();
  }

  lemma ChinaMonths()
    ensures MonthsFromDecember2024(ChinaTrends)
  {
    assert forall i :: 0 <= i < |ChinaTrends| ==> ChinaTrends[i].month == SeriesMonths[i];
    LabelledSeriesMonths(ChinaTrends);
  }
  lemma ChinaPositive() ensures PositiveValues(ChinaTrends) {}
  lemma ChinaConfidence() ensures ConfidenceNonIncreasing(ChinaTrends) {}

  lemma ChinaWellFormed()
    ensures WellFormedSeries(ChinaTrends)
  {
    ChinaMonths();
    ChinaPositive();
    ChinaConfidence();
  }

  lemma JapanMonths()
    ensures MonthsFromDecember2024(JapanTrends)
  {
    assert forall i :: 0 <= i < |JapanTrends| ==> JapanTrends[i].month == SeriesMonths[i];
    LabelledSeriesMonths(JapanTrends);
  }
  lemma JapanPositive() ensures PositiveValues(JapanTrends) {}
  lemma JapanConfidence() ensures ConfidenceNonIncreasing(JapanTrends) {}

  lemma JapanWellFormed()
    ensures WellFormedSeries(JapanTrends)
  {
    JapanMonths();
    JapanPositive();
    JapanConfidence();
  }

  lemma UsaMonths()
    ensures MonthsFromDecember2024(UsaTrends)
  {
    assert forall i :: 0 <= i < |UsaTrends| ==> UsaTrends[i].month == SeriesMonths[i];
    LabelledSeriesMonths(UsaTrends);
  }
  lemma UsaPositive() ensures PositiveValues(UsaTrends) {}
  lemma UsaConfidence() ensures ConfidenceNonIncreasing(UsaTrends) {}

  lemma UsaWellFormed()
    ensures WellFormedSeries(UsaTrends)
  {
    UsaMonths();
    UsaPositive();
    UsaConfidence();
  }

  lemma SingaporeMonths()
    ensures MonthsFromDecember2024(SingaporeTrends)
  {
    assert forall i :: 0 <= i < |SingaporeTrends| ==> SingaporeTrends[i].month == SeriesMonths[i];
    LabelledSeriesMonths(SingaporeTrends);
  }
  lemma SingaporePositive() ensures PositiveValues(SingaporeTrends) {}
  lemma SingaporeConfidence() ensures ConfidenceNonIncreasing(SingaporeTrends) {}

  lemma SingaporeWellFormed()
    ensures WellFormedSeries(SingaporeTrends)
  {
    SingaporeMonths();
    SingaporePositive();
    SingaporeConfidence();
  }

  /** Four series, in the order china, japan, usa, singapore, each well formed. */
  lemma PredictionsShape()
    ensures |Predictions| == 4
    ensures Predictions[0].marketId == "china" && Predictions[1].marketId == "japan"
    ensures Predictions[2].marketId == "usa" && Predictions[3].marketId == "singapore"
    ensures forall p :: p in Predictions ==> WellFormedSeries(p.trends)
  {
    ChinaWellFormed();
    JapanWellFormed();
    UsaWellFormed();
    SingaporeWellFormed();
  }
}
