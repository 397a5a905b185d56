/**
 * `provide_recommendations`: fixed threshold rules turn an analysis result
 * into the lines the tracker prints, here returned as message tokens.
 */
module Recommendations {
  import opened Wrappers
  import opened Statistics

  /** One printed line. `AverageUsage` carries the value printed with two
      decimals; the other lines are fixed texts. */
  datatype Message =
    | NoAnalysisResults  // "No analysis results to base recommendations on."
    | Heading            // "Energy Consumption Recommendations:"
    | AverageUsage(kwh: real)
    | ReduceAverage      // consider reducing the average daily consumption
    | AvoidSpikes        // identify spikes, avoid high-energy appliances at peak hours
    | GoodOffPeak        // good job on the low off-peak usage

  /** Advisory thresholds, in kWh per day. */
  const ReduceAboveAverage: real := 3.0
  const SpikeAboveAverage: real := 1.5
  const PraiseBelowOffPeak: real := 1.0

  /** Position of each line in the fixed printing order. */
  function Rank(m: Message): nat {
    match m
    case NoAnalysisResults => 0
    case Heading => 1
    case AverageUsage(_) => 2
    case ReduceAverage => 3
    case AvoidSpikes => 4
    case GoodOffPeak => 5
  }

  /** The lines printed for an analysis result. Without a result there is
      only the notice. With one, the heading and the average come first,
      then each advisory exactly when its strict threshold test holds, in
      the fixed order, none twice. */
  function Recommend(result: Option<Summary>): (out: seq<Message>)
    ensures result.None? ==> out == [NoAnalysisResults]
    ensures result.Some? ==>
      var s := result.value;
      && 2 <= |out| <= 5
      && out[0] == Heading
      && out[1] == AverageUsage(s.averageDailyUsage)
      && NoAnalysisResults !in out
      && (ReduceAverage in out <==> s.averageDailyUsage > ReduceAboveAverage)
      && (AvoidSpikes in out <==> s.peakUsage - s.averageDailyUsage > SpikeAboveAverage)
      && (GoodOffPeak in out <==> s.offPeakUsage < PraiseBelowOffPeak)
      && (forall i, j :: 0 <= i < j < |out| ==> Rank(out[i]) < Rank(out[j]))
  {
    match result
    case None => [NoAnalysisResults]
    case Some(s) =>
      var avg, peak, offPeak := s.averageDailyUsage, s.peakUsage, s.offPeakUsage;
      [Heading, AverageUsage(avg)]
      + (if avg > ReduceAboveAverage then [ReduceAverage] else [])
      + (if peak - avg > SpikeAboveAverage then [AvoidSpikes] else [])
      + (if offPeak < PraiseBelowOffPeak then [GoodOffPeak] else [])
  }

  /** Daily totals of 2.0, 4.0 and 3.0 (average 3.0, peak 4.0, off-peak
      2.0) fire no advisory: the average is not above 3.0, the peak is only
      1.0 above it and the off-peak is not below 1.0. */
  lemma ThreeDaySummaryAdvice()
    ensures Recommend(Some(Summary(3.0, 4.0, 2.0))) == [Heading, AverageUsage(3.0)]
  {
  }

  /** All three tests are strict: an average of exactly 3.0, a peak exactly
      1.5 above it and an off-peak of exactly 1.0 fire no advisory. */
  lemma ThresholdsAreStrict()
    ensures Recommend(Some(Summary(3.0, 4.5, 1.0))) == [Heading, AverageUsage(3.0)]
  {
  }

  /** An average of 3.5, a peak of 5.5 and an off-peak of 0.5 fire all three
      advisories, in order. */
  lemma AllAdvisoriesFire()
    ensures Recommend(Some(Summary(3.5, 5.5, 0.5)))
         == [Heading, AverageUsage(3.5), ReduceAverage, AvoidSpikes, GoodOffPeak]
  {
  }
}
