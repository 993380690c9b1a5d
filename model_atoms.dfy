/** User feedback records and the statistics derived from the performance history and the
    feedback list. */
module ModelAtoms {
  import opened Lists
  import opened HerbRecognition

  /** One submitted feedback entry; `userRating` is the 1-5 star rating (0 when none was picked). */
  datatype UserFeedback = UserFeedback(
    id: string,
    timestamp: int,
    predictionId: string,
    actualHerbName: string,
    predictedHerbName: string,
    isCorrect: bool,
    confidence: real,
    userRating: int,
    comments: string)

  datatype ModelStats = ModelStats(
    averageAccuracy: real,
    averageProcessingTime: real,
    totalPredictions: nat,
    userSatisfaction: real,
    correctPredictions: nat)

  const NoStats: ModelStats := ModelStats(0.0, 0.0, 0, 0.0, 0)

  function Accuracies(history: seq<ModelMetrics>): seq<real>
  {
    seq(|history|, i requires 0 <= i < |history| => history[i].accuracy)
  }

  function ProcessingTimes(history: seq<ModelMetrics>): seq<real>
  {
    seq(|history|, i requires 0 <= i < |history| => history[i].processingTime)
  }

  function Ratings(feedbacks: seq<UserFeedback>): seq<real>
  {
    seq(|feedbacks|, i requires 0 <= i < |feedbacks| => feedbacks[i].userRating as real)
  }

  function IsCorrect(f: UserFeedback): bool
  {
    f.isCorrect
  }

  /** The mean of values whose sum is `total`, over `count` of them. */
  function Mean(total: real, count: nat): (m: real)
    requires count > 0
    ensures m * count as real == total
  {
    total / count as real
  }

  /** The mean star rating, zero without feedback. */
  function Satisfaction(feedbacks: seq<UserFeedback>): (s: real)
    ensures |feedbacks| == 0 ==> s == 0.0
    ensures |feedbacks| > 0 ==> s * |feedbacks| as real == Sum(Ratings(feedbacks))
  {
    if |feedbacks| > 0 then Mean(Sum(Ratings(feedbacks)), |feedbacks|) else 0.0
  }

  /** The derived statistics. With no recorded prediction all five are zero, whatever the
      feedback; otherwise the averages are sums over the history divided by its length, the
      correct count is over the feedback list, and satisfaction is the mean rating (zero
      without feedback). */
  function ComputeStats(history: seq<ModelMetrics>, feedbacks: seq<UserFeedback>): (stats: ModelStats)
    ensures |history| == 0 ==> stats == NoStats
    ensures |history| > 0 ==> stats.totalPredictions == |history|
    ensures |history| > 0 ==> stats.averageAccuracy == Mean(Sum(Accuracies(history)), |history|)
    ensures |history| > 0 ==> stats.averageProcessingTime == Mean(Sum(ProcessingTimes(history)), |history|)
    ensures |history| > 0 ==> stats.correctPredictions == |Filter(feedbacks, IsCorrect)|
    ensures |history| > 0 ==> stats.userSatisfaction == Satisfaction(feedbacks)
  {
    if |history| == 0 then NoStats
    else
      var total := |history|;
      var averageAccuracy := Mean(Sum(Accuracies(history)), total);
      var averageProcessingTime := Mean(Sum(ProcessingTimes(history)), total);
      var correct := |Filter(feedbacks, IsCorrect)|;
      var satisfaction := Satisfaction(feedbacks);
      ModelStats(averageAccuracy, averageProcessingTime, total, satisfaction, correct)
  }

  /** The mean of values that all lie in `[lo, hi]` lies in `[lo, hi]`. */
  lemma MeanBounds(xs: seq<real>, lo: real, hi: real)
    requires |xs| > 0
    requires forall i :: 0 <= i < |xs| ==> lo <= xs[i] <= hi
    ensures lo <= Sum(xs) / |xs| as real <= hi
  {
    SumBounds(xs, lo, hi);
    DivisionBounds(Sum(xs), |xs| as real, lo, hi);
  }

  lemma DivisionBounds(a: real, n: real, lo: real, hi: real)
    requires n > 0.0 && lo * n <= a <= hi * n
    ensures lo <= a / n <= hi
  {
    var m := a / n;
    assert a == m * n;
    assert (m - lo) * n >= 0.0 && (hi - m) * n >= 0.0;
  }

  /** When every recorded accuracy lies in `[lo, hi]`, so does the average. */
  lemma AverageAccuracyBounds(history: seq<ModelMetrics>, feedbacks: seq<UserFeedback>, lo: real, hi: real)
    requires |history| > 0
    requires forall i :: 0 <= i < |history| ==> lo <= history[i].accuracy <= hi
    ensures lo <= ComputeStats(history, feedbacks).averageAccuracy <= hi
  {
    MeanBounds(Accuracies(history), lo, hi);
  }

  /** When every rating lies in `[lo, hi]` (the stars give 1 to 5), so does satisfaction. */
  lemma SatisfactionBounds(history: seq<ModelMetrics>, feedbacks: seq<UserFeedback>, lo: int, hi: int)
    requires |history| > 0 && |feedbacks| > 0
    requires forall i :: 0 <= i < |feedbacks| ==> lo <= feedbacks[i].userRating <= hi
    ensures lo as real <= ComputeStats(history, feedbacks).userSatisfaction <= hi as real
  {
    MeanBounds(Ratings(feedbacks), lo as real, hi as real);
  }

  /** The correct count is at most the number of feedback entries, zero when none says
      correct and all of them when all do. */
  lemma CorrectPredictionsBounds(history: seq<ModelMetrics>, feedbacks: seq<UserFeedback>)
    requires |history| > 0
    ensures ComputeStats(history, feedbacks).correctPredictions <= |feedbacks|
    ensures (forall i :: 0 <= i < |feedbacks| ==> !feedbacks[i].isCorrect) ==>
      ComputeStats(history, feedbacks).correctPredictions == 0
    ensures (forall i :: 0 <= i < |feedbacks| ==> feedbacks[i].isCorrect) ==>
      ComputeStats(history, feedbacks).correctPredictions == |feedbacks|
  {
    if forall i :: 0 <= i < |feedbacks| ==> !feedbacks[i].isCorrect {
      FilterNone(feedbacks, IsCorrect);
    }
    if forall i :: 0 <= i < |feedbacks| ==> feedbacks[i].isCorrect {
      FilterAll(feedbacks, IsCorrect);
    }
  }

  /** Recording one more prediction at the front adds one to the count and its accuracy to
      the accuracy sum. */
  lemma StatsAfterPrepend(m: ModelMetrics, history: seq<ModelMetrics>, feedbacks: seq<UserFeedback>)
    ensures var after := ComputeStats([m] + history, feedbacks);
      && after.totalPredictions == |history| + 1
      && after.averageAccuracy * (|history| + 1) as real
         == m.accuracy + ComputeStats(history, feedbacks).averageAccuracy * |history| as real
  {
    assert Accuracies([m] + history) == [m.accuracy] + Accuracies(history);
    assert Sum([m.accuracy] + Accuracies(history)) == m.accuracy + Sum(Accuracies(history)) by {
      assert ([m.accuracy] + Accuracies(history))[1..] == Accuracies(history);
    }
  }
}
