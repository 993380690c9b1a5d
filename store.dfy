/** The app-wide state the pages share: one field per atom that the modelled handlers read or
    write, with the initial values the atoms are declared with. */
module Store {
  import opened Wrappers
  import opened HerbDatabase
  import opened HerbRecognition
  import opened ModelAtoms

  /** One recognition: the uploaded image, the matched catalog entry (if any) and the top
      prediction's confidence. */
  datatype RecognitionRecord = RecognitionRecord(
    id: string,
    timestamp: int,
    originalImage: string,
    result: Option<HerbInfo>,
    confidence: real)

  /** The pages the app can show. */
  datatype Page = Home | Results | History | Search | Detail | Test

  class AppState {
    var currentRecognition: Option<RecognitionRecord>
    var recognitionHistory: seq<RecognitionRecord>
    var currentPage: Page
    var currentHerbDetail: Option<HerbInfo>
    var isLoading: bool
    var modelLoading: bool
    var modelLoaded: bool
    var currentPrediction: Option<ModelMetrics>
    var modelPerformanceHistory: seq<ModelMetrics>
    var userFeedback: seq<UserFeedback>

    constructor ()
      ensures currentRecognition == None && recognitionHistory == []
      ensures currentPage == Test && currentHerbDetail == None && !isLoading
      ensures !modelLoading && !modelLoaded && currentPrediction == None
      ensures modelPerformanceHistory == [] && userFeedback == []
    {
      currentRecognition := None;
      recognitionHistory := [];
      currentPage := Test;
      currentHerbDetail := None;
      isLoading := false;
      modelLoading := false;
      modelLoaded := false;
      currentPrediction := None;
      modelPerformanceHistory := [];
      userFeedback := [];
    }

    /** The four atom writes that publish a finished recognition and switch to the results page. */
    method PublishRecognition(record: RecognitionRecord, metrics: ModelMetrics)
      modifies this
      ensures currentRecognition == Some(record) && currentPrediction == Some(metrics)
      ensures recognitionHistory == [record] + old(recognitionHistory)
      ensures modelPerformanceHistory == [metrics] + old(modelPerformanceHistory)
      ensures currentPage == Results
      ensures currentHerbDetail == old(currentHerbDetail) && isLoading == old(isLoading)
      ensures modelLoading == old(modelLoading) && modelLoaded == old(modelLoaded)
      ensures userFeedback == old(userFeedback)
    {
      currentRecognition := Some(record);
      currentPrediction := Some(metrics);
      recognitionHistory := [record] + recognitionHistory;
      modelPerformanceHistory := [metrics] + modelPerformanceHistory;
      currentPage := Results;
    }

    /** The derived statistics atom: it counts every recorded prediction, and never more
        correct predictions than there are feedback entries. */
    function Stats(): (stats: ModelStats)
      reads this
      ensures stats.totalPredictions == |modelPerformanceHistory|
      ensures stats.correctPredictions <= |userFeedback|
    {
      var stats := ComputeStats(modelPerformanceHistory, userFeedback);
      if |modelPerformanceHistory| == 0 then stats
      else CorrectPredictionsBounds(modelPerformanceHistory, userFeedback); stats
    }
  }
}
