/** The home page's logic: the upload check, loading the classifier, and turning one
    classification into a recognition record added to the histories. */
module HomePageLogic {
  import opened Wrappers
  import opened Lists
  import opened JsText
  import opened HerbDatabase
  import opened HerbRecognition
  import opened Store

  /** The upload limit: 10 MiB. */
  const MaxUploadBytes: nat := 10 * 1024 * 1024
  const ImageMimePrefix: string := "image/"

  /** The first file of the file input: its MIME type and size in bytes. */
  datatype SelectedFile = SelectedFile(mimeType: string, size: nat)

  datatype FileCheck = NoFile | NotAnImage | TooLarge | Accepted

  /** The checks `handleFileSelect` makes before reading the file, in their order. */
  function CheckSelectedFile(file: Option<SelectedFile>): (c: FileCheck)
    ensures c == NoFile <==> file.None?
    ensures c == NotAnImage <==> file.Some? && !StartsWith(file.value.mimeType, ImageMimePrefix)
    ensures c == TooLarge <==>
      file.Some? && StartsWith(file.value.mimeType, ImageMimePrefix) && file.value.size > MaxUploadBytes
    ensures c == Accepted <==>
      file.Some? && StartsWith(file.value.mimeType, ImageMimePrefix) && file.value.size <= MaxUploadBytes
  {
    match file
    case None => NoFile
    case Some(f) =>
      if !StartsWith(f.mimeType, ImageMimePrefix) then NotAnImage
      else if f.size > MaxUploadBytes then TooLarge
      else Accepted
  }

  /** Exactly 10 MiB is accepted; one byte more is not; a non-image is refused whatever its size. */
  lemma UploadLimitBoundary()
    ensures CheckSelectedFile(Some(SelectedFile("image/png", 10485760))) == Accepted
    ensures CheckSelectedFile(Some(SelectedFile("image/png", 10485761))) == TooLarge
    ensures CheckSelectedFile(Some(SelectedFile("text/plain", 0))) == NotAnImage
  {
    assert "image/png"[..6] == ImageMimePrefix;
    assert "text/plain"[..6] != ImageMimePrefix by { assert "text/plain"[0] != ImageMimePrefix[0]; }
  }

  /** `herbDatabase.find(herb => herb.id === id)`. */
  function FindById(id: string): (r: Option<HerbInfo>)
    ensures r.None? <==> forall i :: 0 <= i < |Catalog| ==> Catalog[i].id != id
    ensures r.Some? ==> r.value in Catalog && r.value.id == id
  {
    Find(Catalog, (herb: HerbInfo) => herb.id == id)
  }

  /** Looking up the id of catalog entry `i` finds that very entry. */
  lemma FindCatalogEntry(i: nat)
    requires i < |Catalog|
    ensures FindById(Catalog[i].id) == Some(Catalog[i])
  {
    CatalogIdsDistinct();
    var r := FindById(Catalog[i].id);
    var j :| 0 <= j < |Catalog| && Catalog[j] == r.value && Catalog[j].id == Catalog[i].id;
    assert j == i;
  }

  /** The top prediction of a successful inference always names a catalog entry, so the
      record's `result` is never empty. */
  lemma TopPredictionResolves(scores: seq<RawScore>, random: nat -> real, processingTime: real, memoryUsage: nat)
    ensures var m := Metrics(Decode(scores, random, |Catalog|), processingTime, memoryUsage);
      && |m.predictions| == |Catalog|
      && FindById(m.predictions[0].herbId).Some?
      && FindById(m.predictions[0].herbId).value.name == m.predictions[0].herbName
  {
    var decoded := Decode(scores, random, |Catalog|);
    DecodeAt(scores, random, |Catalog|);
    MetricsProperties(decoded, processingTime, memoryUsage);
    SortSortsAndPermutes(decoded);
    var top := SortByConfidence(decoded)[0];
    assert top in multiset(decoded);
    var j :| 0 <= j < |decoded| && decoded[j] == top;
    FindCatalogEntry(j);
  }

  /** `initializeModel`: `modelLoading` is raised around `loadModel` and lowered afterwards;
      `modelLoaded` is what `loadModel` returned. A failed build leaves the handle as it was. */
  method InitializeModel(store: AppState, model: HerbRecognitionModel, buildFails: bool)
    requires model.Valid()
    modifies store`modelLoading, store`modelLoaded, model
    ensures model.Valid()
    ensures model.classNames == old(model.classNames)
    ensures !buildFails ==> model.model == Some(Network(|model.classNames|))
    ensures buildFails ==> model.model == old(model.model) && model.isLoaded == old(model.isLoaded)
    ensures store.modelLoaded == !buildFails && !store.modelLoading
    ensures store.modelLoaded ==> model.isLoaded
  {
    store.modelLoading := true;
    var success := model.LoadModel(buildFails);
    store.modelLoaded := success;
    store.modelLoading := false;
  }

  /** How a call of `processImage` ended. */
  datatype ProcessOutcome =
    | ModelNotReady
    | ImageLoadFailed
    | RecognitionFailed(message: string)
    | Recognized(record: RecognitionRecord)

  /** The record made from the top prediction: it carries that prediction's confidence and,
      when the catalog has an entry with the predicted id, that entry. */
  function RecordFor(metrics: ModelMetrics, recordId: string, timestamp: int, imageData: string)
    : (record: RecognitionRecord)
    requires |metrics.predictions| > 0
    ensures record.id == recordId && record.timestamp == timestamp && record.originalImage == imageData
    ensures record.confidence == metrics.predictions[0].confidence
    ensures record.result.None? <==>
      forall i :: 0 <= i < |Catalog| ==> Catalog[i].id != metrics.predictions[0].herbId
    ensures record.result.Some? ==>
      record.result.value in Catalog && record.result.value.id == metrics.predictions[0].herbId
  {
    var best := metrics.predictions[0];
    RecognitionRecord(recordId, timestamp, imageData, FindById(best.herbId), best.confidence)
  }

  /** `processImage`. `imageLoads` says whether the data URL decodes as an image;
      `inferenceError`, `scores`, `random`, `processingTime` and `memoryUsage` are what the
      inference sees; `recordId` and `timestamp` are the two `Date.now()` readings. A failed
      inference is caught and changes no state. `isLoading` is lowered only when the image
      does not load. */
  method ProcessImage(store: AppState, model: HerbRecognitionModel, imageData: string, imageLoads: bool,
                      inferenceError: Option<string>, scores: seq<RawScore>, random: nat -> real,
                      processingTime: real, memoryUsage: nat, recordId: string, timestamp: int)
    returns (outcome: ProcessOutcome)
    requires model.Valid()
    modifies store
    ensures store.isLoading == !outcome.ImageLoadFailed?
    ensures outcome.ModelNotReady? <==> !old(store.modelLoaded)
    ensures outcome.ImageLoadFailed? <==> old(store.modelLoaded) && !imageLoads
    ensures outcome.RecognitionFailed? <==>
      old(store.modelLoaded) && imageLoads && (!model.isLoaded || inferenceError.Some?)
    ensures outcome.RecognitionFailed? ==>
      outcome.message == if model.isLoaded then inferenceError.value else NotLoadedMessage
    ensures outcome.Recognized? ==>
      var metrics := Metrics(Decode(scores, random, |Catalog|), processingTime, memoryUsage);
      && outcome.record == RecordFor(metrics, recordId, timestamp, imageData)
      && store.currentRecognition == Some(outcome.record)
      && store.currentPrediction == Some(metrics)
      && store.recognitionHistory == [outcome.record] + old(store.recognitionHistory)
      && store.modelPerformanceHistory == [metrics] + old(store.modelPerformanceHistory)
      && store.currentPage == Results
    ensures !outcome.Recognized? ==>
      && store.currentRecognition == old(store.currentRecognition)
      && store.currentPrediction == old(store.currentPrediction)
      && store.recognitionHistory == old(store.recognitionHistory)
      && store.modelPerformanceHistory == old(store.modelPerformanceHistory)
      && store.currentPage == old(store.currentPage)
    ensures store.modelLoading == old(store.modelLoading) && store.modelLoaded == old(store.modelLoaded)
    ensures store.currentHerbDetail == old(store.currentHerbDetail)
    ensures store.userFeedback == old(store.userFeedback)
  {
    store.isLoading := true;
    if !store.modelLoaded {
      return ModelNotReady;
    }
    if !imageLoads {
      store.isLoading := false;
      return ImageLoadFailed;
    }
    var prediction := model.Predict(inferenceError, scores, random, processingTime, memoryUsage);
    if prediction.Err? {
      return RecognitionFailed(prediction.error);
    }
    var metrics := prediction.value;
    var record := RecordFor(metrics, recordId, timestamp, imageData);
    store.PublishRecognition(record, metrics);
    return Recognized(record);
  }
}
