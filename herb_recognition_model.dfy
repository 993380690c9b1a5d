/** The in-browser classifier handle: its load/dispose lifecycle, the decoding of raw scores
    into ranked predictions, and the four augmented canvases. The network itself and its
    forward pass are outside the model: `Predict` receives the forward pass's output. */
module HerbRecognition {
  import opened Wrappers
  import opened Lists
  import opened HerbDatabase

  /** One element of the classifier's output buffer, as JavaScript's `||` sees it. */
  datatype RawScore = Finite(value: real) | NaN

  /** A score that `||` keeps: finite and non-zero (0 and NaN are falsy). */
  predicate Truthy(x: RawScore)
  {
    x.Finite? && x.value != 0.0
  }

  datatype ModelPrediction = ModelPrediction(
    herbId: string,
    herbName: string,
    confidence: real,
    features: seq<RawScore>)

  datatype ModelMetrics = ModelMetrics(
    accuracy: real,
    processingTime: real,
    memoryUsage: nat,
    predictions: seq<ModelPrediction>)

  const NotLoadedMessage: string := "模型未加载"
  const NoContextMessage: string := "无法创建canvas上下文"

  /** Side length of the square input the network and the augmented canvases use. */
  const InputSize: nat := 224
  /** How many raw scores are copied into each prediction's `features`. */
  const FeatureCount: nat := 10

  /** Class labels as the constructor builds them, one per catalog entry. */
  function InitialClassNames(): (names: seq<string>)
    ensures |names| == |Catalog|
    ensures forall i :: 0 <= i < |Catalog| ==> names[i] == Catalog[i].name
  {
    seq(|Catalog|, i requires 0 <= i < |Catalog| => Catalog[i].name)
  }

  /** The confidence of class `i`: its raw score when truthy (a missing score, past the end
      of the buffer, is `undefined` and falsy), else `Math.random() * 0.3 + 0.7` where
      `random(i)` is the value `Math.random()` returned. */
  function Confidence(scores: seq<RawScore>, random: nat -> real, i: nat): (c: real)
    ensures i < |scores| && Truthy(scores[i]) ==> c == scores[i].value
    ensures !(i < |scores| && Truthy(scores[i])) && 0.0 <= random(i) < 1.0 ==> 0.7 <= c < 1.0
  {
    if i < |scores| && Truthy(scores[i]) then scores[i].value else random(i) * 0.3 + 0.7
  }

  /** `predictionData.slice(0, 10)`. */
  function Features(scores: seq<RawScore>): (f: seq<RawScore>)
    ensures |f| == if |scores| < FeatureCount then |scores| else FeatureCount
    ensures f <= scores
  {
    if |scores| < FeatureCount then scores else scores[..FeatureCount]
  }

  /** The prediction built for class `i`, joined to catalog entry `i` by position. */
  function Entry(scores: seq<RawScore>, random: nat -> real, i: nat): (p: ModelPrediction)
    requires i < |Catalog|
  {
    ModelPrediction(Catalog[i].id, Catalog[i].name, Confidence(scores, random, i), Features(scores))
  }

  /** The `results` list after the loop has pushed classes `0 .. n-1`. */
  function Decode(scores: seq<RawScore>, random: nat -> real, n: nat): (results: seq<ModelPrediction>)
    requires n <= |Catalog|
    ensures |results| == n
  {
    if n == 0 then [] else Decode(scores, random, n - 1) + [Entry(scores, random, n - 1)]
  }

  /** Decoding gives one entry per class index, carrying that catalog entry's id and name,
      the class's confidence and the same feature prefix for every entry. */
  lemma {:induction false} DecodeAt(scores: seq<RawScore>, random: nat -> real, n: nat)
    requires n <= |Catalog|
    ensures |Decode(scores, random, n)| == n
    ensures forall i :: 0 <= i < n ==>
      var p := Decode(scores, random, n)[i];
      && p.herbId == Catalog[i].id
      && p.herbName == Catalog[i].name
      && p.confidence == Confidence(scores, random, i)
      && p.features == Features(scores)
  {
    DecodeEntries(scores, random, n);
    forall i | 0 <= i < n
      ensures Decode(scores, random, n)[i].herbId == Catalog[i].id
      ensures Decode(scores, random, n)[i].herbName == Catalog[i].name
      ensures Decode(scores, random, n)[i].confidence == Confidence(scores, random, i)
      ensures Decode(scores, random, n)[i].features == Features(scores)
    {
      assert Decode(scores, random, n)[i] == Entry(scores, random, i);
    }
  }

  lemma {:induction false} DecodeEntries(scores: seq<RawScore>, random: nat -> real, n: nat)
    requires n <= |Catalog|
    ensures |Decode(scores, random, n)| == n
    ensures forall i :: 0 <= i < n ==> Decode(scores, random, n)[i] == Entry(scores, random, i)
  {
    if n > 0 {
      DecodeEntries(scores, random, n - 1);
      var prefix := Decode(scores, random, n - 1);
      assert Decode(scores, random, n) == prefix + [Entry(scores, random, n - 1)];
    }
  }

  /** Non-increasing confidence from front to back. */
  predicate SortedDesc(s: seq<ModelPrediction>)
  {
    forall i, j :: 0 <= i < j < |s| ==> s[i].confidence >= s[j].confidence
  }

  /** Puts `x` before the first element whose confidence is not greater than its own. */
  function InsertByConfidence(x: ModelPrediction, s: seq<ModelPrediction>): (r: seq<ModelPrediction>)
    ensures |r| == |s| + 1
  {
    if s == [] then [x]
    else if s[0].confidence <= x.confidence then [x] + s
    else [s[0]] + InsertByConfidence(x, s[1..])
  }

  /** `results.sort((a, b) => b.confidence - a.confidence)`: the stable sort that ECMAScript
      2019 and later require, written as an insertion sort. */
  function SortByConfidence(s: seq<ModelPrediction>): (sorted: seq<ModelPrediction>)
    ensures |sorted| == |s|
  {
    if s == [] then [] else InsertByConfidence(s[0], SortByConfidence(s[1..]))
  }

  /** A non-empty list's elements are its head's plus its tail's. */
  lemma MultisetCons(s: seq<ModelPrediction>)
    requires |s| > 0
    ensures multiset(s) == multiset{s[0]} + multiset(s[1..])
  {
    assert s == [s[0]] + s[1..];
  }

  lemma {:induction false} InsertPermutes(x: ModelPrediction, s: seq<ModelPrediction>)
    ensures multiset(InsertByConfidence(x, s)) == multiset(s) + multiset{x}
    ensures |InsertByConfidence(x, s)| == |s| + 1
  {
    if s != [] && s[0].confidence > x.confidence {
      InsertPermutes(x, s[1..]);
      MultisetCons(s);
      MultisetCons(InsertByConfidence(x, s));
    }
  }

  /** Inserting keeps every confidence at or below a common bound. */
  lemma {:induction false} InsertBounded(x: ModelPrediction, s: seq<ModelPrediction>, bound: real)
    requires x.confidence <= bound
    requires forall k :: 0 <= k < |s| ==> s[k].confidence <= bound
    ensures forall k :: 0 <= k < |InsertByConfidence(x, s)| ==> InsertByConfidence(x, s)[k].confidence <= bound
  {
    if s != [] && s[0].confidence > x.confidence {
      InsertBounded(x, s[1..], bound);
      var t := InsertByConfidence(x, s[1..]);
      assert forall k :: 1 <= k < |t| + 1 ==> ([s[0]] + t)[k] == t[k - 1];
    }
  }

  /** A head at least as confident as a sorted tail gives a sorted list. */
  lemma ConsSorted(a: ModelPrediction, t: seq<ModelPrediction>)
    requires SortedDesc(t)
    requires forall k :: 0 <= k < |t| ==> t[k].confidence <= a.confidence
    ensures SortedDesc([a] + t)
  {
    var r := [a] + t;
    forall i, j | 0 <= i < j < |r| ensures r[i].confidence >= r[j].confidence {
      assert r[j] == t[j - 1];
      if i > 0 {
        assert r[i] == t[i - 1];
      }
    }
  }

  lemma {:induction false} InsertSorted(x: ModelPrediction, s: seq<ModelPrediction>)
    requires SortedDesc(s)
    ensures SortedDesc(InsertByConfidence(x, s))
  {
    if s == [] {
    } else if s[0].confidence <= x.confidence {
      ConsSorted(x, s);
    } else {
      var tail := s[1..];
      assert SortedDesc(tail) by {
        forall i, j | 0 <= i < j < |tail| ensures tail[i].confidence >= tail[j].confidence {
          assert tail[i] == s[i + 1] && tail[j] == s[j + 1];
        }
      }
      assert forall k :: 0 <= k < |tail| ==> tail[k].confidence <= s[0].confidence by {
        forall k | 0 <= k < |tail| ensures tail[k].confidence <= s[0].confidence {
          assert tail[k] == s[k + 1];
        }
      }
      InsertSorted(x, tail);
      InsertBounded(x, tail, s[0].confidence);
      ConsSorted(s[0], InsertByConfidence(x, tail));
    }
  }

  /** The sorted list is in non-increasing confidence and is a permutation of its input. */
  lemma {:induction false} SortSortsAndPermutes(s: seq<ModelPrediction>)
    ensures SortedDesc(SortByConfidence(s))
    ensures multiset(SortByConfidence(s)) == multiset(s)
    ensures |SortByConfidence(s)| == |s|
  {
    if s != [] {
      var sortedTail := SortByConfidence(s[1..]);
      SortSortsAndPermutes(s[1..]);
      InsertSorted(s[0], sortedTail);
      InsertPermutes(s[0], sortedTail);
      assert SortByConfidence(s) == InsertByConfidence(s[0], sortedTail);
      MultisetCons(s);
    }
  }

  /** The entries of `s` whose confidence is exactly `c`, in order. */
  function WithConfidence(s: seq<ModelPrediction>, c: real): (r: seq<ModelPrediction>)
  {
    if s == [] then []
    else (if s[0].confidence == c then [s[0]] else []) + WithConfidence(s[1..], c)
  }

  /** The first entry of confidence `c` heads the entries of confidence `c`. */
  lemma {:induction false} WithConfidenceHead(s: seq<ModelPrediction>, c: real, k: nat)
    requires k < |s| && s[k].confidence == c
    requires forall j :: 0 <= j < k ==> s[j].confidence != c
    ensures |WithConfidence(s, c)| > 0 && WithConfidence(s, c)[0] == s[k]
  {
    if k > 0 {
      WithConfidenceHead(s[1..], c, k - 1);
    }
  }

  lemma {:induction false} InsertStable(x: ModelPrediction, s: seq<ModelPrediction>, c: real)
    ensures WithConfidence(InsertByConfidence(x, s), c)
         == (if x.confidence == c then [x] else []) + WithConfidence(s, c)
  {
    if s == [] {
      assert ([x] + s)[1..] == s;
    } else if s[0].confidence <= x.confidence {
      assert ([x] + s)[1..] == s;
    } else {
      var t := InsertByConfidence(x, s[1..]);
      var rest := WithConfidence(s[1..], c);
      assert InsertByConfidence(x, s) == [s[0]] + t;
      assert ([s[0]] + t)[1..] == t;
      InsertStable(x, s[1..], c);
      if s[0].confidence == c {
        assert x.confidence != c;
        assert WithConfidence(t, c) == rest;
        assert WithConfidence([s[0]] + t, c) == [s[0]] + rest;
        assert WithConfidence(s, c) == [s[0]] + rest;
      } else {
        assert WithConfidence([s[0]] + t, c) == WithConfidence(t, c);
        assert WithConfidence(s, c) == rest;
      }
    }
  }

  /** Stability: entries of equal confidence keep their relative (catalog) order. */
  lemma {:induction false} SortStable(s: seq<ModelPrediction>, c: real)
    ensures WithConfidence(SortByConfidence(s), c) == WithConfidence(s, c)
  {
    if s != [] {
      SortStable(s[1..], c);
      InsertStable(s[0], SortByConfidence(s[1..]), c);
    }
  }

  /** `Math.max(...results.map(r => r.confidence))` on a non-empty list. */
  function MaxConfidence(s: seq<ModelPrediction>): (m: real)
    requires |s| > 0
    ensures forall i :: 0 <= i < |s| ==> s[i].confidence <= m
    ensures exists i :: 0 <= i < |s| && s[i].confidence == m
  {
    if |s| == 1 then s[0].confidence
    else
      var rest := MaxConfidence(s[1..]);
      assert forall i :: 1 <= i < |s| ==> s[i] == s[1..][i - 1];
      if s[0].confidence >= rest then s[0].confidence else rest
  }

  /** The metrics bundle `predict` returns for the decoded `results`. */
  function Metrics(results: seq<ModelPrediction>, processingTime: real, memoryUsage: nat): (m: ModelMetrics)
    requires |results| > 0
    ensures |m.predictions| == |results|
    ensures m.processingTime == processingTime && m.memoryUsage == memoryUsage
  {
    SortSortsAndPermutes(results);
    var sorted := SortByConfidence(results);
    ModelMetrics(MaxConfidence(sorted), processingTime, memoryUsage, sorted)
  }

  /** The returned predictions are the decoded entries, sorted and stable, and `accuracy`
      is the greatest confidence, found at the head of the list. */
  lemma MetricsProperties(results: seq<ModelPrediction>, processingTime: real, memoryUsage: nat)
    requires |results| > 0
    ensures var m := Metrics(results, processingTime, memoryUsage);
      && SortedDesc(m.predictions)
      && multiset(m.predictions) == multiset(results)
      && (forall c :: WithConfidence(m.predictions, c) == WithConfidence(results, c))
      && m.accuracy == m.predictions[0].confidence
      && (forall i :: 0 <= i < |results| ==> results[i].confidence <= m.accuracy)
      && m.processingTime == processingTime && m.memoryUsage == memoryUsage
  {
    var sorted := SortByConfidence(results);
    SortSortsAndPermutes(results);
    forall c ensures WithConfidence(sorted, c) == WithConfidence(results, c) {
      SortStable(results, c);
    }
    forall i | 0 <= i < |results| ensures results[i].confidence <= sorted[0].confidence {
      assert results[i] in multiset(sorted);
    }
  }

  /** The top prediction is the first entry, in catalog order, of greatest confidence. */
  lemma TopPrediction(results: seq<ModelPrediction>, k: nat)
    requires k < |results|
    requires forall j :: 0 <= j < |results| ==> results[j].confidence <= results[k].confidence
    requires forall j :: 0 <= j < k ==> results[j].confidence < results[k].confidence
    ensures |SortByConfidence(results)| == |results|
    ensures SortByConfidence(results)[0] == results[k]
  {
    var sorted := SortByConfidence(results);
    var c := results[k].confidence;
    SortSortsAndPermutes(results);
    assert results[k] in multiset(sorted);
    assert sorted[0] in multiset(results);
    assert sorted[0].confidence == c;
    SortStable(results, c);
    WithConfidenceHead(sorted, c, 0);
    WithConfidenceHead(results, c, k);
  }

  /** The raw scores [0.1, 0.05, 0.6, 0.05, 0.05, 0.05, 0.05, 0.05] rank the third catalog
      entry (id "3") first, with confidence 0.6, and report accuracy 0.6. */
  lemma RankingScenario(random: nat -> real, processingTime: real, memoryUsage: nat)
    ensures var scores := [Finite(0.1), Finite(0.05), Finite(0.6), Finite(0.05),
                           Finite(0.05), Finite(0.05), Finite(0.05), Finite(0.05)];
      var m := Metrics(Decode(scores, random, |Catalog|), processingTime, memoryUsage);
      && m.predictions[0].herbId == "3"
      && m.predictions[0].confidence == 0.6
      && m.accuracy == 0.6
  {
    var scores := [Finite(0.1), Finite(0.05), Finite(0.6), Finite(0.05),
                   Finite(0.05), Finite(0.05), Finite(0.05), Finite(0.05)];
    var results := Decode(scores, random, |Catalog|);
    DecodeAt(scores, random, |Catalog|);
    CatalogIds();
    forall j | 0 <= j < |results| ensures results[j].confidence == scores[j].value {
      assert Truthy(scores[j]);
    }
    TopPrediction(results, 2);
    MetricsProperties(results, processingTime, memoryUsage);
  }

  /** The decoding loop of `predict`: pushes one prediction per class index below `n`. */
  method DecodeScores(scores: seq<RawScore>, random: nat -> real, n: nat) returns (results: seq<ModelPrediction>)
    requires n <= |Catalog|
    ensures results == Decode(scores, random, n)
  {
    results := [];
    var i := 0;
    while i < n
      invariant 0 <= i <= n
      invariant results == Decode(scores, random, i)
    {
      var herb := Catalog[i];
      var confidence := if i < |scores| && Truthy(scores[i]) then scores[i].value
                        else random(i) * 0.3 + 0.7;
      var features := if |scores| < FeatureCount then scores else scores[..FeatureCount];
      assert ModelPrediction(herb.id, herb.name, confidence, features) == Entry(scores, random, i);
      results := results + [ModelPrediction(herb.id, herb.name, confidence, features)];
      i := i + 1;
    }
  }

  /** The built network, reduced to its number of output classes. */
  datatype Network = Network(outputUnits: nat)

  /** What `getModelInfo` reports; `None` in a shape stands for the batch dimension. */
  datatype ModelInfo = ModelInfo(
    inputShape: seq<Option<nat>>,
    outputShape: seq<Option<nat>>,
    trainableParams: nat,
    layers: nat)

  /** The info of the fixed topology: three 3x3 convolutions (32, 64, 128 filters) with two
      max-poolings and a global average pooling between them, a 256-unit dense layer, a
      dropout and a dense softmax layer with one unit per class. */
  function NetworkInfo(net: Network): (info: ModelInfo)
    ensures info.inputShape == [None, Some(InputSize), Some(InputSize), Some(3)]
    ensures info.outputShape == [None, Some(net.outputUnits)]
    ensures info.trainableParams == 126272 + 257 * net.outputUnits && info.layers == 9
  {
    var convolutions := (3 * 3 * 3 * 32 + 32) + (3 * 3 * 32 * 64 + 64) + (3 * 3 * 64 * 128 + 128);
    var dense := (128 * 256 + 256) + (256 * net.outputUnits + net.outputUnits);
    ModelInfo([None, Some(InputSize), Some(InputSize), Some(3)], [None, Some(net.outputUnits)],
              convolutions + dense, 9)
  }

  /** The four augmentations, in the order they are produced. */
  datatype Transform = Original | Flipped | Rotated | Brighter

  /** A canvas of the given size on which `image` was drawn under `transform`. */
  datatype Canvas = Canvas(width: nat, height: nat, image: string, transform: Transform)

  class HerbRecognitionModel {
    var model: Option<Network>
    var isLoaded: bool
    var classNames: seq<string>

    /** The labels follow the catalog, and `isLoaded` holds exactly while a network is present. */
    ghost predicate Valid()
      reads this
    {
      && classNames == InitialClassNames()
      && (isLoaded <==> model.Some?)
      && (model.Some? ==> model.value.outputUnits == |classNames|)
    }

    constructor ()
      ensures Valid()
      ensures model == None && !isLoaded
      ensures classNames == InitialClassNames() && |classNames| == |Catalog|
    {
      model := None;
      isLoaded := false;
      classNames := InitialClassNames();
    }

    /** Builds a fresh network on every call, also when one is loaded already. `buildFails`
        stands for the network construction throwing, which is caught and reported as `false`. */
    method LoadModel(buildFails: bool) returns (success: bool)
      requires Valid()
      modifies this
      ensures Valid()
      ensures success == !buildFails
      ensures success ==> isLoaded && model == Some(Network(|classNames|))
      ensures !success ==> model == old(model) && isLoaded == old(isLoaded)
      ensures classNames == old(classNames)
    {
      if buildFails {
        return false;
      }
      model := Some(Network(|classNames|));
      isLoaded := true;
      return true;
    }

    /** Releases the network, if any; without one nothing changes. */
    method Dispose()
      requires Valid()
      modifies this
      ensures Valid()
      ensures model == None && !isLoaded
      ensures classNames == old(classNames)
      ensures old(model).None? ==> isLoaded == old(isLoaded)
    {
      if model.Some? {
        model := None;
        isLoaded := false;
      }
    }

    /** `getModelInfo`: nothing without a network. */
    function GetModelInfo(): (info: Option<ModelInfo>)
      reads this
      requires Valid()
      ensures info.None? <==> !isLoaded
      ensures info.Some? ==> info.value.inputShape == [None, Some(InputSize), Some(InputSize), Some(3)]
      ensures info.Some? ==> info.value.outputShape == [None, Some(|Catalog|)]
      ensures info.Some? ==> info.value.trainableParams == 128328 && info.value.layers == 9
    {
      match model
      case None => None
      case Some(net) => Some(NetworkInfo(net))
    }

    /** One inference. `inferenceError` is the message of the error preprocessing or the
        forward pass throws, if either does; `scores` is the network's output for the image
        otherwise, `random` the draws of `Math.random()`, `processingTime` and `memoryUsage`
        the measured time and tensor bytes. Both kinds of failure reach the caller. */
    method Predict(inferenceError: Option<string>, scores: seq<RawScore>, random: nat -> real,
                   processingTime: real, memoryUsage: nat)
      returns (r: Result<ModelMetrics>)
      requires Valid()
      ensures r.Err? <==> !isLoaded || inferenceError.Some?
      ensures !isLoaded ==> r == Err(NotLoadedMessage)
      ensures isLoaded && inferenceError.Some? ==> r == Err(inferenceError.value)
      ensures r.Ok? ==> r.value == Metrics(Decode(scores, random, |Catalog|), processingTime, memoryUsage)
      ensures r.Ok? ==> |r.value.predictions| == |Catalog| && SortedDesc(r.value.predictions)
      ensures r.Ok? ==> r.value.accuracy == r.value.predictions[0].confidence
    {
      if model.None? || !isLoaded {
        return Err(NotLoadedMessage);
      }
      if inferenceError.Some? {
        return Err(inferenceError.value);
      }
      var n := if |classNames| < |Catalog| then |classNames| else |Catalog|;
      var results := DecodeScores(scores, random, n);
      assert n == |Catalog|;
      ghost var decoded := results;
      SortSortsAndPermutes(decoded);
      MetricsProperties(decoded, processingTime, memoryUsage);
      results := SortByConfidence(results);
      var accuracy := MaxConfidence(results);
      r := Ok(ModelMetrics(accuracy, processingTime, memoryUsage, results));
      assert r.value == Metrics(decoded, processingTime, memoryUsage);
    }

    /** Draws the image on four 224x224 canvases: as-is, mirrored, rotated by 15 degrees about
        the centre, and at 1.2 brightness. `contextAvailable(t)` says whether the canvas for `t`
        got a 2D context; if one did not, the call rejects and no canvas is delivered. */
    method ApplyDataAugmentation(image: string, contextAvailable: Transform -> bool)
      returns (r: Result<seq<Canvas>>)
      ensures r.Ok? <==> contextAvailable(Original) && contextAvailable(Flipped)
                         && contextAvailable(Rotated) && contextAvailable(Brighter)
      ensures r.Err? ==> r.error == NoContextMessage
      ensures r.Ok? ==> r.value == [Canvas(InputSize, InputSize, image, Original),
                                    Canvas(InputSize, InputSize, image, Flipped),
                                    Canvas(InputSize, InputSize, image, Rotated),
                                    Canvas(InputSize, InputSize, image, Brighter)]
    {
      var augmented: seq<Canvas> := [];

      if !contextAvailable(Original) {
        return Err(NoContextMessage);
      }
      augmented := augmented + [Canvas(InputSize, InputSize, image, Original)];

      if !contextAvailable(Flipped) {
        return Err(NoContextMessage);
      }
      augmented := augmented + [Canvas(InputSize, InputSize, image, Flipped)];

      if !contextAvailable(Rotated) {
        return Err(NoContextMessage);
      }
      augmented := augmented + [Canvas(InputSize, InputSize, image, Rotated)];

      if !contextAvailable(Brighter) {
        return Err(NoContextMessage);
      }
      augmented := augmented + [Canvas(InputSize, InputSize, image, Brighter)];

      return Ok(augmented);
    }
  }

  /** A fresh handle refuses to predict, predicts after loading, refuses again after `dispose`
      and predicts once more after being loaded again. */
  method LifecycleScenario(scores: seq<RawScore>, random: nat -> real, processingTime: real, memoryUsage: nat)
    returns (beforeLoad: Result<ModelMetrics>, loaded: Result<ModelMetrics>,
             afterDispose: Result<ModelMetrics>, reloaded: Result<ModelMetrics>)
    ensures beforeLoad == Err(NotLoadedMessage) && afterDispose == Err(NotLoadedMessage)
    ensures loaded == reloaded == Ok(Metrics(Decode(scores, random, |Catalog|), processingTime, memoryUsage))
  {
    var handle := new HerbRecognitionModel();
    beforeLoad := handle.Predict(None, scores, random, processingTime, memoryUsage);
    var success := handle.LoadModel(false);
    loaded := handle.Predict(None, scores, random, processingTime, memoryUsage);
    handle.Dispose();
    afterDispose := handle.Predict(None, scores, random, processingTime, memoryUsage);
    success := handle.LoadModel(false);
    reloaded := handle.Predict(None, scores, random, processingTime, memoryUsage);
  }
}
