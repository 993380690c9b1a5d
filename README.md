# Herb recognition: a Dafny model of the classifier handle and the app logic around it

The app lets a user upload a photo of a Chinese medicinal herb. An in-browser classifier
scores the photo against a fixed catalog of eight herbs, and the app shows the ranked
candidates, keeps a history of recognitions, collects user feedback and derives statistics.
This project models, in Dafny, the parts of that app that make decisions:

- **The classifier handle** (`HerbRecognition`). It is a class with the fields `model`,
  `isLoaded` and `classNames`. Its methods are `LoadModel`, `Dispose`, `GetModelInfo`,
  `Predict` and `ApplyDataAugmentation`.
  - `Predict` refuses to run without a loaded network.
  - It joins raw scores to catalog entries by index. A falsy score is replaced by
    `Math.random() * 0.3 + 0.7`.
  - It sorts the entries by descending confidence with a stable sort, and reports the
    greatest confidence as `accuracy`.
  - The decoding loop is the method `DecodeScores`. It is proved against the
    specification function `Decode`.
- **The catalog and keyword search** (`HerbDatabase`). This is the eight-entry table,
  `searchHerbs` and `mockRecognition`.
- **The derived statistics** (`ModelAtoms`). This is the `UserFeedback` record and the
  `modelStatsAtom` derivation.
- **The shared app state** (`Store`). This is one class whose fields are the atoms the
  handlers read and write.
- **The home page logic** (`HomePageLogic`). It covers the upload check, `initializeModel`,
  and `processImage`. `processImage` turns the top prediction into a recognition record,
  prepends it to the histories, and switches to the results page.
- **The feedback panel** (`ModelFeedback`). It is a form state machine: the verdict
  buttons, the star rating, the text fields, cancel and submit. It also covers the
  five-entry recent list.
- **The history page** (`HistoryPage`). It covers deleting by id, clearing after
  confirmation, and opening a record's result or detail page.

`Lists` and `JsText` hold the JavaScript library operations the source relies on, stated
once over Dafny sequences: `filter`, `find`, `reduce(+)`, `trim`, `includes`,
`startsWith` and `toLowerCase`. `Wrappers` holds `Option` and `Result`.

Modelling choices:

- **JavaScript values.**
  - Confidences are exact `real`s.
  - A raw classifier score is `Finite(v)` or `NaN`. It is truthy exactly when it is finite
    and non-zero, and a score past the end of the output buffer counts as `undefined`.
  - Each `Math.random()` draw is the parameter `random(i)`, one value per class index.
  - Each `Date.now()` reading is a parameter.
  - Whether the browser grants a 2D canvas context is a parameter, and so is the answer to
    `window.confirm`.
- **Behaviour of the code that the model keeps as written:**
  - `loadModel` builds a new network on every call, with no "already loaded" short-cut.
  - Only `0`, `NaN` and missing scores are replaced by the random fallback, because the
    fallback is taken with `||`. An infinite score would be truthy and kept as it is.
  - `processImage` never lowers `isLoading` on its success, not-loaded or failed-inference
    paths. It lowers it only when the image fails to load.
- **`Array.prototype.sort`** is modelled as a stable insertion sort, `SortByConfidence`.
  ECMAScript 2019 and later require a stable sort. The sort belongs to the library, so the
  model does not copy its algorithm.

## Model

| member | source | states |
|---|---|---|
| HerbDatabase.CatalogIds | src/data/herbDatabase.ts:7-104 | the catalog has eight entries whose ids are "1" to "8" in that order |
| HerbDatabase.CatalogIdsDistinct | src/data/herbDatabase.ts:7-104 | no two catalog entries share an id |
| HerbDatabase.Matches | src/data/herbDatabase.ts:111-116 | the empty keyword passes the test for every herb, since every string includes the empty string |
| HerbDatabase.SearchHerbs | src/data/herbDatabase.ts:107-117 | the search returns at most as many herbs as the catalog has, and only catalog entries |
| HerbDatabase.SearchBlankIsCatalog | src/data/herbDatabase.ts:108 | a keyword that trims to nothing returns the whole catalog, unchanged and in order |
| HerbDatabase.SearchMembership | src/data/herbDatabase.ts:110-116 | for any other keyword an entry is returned iff it is in the catalog and one of the four tests holds: name contains the keyword, lower-cased scientific name contains the lower-cased keyword, some function tag contains it, or the category contains it |
| HerbDatabase.SearchIsSubsequence | src/data/herbDatabase.ts:107-117 | the result is always a subsequence of the catalog: nothing invented, catalog order kept |
| HerbDatabase.SearchFoldsScientificNameCase | src/data/herbDatabase.ts:110-113 | the scientific-name test folds case: "PANAX" finds the ginseng entry |
| HerbDatabase.MockRecognition | src/data/herbDatabase.ts:120-127 | for a draw in [0, 1) the entry at `floor(draw * length)` is a catalog element |
| JsText.TrimEmptyIff | src/data/herbDatabase.ts:108 | `keyword.trim()` is empty iff every character is ECMAScript white space or a line terminator |
| JsText.IncludesIff | src/data/herbDatabase.ts:112-115 | `s.includes(k)` holds iff `k` occurs in `s` at some position |
| JsText.LowerChar | src/data/herbDatabase.ts:110 | `toLowerCase` maps an ASCII capital to its small letter (code point + 32) and leaves every other character as it is |
| Lists.Filter | src/data/herbDatabase.ts:111 | `filter` keeps only elements of the input that pass the test, and keeps every element that passes |
| Lists.FilterMultiplicity | src/components/HistoryPage/index.tsx:37 | `filter` keeps exactly as many copies of a passing element as the input has, and none of a failing one |
| Lists.SubsequenceReflexive | src/data/herbDatabase.ts:108 | every list is a subsequence of itself, so the blank-keyword search (the whole catalog) keeps catalog order |
| Lists.FilterIsSubsequence | src/data/herbDatabase.ts:111 | `filter` yields a subsequence of its input |
| Lists.FilterAll | src/components/HistoryPage/index.tsx:37 | when every element passes, `filter` returns its input unchanged |
| Lists.FilterNone | src/store/modelAtoms.ts:55 | when no element passes, `filter` returns the empty list |
| Lists.FilterIdempotent | src/components/HistoryPage/index.tsx:37 | filtering twice by the same test equals filtering once |
| Lists.Find | src/components/HomePage/homePageLogic.ts:77 | `find` is `undefined` iff no element passes, else the first element that passes |
| Lists.SumBounds | src/store/modelAtoms.ts:52-57 | a `reduce(+)` over n values in [lo, hi] lies in [n·lo, n·hi] |
| HerbRecognition.InitialClassNames | src/models/herbRecognitionModel.ts:32-34 | the class names are the catalog names in catalog order, one per entry |
| HerbRecognition.Confidence | src/models/herbRecognitionModel.ts:220 | a truthy score is the confidence itself; otherwise, for a draw in [0, 1), the fallback lies in [0.7, 1.0) |
| HerbRecognition.Features | src/models/herbRecognitionModel.ts:221 | the features are a prefix of the scores, of length min(10, number of scores) |
| HerbRecognition.Decode | src/models/herbRecognitionModel.ts:213-224 | after the loop has run to n there are exactly n results |
| HerbRecognition.DecodeAt | src/models/herbRecognitionModel.ts:214-222 | result i carries catalog entry i's id and name, confidence i and the same feature prefix |
| HerbRecognition.DecodeScores | src/models/herbRecognitionModel.ts:213-224 | the loop that pushes one prediction per index builds exactly `Decode` |
| HerbRecognition.SortByConfidence | src/models/herbRecognitionModel.ts:227 | the sort returns as many predictions as it is given (order and contents in `SortSortsAndPermutes`) |
| HerbRecognition.SortSortsAndPermutes | src/models/herbRecognitionModel.ts:227 | the sorted predictions are in non-increasing confidence and are a permutation of the input |
| HerbRecognition.SortStable | src/models/herbRecognitionModel.ts:227 | entries of equal confidence keep their relative order (stable sort) |
| HerbRecognition.MaxConfidence | src/models/herbRecognitionModel.ts:232 | `Math.max` of the confidences bounds every confidence and is attained by one of them |
| HerbRecognition.Metrics | src/models/herbRecognitionModel.ts:226-236 | the bundle holds one prediction per decoded entry and passes the measured time and memory through |
| HerbRecognition.MetricsProperties | src/models/herbRecognitionModel.ts:226-236 | the metrics list is sorted, a stable permutation of the decoded entries; `accuracy` is the head's confidence and no smaller than any confidence; time and memory are passed through |
| HerbRecognition.TopPrediction | src/models/herbRecognitionModel.ts:227-232 | the head of the sorted list is the first entry, in catalog order, of greatest confidence |
| HerbRecognition.RankingScenario | src/models/herbRecognitionModel.ts:213-236 | scores [0.1, 0.05, 0.6, 0.05, …] rank herb "3" first with confidence 0.6 and accuracy 0.6 |
| HerbRecognition.NetworkInfo | src/models/herbRecognitionModel.ts:53-87 | the topology takes [null, 224, 224, 3] inputs, gives one output per unit of its last layer, has 9 layers and 126272 + 257·units trainable parameters |
| HerbRecognition.HerbRecognitionModel.constructor | src/models/herbRecognitionModel.ts:23-34 | a new handle has no network, is not loaded and holds the catalog's names |
| HerbRecognition.HerbRecognitionModel.LoadModel | src/models/herbRecognitionModel.ts:37-48 | success iff construction does not throw; on success a network with one output per class is loaded, also when one was loaded before; on failure nothing changes |
| HerbRecognition.HerbRecognitionModel.Dispose | src/models/herbRecognitionModel.ts:262-272 | afterwards there is no network and the handle is not loaded; without a network nothing changes |
| HerbRecognition.HerbRecognitionModel.GetModelInfo | src/models/herbRecognitionModel.ts:245-259 | null iff not loaded; otherwise the input shape is [null, 224, 224, 3], the output shape is [null, 8], and the topology has 9 layers and 128328 trainable parameters |
| HerbRecognition.HerbRecognitionModel.Predict | src/models/herbRecognitionModel.ts:193-242 | it fails iff the handle is not loaded or inference throws: with "模型未加载" when not loaded (checked first), otherwise with the thrown message; on success it returns the metrics of the decoded scores: 8 predictions, sorted, accuracy equal to the head's confidence |
| HerbRecognition.HerbRecognitionModel.ApplyDataAugmentation | src/models/herbRecognitionModel.ts:128-190 | it resolves iff all four contexts exist, giving exactly four 224×224 canvases in the order original, flipped, rotated, brighter; otherwise it rejects with "无法创建canvas上下文" and delivers nothing |
| HerbRecognition.LifecycleScenario | src/models/herbRecognitionModel.ts:193-196 | predict fails before load and after dispose, and succeeds with the same metrics after load and after a reload |
| ModelAtoms.ComputeStats | src/store/modelAtoms.ts:37-67 | all five stats are zero with an empty history, whatever the feedback; otherwise the total is the history length, each average is the `Mean` of its sum over the history length, the correct count is the number of feedbacks marked correct, and satisfaction is the mean rating (zero without feedback) |
| ModelAtoms.Mean | src/store/modelAtoms.ts:52-57 | the mean times the count is the total |
| ModelAtoms.Satisfaction | src/store/modelAtoms.ts:56-58 | zero without feedback; otherwise the rating mean, which times the number of feedbacks is the rating sum |
| ModelAtoms.MeanBounds | src/store/modelAtoms.ts:52-58 | a mean of values in [lo, hi] lies in [lo, hi] |
| ModelAtoms.AverageAccuracyBounds | src/store/modelAtoms.ts:52 | if every recorded accuracy lies in [lo, hi], so does the average accuracy |
| ModelAtoms.SatisfactionBounds | src/store/modelAtoms.ts:56-58 | if every rating lies in [lo, hi], so does satisfaction |
| ModelAtoms.CorrectPredictionsBounds | src/store/modelAtoms.ts:55 | the correct count is at most the number of feedbacks; it is zero when none is correct and all of them when all are |
| ModelAtoms.StatsAfterPrepend | src/store/modelAtoms.ts:51-52 | recording one more prediction adds one to the total and its accuracy to the accuracy sum |
| Store.AppState.constructor | src/store/atoms.ts:31-46 | every atom starts at its declared initial value; the start page is "test" |
| Store.AppState.Stats | src/store/modelAtoms.ts:37-67 | the derived atom counts every recorded prediction and never more correct predictions than feedback entries |
| Store.AppState.PublishRecognition | src/components/HomePage/homePageLogic.ts:89-95 | sets the current record and prediction, prepends both to their histories, selects the results page, and changes nothing else |
| HomePageLogic.CheckSelectedFile | src/components/HomePage/homePageLogic.ts:126-140 | no file → nothing; a MIME type not starting with "image/" → rejected; an image over 10·1024·1024 bytes → rejected; otherwise accepted (each both ways) |
| HomePageLogic.UploadLimitBoundary | src/components/HomePage/homePageLogic.ts:137-140 | exactly 10 MiB is accepted, one byte more is rejected, and a text file is refused |
| HomePageLogic.FindById | src/components/HomePage/homePageLogic.ts:77 | the lookup is empty iff no catalog entry has the id; otherwise it is a catalog entry with that id |
| HomePageLogic.FindCatalogEntry | src/components/HomePage/homePageLogic.ts:77 | looking up entry i's id finds entry i |
| HomePageLogic.TopPredictionResolves | src/components/HomePage/homePageLogic.ts:76-77 | the top prediction of any successful inference names a catalog entry with the same name, so `result` is never null |
| HomePageLogic.InitializeModel | src/components/HomePage/homePageLogic.ts:41-55 | `modelLoading` is false afterwards and `modelLoaded` is `loadModel`'s result; a successful build loads a fresh network with one output per class, a failed one leaves the handle's network and load flag as they were, and the class names never change |
| HomePageLogic.RecordFor | src/components/HomePage/homePageLogic.ts:76-86 | the record carries the top prediction's confidence, the image and the two time readings; its result is empty iff no catalog entry has the predicted id, and otherwise is the catalog entry with that id |
| HomePageLogic.ProcessImage | src/components/HomePage/homePageLogic.ts:57-119 | it returns early iff the model flag is off, and stops at image-load failure (the only path that lowers `isLoading`) or inference failure (the handle not loaded or inference throwing, which is caught and changes no state); on success the record is built from `predictions[0]` and the catalog lookup, both histories get the new entry in front of the old ones, and the page becomes "result"; other paths leave the histories alone |
| ModelFeedback.BuildFeedback | src/components/ModelFeedback/index.tsx:33-43 | the entry takes the predicted name and confidence from the top prediction, the verdict, rating and comments from the form, and the typed name, or the predicted name when that is empty |
| ModelFeedback.RecentFeedback | src/components/ModelFeedback/index.tsx:56 | the recent list is the first min(5, n) entries |
| ModelFeedback.RecentAfterSubmit | src/components/ModelFeedback/index.tsx:45-56 | after a prepend the new entry heads the recent list, followed by the previous recent entries minus the oldest once five are shown |
| ModelFeedback.FeedbackPanel.constructor | src/components/ModelFeedback/index.tsx:15-21 | the form starts as (null, "", 0, "") and hidden |
| ModelFeedback.FeedbackPanel.SubmitEnabled | src/components/ModelFeedback/index.tsx:155 | the submit button is enabled iff a rating was picked |
| ModelFeedback.FeedbackPanel.ChooseCorrect | src/components/ModelFeedback/index.tsx:77-86 | sets the verdict to correct and opens the form, keeping the other fields |
| ModelFeedback.FeedbackPanel.ChooseWrong | src/components/ModelFeedback/index.tsx:88-97 | sets the verdict to wrong and opens the form, keeping the other fields |
| ModelFeedback.FeedbackPanel.HandleRatingClick | src/components/ModelFeedback/index.tsx:23-25 | sets the rating to the clicked star (1 to 5) and nothing else |
| ModelFeedback.FeedbackPanel.EditActualHerbName | src/components/ModelFeedback/index.tsx:110 | replaces the typed herb name and nothing else |
| ModelFeedback.FeedbackPanel.EditComments | src/components/ModelFeedback/index.tsx:144 | replaces the comments and nothing else |
| ModelFeedback.FeedbackPanel.Cancel | src/components/ModelFeedback/index.tsx:163 | hides the form and keeps what was entered |
| ModelFeedback.FeedbackPanel.HandleSubmitFeedback | src/components/ModelFeedback/index.tsx:27-54 | without a current prediction or a verdict nothing changes; otherwise the built entry is prepended to the feedback list and the form is reset and hidden; an entry sent through the enabled button has a rating in 1..5 |
| HistoryPage.DeleteRecord | src/components/HistoryPage/index.tsx:37 | every copy of a record with another id survives, and no record with the deleted id does |
| HistoryPage.DeleteMembership | src/components/HistoryPage/index.tsx:36-38 | a record survives deletion iff it was in the history and has another id |
| HistoryPage.DeleteKeepsOrder | src/components/HistoryPage/index.tsx:37 | the survivors keep their relative order (a subsequence) |
| HistoryPage.DeleteAbsentId | src/components/HistoryPage/index.tsx:37 | deleting an id no record has changes nothing |
| HistoryPage.DeleteIdempotent | src/components/HistoryPage/index.tsx:37 | deleting the same id twice equals deleting it once |
| HistoryPage.HandleDeleteRecord | src/components/HistoryPage/index.tsx:36-38 | the history becomes the filtered history, in which no record has the id |
| HistoryPage.ClearAllHistory | src/components/HistoryPage/index.tsx:40-44 | a confirmed request empties the history; a declined one changes nothing |
| HistoryPage.HandleViewResult | src/components/HistoryPage/index.tsx:24-27 | the record becomes the current recognition and the page becomes "result" |
| HistoryPage.HandleViewDetail | src/components/HistoryPage/index.tsx:29-34 | with a matched herb, that herb becomes the detail and the page becomes "detail"; without one nothing changes |

## Left out

- The tf.js network construction, the forward pass and `preprocessImage` are foreign
  library calls on float tensors. The network is reduced to its number of output units,
  and the forward pass becomes the score sequence handed to `Predict`, or the message of
  the error it throws, as the input `inferenceError`. `GetModelInfo`
  reports the parameter count and layer count of the fixed topology, computed from the
  layer sizes rather than read from tf.js.
- The pixel effects of the four canvas transforms (mirror, 15° rotation, 1.2 brightness)
  are not modelled. Each canvas records only its size, the image and which transform was
  applied.
- `performance.now` timing, `tf.memory().numBytes`, `Math.random()` and `Date.now()` are
  inputs. Their actual values are not modelled.
- Float32 rounding and infinite scores are not modelled: scores are exact reals or NaN.
- HerbRecognition.HerbRecognitionModel.Dispose: an exception thrown by tf.js while
  freeing the network, which the source catches, is not modelled.
- HerbRecognition.HerbRecognitionModel.ApplyDataAugmentation: a `drawImage` exception,
  which rejects the promise, is not modelled. Only missing contexts are.
- HerbRecognition.HerbRecognitionModel.GetModelInfo: an exception from tf.js while reading
  the shapes, which the source turns into `null`, is not modelled.
- HerbRecognition.HerbRecognitionModel.LoadModel: the old network is never freed when a
  new one is built, and this leak is not represented.
- JsText.LowerChar: `toLowerCase` is modelled for ASCII letters only. Other characters are
  kept as they are, whereas JavaScript also lowers non-ASCII capitals.
- JavaScript strings are UTF-16 code units, while this model's strings are sequences of
  Unicode scalar values. The two differ only for characters outside the Basic
  Multilingual Plane.
- HomePageLogic.ProcessImage: the toast messages, the FileReader, and the asynchrony of
  `img.onload` are not modelled. The image either loads or fails, as a boolean input. The
  outer `catch` at lines 114-118 is not modelled, because nothing in the modelled path
  throws there.
- HomePageLogic.CheckSelectedFile: clearing the file input's value after an accepted file
  is not modelled.
- ModelFeedback.FeedbackPanel.HandleRatingClick: only calls from the five star buttons
  are modelled, so the rating is always 1 to 5.
- The `searchKeyword` and `dataAugmentationResults` atoms are not modelled, because no
  modelled handler reads or writes them.
- Toasts, `console` logging, React hooks and Jotai as a mechanism are not modelled.
- All JSX rendering is left out, as are the pages that only display: results, detail,
  search, the augmentation and visualisation panels, the training demo, and the routing
  in `App.tsx`.
