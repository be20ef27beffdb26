# Faster R-CNN detection post-processing

This project models the part of Logodetect's `Detector` (the adapter around a
pretrained Faster R-CNN network) that has logic of its own: what happens to one
image's raw detections after the network returns them.

A detections dictionary holds three per-instance arrays, `boxes`, `labels` and
`scores`, where index i of each describes one detected instance. It may hold
other keys too. `_process_detections` works in three steps:

1. `_detections_to_cpu` replaces the three arrays by their host-memory copies.
2. It computes the mask `scores > MIN_CONFIDENCE`.
3. `_select_detections` reassigns `boxes`, `labels` and `scores` to their
   masked selections, one after the other, and then sets `brands` to `[]`.

Each step works on the same dictionary object and returns it.

Two modules:

- `BooleanIndexing` (`boolean_indexing.dfy`) models NumPy's element-wise
  comparison (`Mask`) and boolean indexing (`Select`, `BooleanIndex`) on
  sequences. `KeptIndices` is the reference description of a selection: the
  strictly increasing list of positions whose mask entry is true.
- `FasterRcnn` (`faster_rcnn.dfy`) has the value of a dictionary
  (`DetectionSet`) and the effect of selection and processing on it
  (`AfterSelect`, `AfterProcess`). The dictionary that the detector changes in
  place is the class `DetectionDict`. `Detector` holds the threshold and the
  three methods. Each method's postcondition ties the dictionary's new value to
  the specification function.

Scores are `real`. Box coordinates, label values and the values of other keys
are type parameters, because the code never inspects them. Keys other than the
four named ones stay as they are. Per-instance arrays stored under such keys are
therefore not filtered and no longer line up with the filtered arrays.

Two consequences of the code that the model keeps:

- `brands` is set to `[]` whatever the number of kept instances, so
  `AfterSelect` promises `brands == Some([])` and nothing about its length.
- Boolean indexing with a mask of the wrong length raises `IndexError`, and
  an `IndexError` leaves the arrays reassigned before it already filtered.
  Boxes are reassigned before labels, and labels before scores.
  `AfterSelect` and `Detector.SelectDetections` state this partial state. The
  mask is built from the scores, so during processing only `boxes` or
  `labels` can be the array that fails, and only when the record is not
  aligned.

## Model

| member | source | states |
|---|---|---|
| BooleanIndexing.Mask | logodetect/detectors/faster_rcnn.py:46 | The mask has one entry per score; entry i is true iff score i is strictly greater than the threshold |
| BooleanIndexing.KeptIndices | logodetect/detectors/faster_rcnn.py:58-60 | The positions a mask selects: strictly increasing, each in range with a true entry, every true entry listed, as many as the mask has true entries |
| BooleanIndexing.Select | logodetect/detectors/faster_rcnn.py:58-60 | Boolean indexing with a matching mask yields as many elements as the mask has true entries |
| BooleanIndexing.SelectAt | logodetect/detectors/faster_rcnn.py:58-60 | Output position j of `xs[mask]` is the input element at the j-th kept position: an order-preserving subsequence |
| BooleanIndexing.SelectAllKept | logodetect/detectors/faster_rcnn.py:58-60 | A mask that is true everywhere selects the whole array unchanged |
| BooleanIndexing.BooleanIndex | logodetect/detectors/faster_rcnn.py:58-60 | `xs[mask]` succeeds iff the mask is as long as the array; on failure the IndexError carries both lengths; on success element j is the input at the j-th kept position |
| FasterRcnn.AfterSelect | logodetect/detectors/faster_rcnn.py:56-62 | Other keys never change; no error iff all three arrays match the mask in length, and then boxes, labels and scores are each their masked selection (as many elements as the mask has true entries) and brands is `[]`; a boxes mismatch changes nothing; a labels mismatch leaves boxes already filtered; a scores mismatch leaves boxes and labels already filtered; each error names its array and both lengths |
| FasterRcnn.AfterProcess | logodetect/detectors/faster_rcnn.py:42-47 | Processing fails iff the record is not aligned, and then only at boxes or labels with scores untouched; other keys never change, and a record whose other keys are distinct from the four named ones stays so |
| FasterRcnn.ProcessKeepsAlignedSubsequence | logodetect/detectors/faster_rcnn.py:46-60 | On an aligned record: no error; boxes, labels and scores all have one entry per kept index; output j of each comes from the same input index; kept indices increase strictly; index i is kept iff its score is strictly above the threshold |
| FasterRcnn.ProcessedScoresAboveThreshold | logodetect/detectors/faster_rcnn.py:46-60 | Every score left after processing is strictly above the threshold |
| FasterRcnn.ScoreAtThresholdIsDropped | logodetect/detectors/faster_rcnn.py:46 | A single instance whose score equals the threshold is removed, leaving empty arrays and empty brands |
| FasterRcnn.EmptyRecordYieldsEmptySet | logodetect/detectors/faster_rcnn.py:42-62 | A record with no instances yields empty boxes, labels, scores and brands, other keys unchanged, and no error |
| FasterRcnn.ThreeScoreScenario | logodetect/detectors/faster_rcnn.py:42-62 | Scores [0.9, 0.3, 0.95] against 0.5 give the mask [true, false, true] and keep exactly the instances at positions 0 and 2 |
| FasterRcnn.FilterIsIdempotent | logodetect/detectors/faster_rcnn.py:46-61 | Filtering an already filtered aligned record again with the same threshold (mask and selection, host transfer as the identity) leaves it as it is |
| FasterRcnn.Detector.ProcessDetections | logodetect/detectors/faster_rcnn.py:42-47 | Updates the dictionary in place to the value `AfterProcess` gives; returns the same dictionary iff the record was aligned, and otherwise the IndexError |
| FasterRcnn.Detector.DetectionsToCpu | logodetect/detectors/faster_rcnn.py:49-54 | The host transfer leaves every entry's value as it was and returns the same dictionary |
| FasterRcnn.Detector.SelectDetections | logodetect/detectors/faster_rcnn.py:56-62 | Updates the dictionary in place to the value `AfterSelect` gives, including the partial update before an IndexError; returns the same dictionary on success, and otherwise the error |

## Left out

- `Detector.__init__` (logodetect/detectors/faster_rcnn.py:26-28) is not modelled. It looks up the algorithm in the `detectors` registry and loads weights onto a device, and both are calls into an external library. The model's `Detector` constructor only takes the confidence threshold.
- `MIN_CONFIDENCE` comes from a `constants` module that is not part of this model. It is the `minConfidence` field of `Detector`, so every property holds for any threshold.
- `predict` (logodetect/detectors/faster_rcnn.py:30-40) is not modelled. It converts the image to a GPU tensor, runs the network under `torch.no_grad` and takes the first element of its output. The network, the tensor conversion and the gradient setting are external.
- `Detector.DetectionsToCpu`: the device-to-host copy `.cpu().numpy()` is the identity on values, and device placement and its failures are not modelled. In the source, a dictionary that has already been processed holds NumPy arrays, which have no `.cpu()`, so processing it a second time raises `AttributeError`; the model lets it be processed again.
- Scores are unbounded reals, not float32. A NaN score would compare false and be dropped; reals have no NaN, so that case is not represented.
- Boxes are opaque elements selected along the first axis. Their four coordinates and the two-dimensional shape of the boxes array are not represented.
