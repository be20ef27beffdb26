/**
  Post-processing of one image's raw detections by the Faster R-CNN detector
  adapter: the raw record is moved to host memory, a confidence mask is
  computed from its scores, and boxes, labels and scores are filtered by that
  mask in place; `brands` is reset to an empty list.

  Box coordinates and label values are never inspected, so they are type
  parameters (`Box`, `Label`); so are the values of any other entries the
  record may carry (`Extra`).  Scores are reals: only `>` is applied to them.
 */
module FasterRcnn {
  import opened BooleanIndexing

  /**
    The value of a detections dictionary: the three per-instance arrays, the
    `brands` entry (absent in a raw record, hence an Option) and every other
    key with its value.  `others` holds only the remaining keys: see
    `DistinctKeys`.
   */
  datatype DetectionSet<Box, Label, Extra> = DetectionSet(
    boxes: seq<Box>,
    labels: seq<Label>,
    scores: seq<real>,
    brands: Option<seq<string>>,
    others: map<string, Extra>)
  {
    /** Index i of boxes, labels and scores describes one instance. */
    predicate Aligned() {
      |boxes| == |scores| && |labels| == |scores|
    }

    /** No key is stored twice: `others` holds none of the four keys given fields of their own. */
    predicate DistinctKeys() {
      others.Keys !! {"boxes", "labels", "scores", "brands"}
    }
  }

  /**
    The dictionary after a selection step, and the IndexError that ended the
    step early, if any.  Assignments made before the error stay in place.
   */
  datatype Outcome<Box, Label, Extra> = Outcome(state: DetectionSet<Box, Label, Extra>, error: Option<IndexError>)

  /**
    Effect of `_select_detections`: boxes, then labels, then scores are
    replaced by their masked selection, then brands by the empty list.  A
    mask whose length differs from an array raises at that array, leaving the
    arrays assigned before it already filtered.  Other keys never change.
   */
  function AfterSelect<Box, Label, Extra>(d: DetectionSet<Box, Label, Extra>, selections: seq<bool>): (o: Outcome<Box, Label, Extra>)
    ensures o.state.others == d.others
    ensures o.error.None? <==> |d.boxes| == |selections| && |d.labels| == |selections| && |d.scores| == |selections|
    ensures o.error.None? ==> o.state.brands == Some([]) && o.state.Aligned()
    ensures o.error.Some? ==> o.state.brands == d.brands && o.state.scores == d.scores
    ensures o.error.None? ==>
              && o.state.boxes == Select(d.boxes, selections)
              && o.state.labels == Select(d.labels, selections)
              && o.state.scores == Select(d.scores, selections)
              && |o.state.scores| == CountTrue(selections)
    ensures |d.boxes| != |selections| ==>
              o.state == d && o.error == Some(BooleanIndexMismatch("boxes", |d.boxes|, |selections|))
    ensures |d.boxes| == |selections| && |d.labels| != |selections| ==>
              && o.state == d.(boxes := Select(d.boxes, selections))
              && o.error == Some(BooleanIndexMismatch("labels", |d.labels|, |selections|))
    ensures |d.boxes| == |selections| && |d.labels| == |selections| && |d.scores| != |selections| ==>
              && o.state == d.(boxes := Select(d.boxes, selections), labels := Select(d.labels, selections))
              && o.error == Some(BooleanIndexMismatch("scores", |d.scores|, |selections|))
  {
    match BooleanIndex("boxes", d.boxes, selections)
    case Err(e) => Outcome(d, Some(e))
    case Ok(boxes) =>
      match BooleanIndex("labels", d.labels, selections)
      case Err(e) => Outcome(d.(boxes := boxes), Some(e))
      case Ok(labels) =>
        match BooleanIndex("scores", d.scores, selections)
        case Err(e) => Outcome(d.(boxes := boxes, labels := labels), Some(e))
        case Ok(scores) => Outcome(d.(boxes := boxes, labels := labels, scores := scores, brands := Some([])), None)
  }

  /**
    Effect of `_process_detections` (host transfer is the identity on values).
    The mask is built from the scores, so only boxes or labels can mismatch it,
    and that happens exactly when the record is not aligned.
   */
  function AfterProcess<Box, Label, Extra>(d: DetectionSet<Box, Label, Extra>, minConfidence: real): (o: Outcome<Box, Label, Extra>)
    ensures o.error.None? <==> d.Aligned()
    ensures o.error.Some? ==> o.error.value.key in {"boxes", "labels"} && o.state.scores == d.scores
    ensures o.state.others == d.others
    ensures d.DistinctKeys() ==> o.state.DistinctKeys()
  {
    AfterSelect(d, Mask(d.scores, minConfidence))
  }

  /**
    On an aligned record, processing succeeds and the three output arrays are
    the order-preserving subsequence of the kept instances: output position j
    of each array comes from the same input index KeptIndices(...)[j], those
    indices increase strictly, and an index is kept iff its score is strictly
    above the threshold.
   */
  lemma ProcessKeepsAlignedSubsequence<Box, Label, Extra>(d: DetectionSet<Box, Label, Extra>, minConfidence: real)
    requires d.Aligned()
    ensures var o, k := AfterProcess(d, minConfidence), KeptIndices(Mask(d.scores, minConfidence));
      && o.error == None
      && StrictlyIncreasing(k)
      && (forall i :: 0 <= i < |d.scores| ==> (i in k <==> d.scores[i] > minConfidence))
      && |o.state.boxes| == |k| && |o.state.labels| == |k| && |o.state.scores| == |k|
      && (forall j :: 0 <= j < |k| ==>
            (&& k[j] < |d.scores|
             && o.state.boxes[j] == d.boxes[k[j]]
             && o.state.labels[j] == d.labels[k[j]]
             && o.state.scores[j] == d.scores[k[j]]))
  {
    var m := Mask(d.scores, minConfidence);
    var k := KeptIndices(m);
    forall i | 0 <= i < |d.scores|
      ensures i in k <==> d.scores[i] > minConfidence
    {
      if i in k {
        var j :| 0 <= j < |k| && k[j] == i;
        assert m[k[j]];
      }
    }
  }

  /** Every score left after processing is strictly above the threshold. */
  lemma ProcessedScoresAboveThreshold<Box, Label, Extra>(d: DetectionSet<Box, Label, Extra>, minConfidence: real)
    requires d.Aligned()
    ensures forall j :: 0 <= j < |AfterProcess(d, minConfidence).state.scores| ==>
              AfterProcess(d, minConfidence).state.scores[j] > minConfidence
  {
    var k := KeptIndices(Mask(d.scores, minConfidence));
    ProcessKeepsAlignedSubsequence(d, minConfidence);
    forall j | 0 <= j < |k|
      ensures d.scores[k[j]] > minConfidence
    {
      assert Mask(d.scores, minConfidence)[k[j]];
    }
  }

  /** A score equal to the threshold is dropped, so the single instance of this record disappears. */
  lemma ScoreAtThresholdIsDropped<Box, Label, Extra>(box: Box, classId: Label, minConfidence: real, others: map<string, Extra>)
    ensures var d := DetectionSet([box], [classId], [minConfidence], None, others);
      AfterProcess(d, minConfidence) == Outcome(DetectionSet([], [], [], Some([]), others), None)
  {
    var d := DetectionSet([box], [classId], [minConfidence], None, others);
    assert Mask(d.scores, minConfidence) == [false];
  }

  /** A record with no instances yields empty arrays and empty brands, without error. */
  lemma EmptyRecordYieldsEmptySet<Box, Label, Extra>(d: DetectionSet<Box, Label, Extra>, minConfidence: real)
    requires d.boxes == [] && d.labels == [] && d.scores == []
    ensures AfterProcess(d, minConfidence) == Outcome(d.(brands := Some([])), None)
  {
    assert Mask(d.scores, minConfidence) == [];
  }

  /**
    Scores [0.9, 0.3, 0.95] against 0.5: the mask is [true, false, true] and
    only the instances at positions 0 and 2 remain.
   */
  lemma ThreeScoreScenario<Box, Label, Extra>(boxes: seq<Box>, labels: seq<Label>, others: map<string, Extra>)
    requires |boxes| == 3 && |labels| == 3
    ensures var d := DetectionSet(boxes, labels, [0.9, 0.3, 0.95], None, others);
      && Mask(d.scores, 0.5) == [true, false, true]
      && AfterProcess(d, 0.5) == Outcome(DetectionSet([boxes[0], boxes[2]], [labels[0], labels[2]], [0.9, 0.95], Some([]), others), None)
  {
    var d := DetectionSet(boxes, labels, [0.9, 0.3, 0.95], None, others);
    var m := Mask(d.scores, 0.5);
    assert m == [true, false, true];
    assert KeptIndices(m) == [0, 2] by {
      assert m[..2] == [true, false] && m[..2][..1] == [true] && m[..2][..1][..0] == [];
    }
    ProcessKeepsAlignedSubsequence(d, 0.5);
  }

  /**
    Filtering an already filtered record again with the same threshold (mask
    and selection, with the host transfer taken as the identity) changes
    nothing: every remaining score is above the threshold, so the mask keeps
    everything, and brands is already empty.  The source itself cannot run
    `_process_detections` twice on one dictionary: see README, "Left out".
   */
  lemma {:induction false} FilterIsIdempotent<Box, Label, Extra>(d: DetectionSet<Box, Label, Extra>, minConfidence: real)
    requires d.Aligned()
    ensures AfterProcess(AfterProcess(d, minConfidence).state, minConfidence) == AfterProcess(d, minConfidence)
  {
    var once := AfterProcess(d, minConfidence).state;
    ProcessedScoresAboveThreshold(d, minConfidence);
    var m := Mask(once.scores, minConfidence);
    SelectAllKept(once.boxes, m);
    SelectAllKept(once.labels, m);
    SelectAllKept(once.scores, m);
  }

  /** A detections dictionary, whose entries the detector reassigns in place. */
  class DetectionDict<Box, Label, Extra> {
    var boxes: seq<Box>
    var labels: seq<Label>
    var scores: seq<real>
    var brands: Option<seq<string>>
    var others: map<string, Extra>

    constructor (d: DetectionSet<Box, Label, Extra>)
      ensures Value() == d
    {
      boxes, labels, scores, brands, others := d.boxes, d.labels, d.scores, d.brands, d.others;
    }

    /** The dictionary's current contents. */
    function Value(): DetectionSet<Box, Label, Extra>
      reads this
    {
      DetectionSet(boxes, labels, scores, brands, others)
    }
  }

  /**
    The detector.  The detection network it wraps is not part of this model;
    what remains is the configured confidence threshold MIN_CONFIDENCE.
   */
  class Detector {
    const minConfidence: real

    constructor (minConfidence: real)
      ensures this.minConfidence == minConfidence
    {
      this.minConfidence := minConfidence;
    }

    /**
      `_process_detections`: transfer to host, build the mask from the scores
      and select in place; returns the same dictionary, or the IndexError
      raised when boxes or labels do not match the scores in length.
     */
    method ProcessDetections<Box, Label, Extra>(detections: DetectionDict<Box, Label, Extra>)
      returns (r: Result<DetectionDict<Box, Label, Extra>, IndexError>)
      modifies detections
      ensures detections.Value() == AfterProcess(old(detections.Value()), minConfidence).state
      ensures r.Ok? <==> old(detections.Value()).Aligned()
      ensures r.Ok? ==> r.value == detections
      ensures r.Err? ==> Some(r.error) == AfterProcess(old(detections.Value()), minConfidence).error
    {
      var onHost := DetectionsToCpu(detections);
      var selections := Mask(onHost.scores, minConfidence);
      r := SelectDetections(onHost, selections);
    }

    /**
      `_detections_to_cpu`: boxes, labels and scores are replaced by their
      host copies, which hold the same values; the same dictionary is returned.
     */
    method DetectionsToCpu<Box, Label, Extra>(detections: DetectionDict<Box, Label, Extra>)
      returns (r: DetectionDict<Box, Label, Extra>)
      modifies detections
      ensures r == detections
      ensures detections.Value() == old(detections.Value())
    {
      detections.boxes := detections.boxes;
      detections.labels := detections.labels;
      detections.scores := detections.scores;
      r := detections;
    }

    /**
      `_select_detections`: reassign boxes, labels and scores to their masked
      selections, one after the other, then brands to the empty list.  An
      IndexError stops the sequence at the array that does not match the mask.
     */
    method SelectDetections<Box, Label, Extra>(detections: DetectionDict<Box, Label, Extra>, selections: seq<bool>)
      returns (r: Result<DetectionDict<Box, Label, Extra>, IndexError>)
      modifies detections
      ensures detections.Value() == AfterSelect(old(detections.Value()), selections).state
      ensures r.Ok? <==> AfterSelect(old(detections.Value()), selections).error.None?
      ensures r.Ok? ==> r.value == detections
      ensures r.Err? ==> Some(r.error) == AfterSelect(old(detections.Value()), selections).error
    {
      var boxes := BooleanIndex("boxes", detections.boxes, selections);
      if boxes.Err? {
        return Err(boxes.error);
      }
      detections.boxes := boxes.value;
      var labels := BooleanIndex("labels", detections.labels, selections);
      if labels.Err? {
        return Err(labels.error);
      }
      detections.labels := labels.value;
      var scores := BooleanIndex("scores", detections.scores, selections);
      if scores.Err? {
        return Err(scores.error);
      }
      detections.scores := scores.value;
      detections.brands := Some([]);
      r := Ok(detections);
    }
  }
}
