/**
  Boolean-mask selection over one-dimensional sequences, as NumPy performs it
  for `scores > threshold` and `array[mask]`.

  A mask is a sequence of booleans with one entry per instance.  Selecting
  with a mask keeps, in their original order, the elements whose entry is
  true.  The reference description of that result is `KeptIndices`: the
  strictly increasing sequence of positions whose entry is true.
 */
module BooleanIndexing {

  datatype Option<+T> = None | Some(value: T)

  datatype Result<+T, +E> = Ok(value: T) | Err(error: E)

  /**
    NumPy's failure when a boolean index does not match the indexed axis,
    with both lengths.  `key` is not part of NumPy's error: it records which
    dictionary entry was being reassigned when the error was raised.
   */
  datatype IndexError = BooleanIndexMismatch(key: string, dimension: nat, booleanDimension: nat)

  /** The element-wise comparison `scores > threshold`: entry i is true iff score i is strictly above. */
  function Mask(scores: seq<real>, threshold: real): (m: seq<bool>)
    ensures |m| == |scores|
    ensures forall i :: 0 <= i < |scores| ==> (m[i] <==> scores[i] > threshold)
  {
    if scores == [] then [] else [scores[0] > threshold] + Mask(scores[1..], threshold)
  }

  /** Number of true entries of a mask. */
  function CountTrue(mask: seq<bool>): (n: nat)
    ensures n <= |mask|
  {
    if mask == [] then 0
    else CountTrue(mask[..|mask| - 1]) + (if mask[|mask| - 1] then 1 else 0)
  }

  ghost predicate StrictlyIncreasing(k: seq<nat>) {
    forall a, b :: 0 <= a < b < |k| ==> k[a] < k[b]
  }

  /**
    The positions a mask selects, in increasing order: every listed position
    is in range and true, and every true position is listed.
   */
  function KeptIndices(mask: seq<bool>): (k: seq<nat>)
    ensures |k| == CountTrue(mask)
    ensures StrictlyIncreasing(k)
    ensures forall j :: 0 <= j < |k| ==> k[j] < |mask| && mask[k[j]]
    ensures forall i :: 0 <= i < |mask| && mask[i] ==> i in k
  {
    if mask == [] then []
    else
      var prefix := mask[..|mask| - 1];
      assert forall i :: 0 <= i < |prefix| ==> prefix[i] == mask[i];
      KeptIndices(prefix) + (if mask[|mask| - 1] then [|mask| - 1] else [])
  }

  /** `xs[mask]` for a mask as long as `xs`: the selected elements, in order. */
  function Select<T>(xs: seq<T>, mask: seq<bool>): (r: seq<T>)
    requires |mask| == |xs|
    ensures |r| == CountTrue(mask)
  {
    if xs == [] then []
    else
      var n := |xs| - 1;
      Select(xs[..n], mask[..n]) + (if mask[n] then [xs[n]] else [])
  }

  /** Output position j of a selection holds the input element at the j-th kept position. */
  lemma {:induction false} SelectAt<T>(xs: seq<T>, mask: seq<bool>)
    requires |mask| == |xs|
    ensures |Select(xs, mask)| == |KeptIndices(mask)|
    ensures forall j :: 0 <= j < |Select(xs, mask)| ==>
              Select(xs, mask)[j] == xs[KeptIndices(mask)[j]]
  {
    if xs != [] {
      var n := |xs| - 1;
      SelectAt(xs[..n], mask[..n]);
      var r, k := Select(xs[..n], mask[..n]), KeptIndices(mask[..n]);
      var tail := if mask[n] then [xs[n]] else [];
      var tailIndex := if mask[n] then [n] else [];
      assert Select(xs, mask) == r + tail;
      assert KeptIndices(mask) == k + tailIndex;
      forall j | 0 <= j < |r|
        ensures (r + tail)[j] == xs[(k + tailIndex)[j]]
      {
        assert r[j] == xs[..n][k[j]];
      }
    }
  }

  /** A mask that keeps everything selects the whole sequence. */
  lemma {:induction false} SelectAllKept<T>(xs: seq<T>, mask: seq<bool>)
    requires |mask| == |xs|
    requires forall i :: 0 <= i < |mask| ==> mask[i]
    ensures Select(xs, mask) == xs
  {
    if xs != [] {
      var n := |xs| - 1;
      SelectAllKept(xs[..n], mask[..n]);
      assert xs[..n] + [xs[n]] == xs;
    }
  }

  /**
    NumPy boolean indexing `xs[mask]` along the first axis: it fails with an
    IndexError naming both lengths when the mask does not match the array,
    and otherwise keeps exactly the elements at the kept positions, in order.
   */
  function BooleanIndex<T>(key: string, xs: seq<T>, mask: seq<bool>): (r: Result<seq<T>, IndexError>)
    ensures r.Ok? <==> |xs| == |mask|
    ensures r.Err? ==> r.error == BooleanIndexMismatch(key, |xs|, |mask|)
    ensures r.Ok? ==> r.value == Select(xs, mask)
    ensures r.Ok? ==> |r.value| == |KeptIndices(mask)|
    ensures r.Ok? ==> forall j :: 0 <= j < |r.value| ==> r.value[j] == xs[KeptIndices(mask)[j]]
  {
    if |xs| != |mask| then Err(BooleanIndexMismatch(key, |xs|, |mask|))
    else
      SelectAt(xs, mask);
      Ok(Select(xs, mask))
  }
}
