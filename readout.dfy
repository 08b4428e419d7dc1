/**
 * What `getMonoData` and `getStereoData` deliver, as functions of the recorder's block
 * lists and counter: which list a selector picks (and the three errors), and the
 * flattened, interleaved or duplicated samples written into a Float32Array sized from
 * `recordingLength`.
 */
module Readout {

  import opened Wrappers
  import opened Settings
  import opened Samples

  /** The three errors the getters throw. */
  datatype NoData = NothingForLeft | NothingForRight | NothingRecorded

  function Message(e: NoData): (r: string)
    ensures |r| >= 25 && r[..25] == "There is nothing recorded"
    ensures e == NothingRecorded <==> |r| == 25
  {
    match e
    case NothingForLeft => "There is nothing recorded for the left channel"
    case NothingForRight => "There is nothing recorded for the right channel"
    case NothingRecorded => "There is nothing recorded"
  }

  datatype Result<T> = Ok(value: T) | Err(error: NoData)

  /** A recorded channel: `None` when the channel is not recorded, else its blocks. */
  type Channel = Option<seq<Block>>

  /** Every block of each present list has `b` samples, and in stereo both lists hold as many blocks. */
  ghost predicate Shaped(left: Channel, right: Channel, b: nat) {
    (left.Some? ==> Sized(left.value, b)) &&
    (right.Some? ==> Sized(right.value, b)) &&
    (left.Some? && right.Some? ==> |left.value| == |right.value|)
  }

  /** The samples held by each present list fit in `len`. */
  ghost predicate Covered(left: Channel, right: Channel, len: nat, b: nat) {
    (left.Some? ==> |left.value| * b <= len) &&
    (right.Some? ==> |right.value| * b <= len)
  }

  /** The counter equals the samples held by each present list. */
  ghost predicate Consistent(left: Channel, right: Channel, len: nat, b: nat) {
    (left.Some? ==> |left.value| * b == len) &&
    (right.Some? ==> |right.value| * b == len)
  }

  /** The block list a selector picks, or the error the getter throws (index.js:194-220, 268-294). */
  function Select(sel: JsValue, left: Channel, right: Channel): (r: Result<seq<Block>>)
    ensures r == Err(NothingForLeft) <==> Is(sel, "left") && left.None?
    ensures r == Err(NothingForRight) <==> Is(sel, "right") && right.None?
    ensures r == Err(NothingRecorded) <==>
              !Is(sel, "left") && !Is(sel, "right") && left.None? && right.None?
    ensures r.Ok? && Is(sel, "left") ==> left == Some(r.value)
    ensures r.Ok? && Is(sel, "right") ==> right == Some(r.value)
    // any other selector prefers the left list, even an empty one
    ensures !Is(sel, "left") && !Is(sel, "right") && left.Some? ==> r == Ok(left.value)
    ensures !Is(sel, "left") && !Is(sel, "right") && left.None? && r.Ok? ==> right == Some(r.value)
  {
    if Is(sel, "left") then
      if left.Some? then Ok(left.value) else Err(NothingForLeft)
    else if Is(sel, "right") then
      if right.Some? then Ok(right.value) else Err(NothingForRight)
    else if left.Some? then Ok(left.value)
    else if right.Some? then Ok(right.value)
    else Err(NothingRecorded)
  }

  /** `getMonoData(sel)`: the selected blocks concatenated into an array of length `len`. */
  function MonoData(sel: JsValue, left: Channel, right: Channel, len: nat): (r: Result<seq<Sample>>)
    ensures r.Err? <==> Select(sel, left, right).Err?
    ensures r.Err? ==> r.error == Select(sel, left, right).error
    ensures r.Ok? ==> |r.value| == len
  {
    match Select(sel, left, right)
    case Err(e) => Err(e)
    case Ok(data) => Ok(Fit(Flatten(data), len))
  }

  /** The interleaving branch of `getStereoData` is taken: no selector and both lists present. */
  predicate Interleaves(sel: JsValue, left: Channel, right: Channel) {
    !Truthy(sel) && left.Some? && right.Some?
  }

  /**
   * `getStereoData(sel)` as written: in stereo the two channels interleaved into
   * `2 * len` slots; otherwise the selected channel with every sample doubled, written
   * into only `len` slots (index.js:266), so the second half of the doubled data is dropped.
   */
  function StereoData(sel: JsValue, left: Channel, right: Channel, len: nat, b: nat): (r: Result<seq<Sample>>)
    requires Shaped(left, right, b)
    ensures Interleaves(sel, left, right) ==> r.Ok? && |r.value| == 2 * len
    ensures !Interleaves(sel, left, right) ==>
              (r.Err? <==> Select(sel, left, right).Err?) &&
              (r.Err? ==> r.error == Select(sel, left, right).error) &&
              (r.Ok? ==> |r.value| == len)
  {
    if Interleaves(sel, left, right) then
      FlattenLength(left.value, b);
      FlattenLength(right.value, b);
      Ok(Fit(Interleave(Flatten(left.value), Flatten(right.value)), 2 * len))
    else
      match Select(sel, left, right)
      case Err(e) => Err(e)
      case Ok(data) => Ok(Fit(Duplicate(Flatten(data)), len))
  }

  /** `getStereoData` as evidently intended: the doubled channel gets `2 * len` slots. */
  function IntendedStereoData(sel: JsValue, left: Channel, right: Channel, len: nat, b: nat): (r: Result<seq<Sample>>)
    requires Shaped(left, right, b)
    ensures r.Ok? ==> |r.value| == 2 * len
    ensures Interleaves(sel, left, right) ==> r == StereoData(sel, left, right, len, b)
    ensures !Interleaves(sel, left, right) ==>
              (r.Err? <==> Select(sel, left, right).Err?) &&
              (r.Err? ==> r.error == Select(sel, left, right).error)
  {
    if Interleaves(sel, left, right) then
      StereoData(sel, left, right, len, b)
    else
      match Select(sel, left, right)
      case Err(e) => Err(e)
      case Ok(data) => Ok(Fit(Duplicate(Flatten(data)), 2 * len))
  }

  /** Sample `m` of `getMonoData`: block `m / b`'s sample `m % b` while there is data, then zero. */
  lemma MonoDataAt(sel: JsValue, left: Channel, right: Channel, len: nat, b: nat, m: nat)
    requires Shaped(left, right, b) && Select(sel, left, right).Ok? && m < len
    ensures var data := Select(sel, left, right).value;
            MonoData(sel, left, right, len).Ok? &&
            MonoData(sel, left, right, len).value[m] ==
              if m < |data| * b then data[m / b][m % b] else Zero
  {
    var data := Select(sel, left, right).value;
    FlattenLength(data, b);
    if m < |data| * b {
      FlattenAtOffset(data, b, m);
    }
  }

  /** When the counter covers the data, `getMonoData` drops nothing: the whole concatenation comes first. */
  lemma MonoDataKeepsAll(sel: JsValue, left: Channel, right: Channel, len: nat, b: nat)
    requires Shaped(left, right, b) && Covered(left, right, len, b) && Select(sel, left, right).Ok?
    ensures var flat := Flatten(Select(sel, left, right).value);
            |flat| <= len && MonoData(sel, left, right, len).value[..|flat|] == flat
  {
    FlattenLength(Select(sel, left, right).value, b);
  }

  /** With the counter consistent, `getMonoData` is exactly the concatenation, without padding. */
  lemma MonoDataExact(sel: JsValue, left: Channel, right: Channel, len: nat, b: nat)
    requires Shaped(left, right, b) && Consistent(left, right, len, b) && Select(sel, left, right).Ok?
    ensures MonoData(sel, left, right, len).value == Flatten(Select(sel, left, right).value)
  {
    FlattenLength(Select(sel, left, right).value, b);
  }

  /** Under stereo, `out[2k]` is the left channel's sample `k` and `out[2k + 1]` the right one's. */
  lemma StereoInterleavedAt(sel: JsValue, left: Channel, right: Channel, len: nat, b: nat, k: nat)
    requires Shaped(left, right, b) && Interleaves(sel, left, right)
    requires k < len && k < |left.value| * b
    ensures var out := StereoData(sel, left, right, len, b).value;
            k < |Flatten(left.value)| && k < |Flatten(right.value)| &&
            out[2 * k] == Flatten(left.value)[k] && out[2 * k + 1] == Flatten(right.value)[k]
  {
    FlattenLength(left.value, b);
    FlattenLength(right.value, b);
    InterleaveAt(Flatten(left.value), Flatten(right.value), k);
  }

  /** Under stereo, the slots past the two channels' interleaved samples are zeros. */
  lemma StereoInterleavedTail(sel: JsValue, left: Channel, right: Channel, len: nat, b: nat, m: nat)
    requires Shaped(left, right, b) && Interleaves(sel, left, right)
    requires 2 * (|left.value| * b) <= m < 2 * len
    ensures StereoData(sel, left, right, len, b).value[m] == Zero
  {
    FlattenLength(left.value, b);
    FlattenLength(right.value, b);
    InterleaveLength(Flatten(left.value), Flatten(right.value));
  }

  /** Under stereo with a consistent counter, the result is exactly the two channels interleaved. */
  lemma StereoInterleavedExact(sel: JsValue, left: Channel, right: Channel, len: nat, b: nat)
    requires Shaped(left, right, b) && Consistent(left, right, len, b) && Interleaves(sel, left, right)
    ensures |Flatten(left.value)| == |Flatten(right.value)| == len
    ensures StereoData(sel, left, right, len, b).value == Interleave(Flatten(left.value), Flatten(right.value))
  {
    FlattenLength(left.value, b);
    FlattenLength(right.value, b);
    InterleaveLength(Flatten(left.value), Flatten(right.value));
  }

  /** Outside stereo, slot `m` of `getStereoData` holds sample `m / 2` of the selected channel, or zero. */
  lemma StereoDuplicatedAt(sel: JsValue, left: Channel, right: Channel, len: nat, b: nat, m: nat)
    requires Shaped(left, right, b) && !Interleaves(sel, left, right) && Select(sel, left, right).Ok?
    requires m < len
    ensures var flat := Flatten(Select(sel, left, right).value);
            StereoData(sel, left, right, len, b).Ok? &&
            StereoData(sel, left, right, len, b).value[m] == if m < 2 * |flat| then flat[m / 2] else Zero
  {
    var flat := Flatten(Select(sel, left, right).value);
    DuplicateLength(flat);
    if m < 2 * |flat| {
      DuplicateAtOffset(flat, m);
    }
  }

  /**
   * Outside stereo, with a consistent counter, the as-written result is only the first
   * half of the doubled channel: it fits `len` slots, the doubled data needs `2 * len`.
   */
  lemma StereoDuplicatedTruncated(sel: JsValue, left: Channel, right: Channel, len: nat, b: nat)
    requires Shaped(left, right, b) && Consistent(left, right, len, b)
    requires !Interleaves(sel, left, right) && Select(sel, left, right).Ok?
    ensures var flat := Flatten(Select(sel, left, right).value);
            |Duplicate(flat)| == 2 * len &&
            StereoData(sel, left, right, len, b).value == Duplicate(flat)[..len]
  {
    var flat := Flatten(Select(sel, left, right).value);
    FlattenLength(Select(sel, left, right).value, b);
    DuplicateLength(flat);
  }

  /** A one-block mono-left recording `[1, 2]`: the as-written getter yields `[1, 1]`, not `[1, 1, 2, 2]`. */
  lemma DuplicationCounterexample()
    ensures StereoData(Undefined, Some([[1, 2]]), None, 2, 2) == Ok([1, 1])
    ensures IntendedStereoData(Undefined, Some([[1, 2]]), None, 2, 2) == Ok([1, 1, 2, 2])
  {
    assert Flatten([[1, 2]]) == [1, 2] by {
      assert Flatten([[1, 2]][1..]) == [];
    }
    assert Duplicate([1, 2]) == [1, 1, 2, 2] by {
      assert Duplicate([2]) == [2, 2] by {
        assert Duplicate([2][1..]) == [];
      }
    }
    assert Fit([1, 1, 2, 2], 2) == [1, 1];
    assert Fit([1, 1, 2, 2], 4) == [1, 1, 2, 2];
  }

  /** With a consistent counter, the intended getter doubles every sample of the selected channel. */
  lemma IntendedStereoDuplicates(sel: JsValue, left: Channel, right: Channel, len: nat, b: nat)
    requires Shaped(left, right, b) && Consistent(left, right, len, b)
    requires !Interleaves(sel, left, right) && Select(sel, left, right).Ok?
    ensures IntendedStereoData(sel, left, right, len, b).value == Duplicate(Flatten(Select(sel, left, right).value))
  {
    FlattenLength(Select(sel, left, right).value, b);
    DuplicateLength(Flatten(Select(sel, left, right).value));
  }

  /** With the left list present, no selector and `'left'` read the same data. */
  lemma FallbackPicksLeft(sel: JsValue, left: Channel, right: Channel, len: nat)
    requires left.Some? && !Is(sel, "left") && !Is(sel, "right")
    ensures MonoData(sel, left, right, len) == MonoData(Str("left"), left, right, len)
  {
  }

  /** Right after a reset the counter is zero: whenever selection succeeds, reading yields an empty result, not an error. */
  lemma EmptyRecordingReadsEmpty(sel: JsValue, left: Channel, right: Channel, b: nat)
    requires Shaped(left, right, b) && Select(sel, left, right).Ok?
    ensures MonoData(sel, left, right, 0) == Ok([])
    ensures StereoData(sel, left, right, 0, b) == Ok([])
  {
  }
}
