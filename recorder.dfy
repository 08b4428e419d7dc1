/**
 * The recordmic instance once the microphone is ready: its settings (`s.mono`,
 * `s.volume`, `s.bufferSize`), the two block lists, the running sample counter, and
 * whether the audio graph is delivering ticks to it (`recorder.onaudioprocess` bound).
 */
module Recordmic {

  import opened Wrappers
  import opened Settings
  import opened Samples
  import opened Readout

  /** `list.push(copy)` on a present list; an absent list stays absent. */
  function Pushed(list: Channel, block: Block): (r: Channel)
    ensures r.Some? <==> list.Some?
    ensures r.Some? ==> |r.value| == |list.value| + 1 && r.value[..|list.value|] == list.value
    ensures r.Some? ==> r.value[|list.value|] == block
  {
    match list
    case None => None
    case Some(blocks) => Some(blocks + [block])
  }

  class Recorder {
    var mono: JsValue
    var volume: real
    const bufferSize: nat
    var leftData: Channel
    var rightData: Channel
    var recordingLength: nat
    var ticking: bool

    /** The object invariant: blocks of `bufferSize` samples, equal counts in stereo, all counted. */
    ghost predicate Valid()
      reads this
    {
      bufferSize > 0 &&
      Shaped(leftData, rightData, bufferSize) &&
      Covered(leftData, rightData, recordingLength, bufferSize)
    }

    /** The counter equals the samples held by each present list. */
    ghost predicate Consistent()
      reads this
    {
      Readout.Consistent(leftData, rightData, recordingLength, bufferSize)
    }

    /** The empty lists `setMono(mono)` allocates for the stored `mono`. */
    ghost predicate FreshLayout()
      reads this
    {
      (Is(mono, "left") ==> leftData == Some([]) && rightData == None) &&
      (!Is(mono, "left") && Truthy(mono) ==> leftData == None && rightData == Some([])) &&
      (!Truthy(mono) ==> leftData == Some([]) && rightData == Some([]))
    }

    /** The constructor's defaults, then `onGetUserMedia`'s `setMono(s.mono)`; ticks not yet bound. */
    constructor (options: Options)
      requires WithDefaults(options).bufferSize > 0
      ensures Valid() && FreshLayout()
      ensures var c := WithDefaults(options);
              mono == c.mono && volume == c.volume && bufferSize == c.bufferSize
      ensures recordingLength == 0 && !ticking
    {
      var c := WithDefaults(options);
      mono, volume, bufferSize := c.mono, c.volume, c.bufferSize;
      leftData, rightData := None, None;
      recordingLength, ticking := 0, false;
      new;
      SetMono(mono);
    }

    method SetRecordVolume(v: real)
      modifies this`volume
      ensures volume == v
    {
      volume := v;
    }

    method GetRecordVolume() returns (v: real)
      ensures v == volume
    {
      v := volume;
    }

    /** Stores `m` and reallocates the lists it selects, empty; the counter is left as it was. */
    method SetMono(m: JsValue)
      requires bufferSize > 0
      modifies this`mono, this`leftData, this`rightData
      ensures Valid() && mono == m && FreshLayout()
    {
      mono := m;
      if Is(m, "left") {
        rightData := None;
        leftData := Some([]);
      } else if Truthy(m) {
        rightData := Some([]);
        leftData := None;
      } else {
        leftData := Some([]);
        rightData := Some([]);
      }
    }

    method GetMono() returns (m: JsValue)
      ensures m == mono
    {
      m := mono;
    }

    /** Zeroes the counter and reallocates empty lists for the stored `mono`. */
    method Clear()
      requires Valid()
      modifies this`mono, this`leftData, this`rightData, this`recordingLength
      ensures Valid() && Consistent() && FreshLayout()
      ensures mono == old(mono) && recordingLength == 0
    {
      recordingLength := 0;
      SetMono(mono);
    }

    /** Always begins a fresh recording, then binds the tick handler. */
    method Start()
      requires Valid()
      modifies this`mono, this`leftData, this`rightData, this`recordingLength, this`ticking
      ensures Valid() && Consistent() && FreshLayout()
      ensures mono == old(mono) && recordingLength == 0 && ticking
    {
      Clear();
      ticking := true;
    }

    /** Unbinds the tick handler; the recorded data stays. */
    method Stop()
      modifies this`ticking
      ensures !ticking
    {
      ticking := false;
    }

    /** Stops ticks and drops both lists. */
    method Destroy()
      requires Valid()
      modifies this`ticking, this`leftData, this`rightData, this`recordingLength
      ensures Valid() && Consistent()
      ensures !ticking && recordingLength == 0 && leftData == None && rightData == None
    {
      Stop();
      recordingLength := 0;
      leftData := None;
      rightData := None;
    }

    /**
     * The recording part of `onAudioData`: copy each block into its list if that list
     * exists, and count `bufferSize` samples once, whichever lists exist.
     */
    method OnAudioData(left: array<Sample>, right: array<Sample>)
      requires Valid() && left.Length == bufferSize && right.Length == bufferSize
      modifies this`leftData, this`rightData, this`recordingLength
      ensures Valid()
      ensures leftData == Pushed(old(leftData), left[..])
      ensures rightData == Pushed(old(rightData), right[..])
      ensures recordingLength == old(recordingLength) + bufferSize
      ensures old(Consistent()) ==> Consistent()
    {
      if leftData.Some? {
        var copy := left[..];
        assert (|leftData.value| + 1) * bufferSize == |leftData.value| * bufferSize + bufferSize;
        leftData := Some(leftData.value + [copy]);
      }
      if rightData.Some? {
        var copy := right[..];
        assert (|rightData.value| + 1) * bufferSize == |rightData.value| * bufferSize + bufferSize;
        rightData := Some(rightData.value + [copy]);
      }
      recordingLength := recordingLength + bufferSize;
    }

    /** One tick of the audio graph: it reaches `onAudioData` only while the handler is bound. */
    method Tick(left: array<Sample>, right: array<Sample>)
      requires Valid() && left.Length == bufferSize && right.Length == bufferSize
      modifies this`leftData, this`rightData, this`recordingLength
      ensures Valid()
      ensures old(Consistent()) ==> Consistent()
      ensures ticking ==> leftData == Pushed(old(leftData), left[..]) &&
                          rightData == Pushed(old(rightData), right[..]) &&
                          recordingLength == old(recordingLength) + bufferSize
      ensures !ticking ==> leftData == old(leftData) && rightData == old(rightData) &&
                           recordingLength == old(recordingLength)
    {
      if ticking {
        OnAudioData(left, right);
      }
    }

    /** The selected list's blocks copied, in order, into a fresh array of `recordingLength` samples. */
    method GetMonoData(sel: JsValue) returns (r: Result<array<Sample>>)
      requires Valid()
      ensures MonoData(sel, leftData, rightData, recordingLength).Err? ==>
                r == Err(MonoData(sel, leftData, rightData, recordingLength).error)
      ensures MonoData(sel, leftData, rightData, recordingLength).Ok? ==>
                r.Ok? && fresh(r.value) &&
                r.value[..] == MonoData(sel, leftData, rightData, recordingLength).value
    {
      var selected := SelectData(sel);
      match selected
      case Err(e) => r := Err(e);
      case Ok(data) =>
        var combined := Concatenated(data, bufferSize, recordingLength);
        r := Ok(combined);
    }

    /**
     * In stereo without a selector, both channels interleaved into `2 * recordingLength`
     * slots; otherwise the selected channel with each sample written twice into
     * `recordingLength` slots, dropping what does not fit.
     */
    method GetStereoData(sel: JsValue) returns (r: Result<array<Sample>>)
      requires Valid()
      ensures StereoData(sel, leftData, rightData, recordingLength, bufferSize).Err? ==>
                r == Err(StereoData(sel, leftData, rightData, recordingLength, bufferSize).error)
      ensures StereoData(sel, leftData, rightData, recordingLength, bufferSize).Ok? ==>
                r.Ok? && fresh(r.value) &&
                r.value[..] == StereoData(sel, leftData, rightData, recordingLength, bufferSize).value
    {
      if !Truthy(sel) && leftData.Some? && rightData.Some? {
        var combined := Interleaved(leftData.value, rightData.value, bufferSize, recordingLength * 2);
        r := Ok(combined);
      } else {
        var selected := SelectData(sel);
        match selected
        case Err(e) => r := Err(e);
        case Ok(data) =>
          var combined := Duplicated(data, bufferSize, recordingLength);
          r := Ok(combined);
      }
    }

    /** The list a selector picks, or the error thrown for it (index.js:194-220, 268-294). */
    method SelectData(sel: JsValue) returns (r: Result<seq<Block>>)
      ensures r == Select(sel, leftData, rightData)
    {
      if Is(sel, "left") {
        if leftData.Some? {
          r := Ok(leftData.value);
        } else {
          r := Err(NothingForLeft);
        }
      } else if Is(sel, "right") {
        if rightData.Some? {
          r := Ok(rightData.value);
        } else {
          r := Err(NothingForRight);
        }
      } else {
        if leftData.Some? {
          r := Ok(leftData.value);
        } else if rightData.Some? {
          r := Ok(rightData.value);
        } else {
          r := Err(NothingRecorded);
        }
      }
    }
  }

  /** The nested copy loop of `getMonoData`: block after block into a fresh zeroed array of `n` slots. */
  method Concatenated(data: seq<Block>, b: nat, n: nat) returns (combined: array<Sample>)
    requires Sized(data, b)
    ensures fresh(combined) && combined[..] == Fit(Flatten(data), n)
  {
    combined := new Sample[n](_ => Zero);
    ghost var target := Flatten(data);
    FlattenLength(data, b);
    var writePos: nat := 0;
    var i := 0;
    while i < |data|
      invariant i <= |data| && writePos == i * b <= |target|
      invariant forall k :: 0 <= k < n ==> combined[k] == if k < writePos then target[k] else Zero
    {
      var j := 0;
      while j < b
        invariant j <= b && writePos == i * b + j <= |target|
        invariant forall k :: 0 <= k < n ==> combined[k] == if k < writePos then target[k] else Zero
      {
        FlattenAt(data, b, i, j);
        if writePos < n {
          combined[writePos] := data[i][j];
        }
        writePos := writePos + 1;
        j := j + 1;
      }
      assert (i + 1) * b == i * b + b;
      i := i + 1;
    }
    assert combined[..] == Fit(target, n);
  }

  /** The stereo copy loop of `getStereoData`: left and right sample by sample into `n` slots. */
  method Interleaved(leftBlocks: seq<Block>, rightBlocks: seq<Block>, b: nat, n: nat)
    returns (combined: array<Sample>)
    requires Sized(leftBlocks, b) && Sized(rightBlocks, b) && |leftBlocks| == |rightBlocks|
    ensures |Flatten(leftBlocks)| == |Flatten(rightBlocks)|
    ensures fresh(combined) && combined[..] == Fit(Interleave(Flatten(leftBlocks), Flatten(rightBlocks)), n)
  {
    combined := new Sample[n](_ => Zero);
    FlattenLength(leftBlocks, b);
    FlattenLength(rightBlocks, b);
    ghost var target := Interleave(Flatten(leftBlocks), Flatten(rightBlocks));
    InterleaveLength(Flatten(leftBlocks), Flatten(rightBlocks));
    var writePos: nat := 0;
    var i := 0;
    while i < |leftBlocks|
      invariant i <= |leftBlocks| && writePos == 2 * (i * b) <= |target|
      invariant forall k :: 0 <= k < n ==> combined[k] == if k < writePos then target[k] else Zero
    {
      var j := 0;
      while j < b
        invariant j <= b && writePos == 2 * (i * b + j) <= |target|
        invariant forall k :: 0 <= k < n ==> combined[k] == if k < writePos then target[k] else Zero
      {
        FlattenAt(leftBlocks, b, i, j);
        FlattenAt(rightBlocks, b, i, j);
        InterleaveAt(Flatten(leftBlocks), Flatten(rightBlocks), i * b + j);
        if writePos < n {
          combined[writePos] := leftBlocks[i][j];
        }
        writePos := writePos + 1;
        if writePos < n {
          combined[writePos] := rightBlocks[i][j];
        }
        writePos := writePos + 1;
        j := j + 1;
      }
      assert (i + 1) * b == i * b + b;
      i := i + 1;
    }
    assert combined[..] == Fit(target, n);
  }

  /** The mono copy loop of `getStereoData`: every sample written twice into `n` slots. */
  method Duplicated(data: seq<Block>, b: nat, n: nat) returns (combined: array<Sample>)
    requires Sized(data, b)
    ensures fresh(combined) && combined[..] == Fit(Duplicate(Flatten(data)), n)
  {
    combined := new Sample[n](_ => Zero);
    FlattenLength(data, b);
    ghost var target := Duplicate(Flatten(data));
    DuplicateLength(Flatten(data));
    var writePos: nat := 0;
    var i := 0;
    while i < |data|
      invariant i <= |data| && writePos == 2 * (i * b) <= |target|
      invariant forall k :: 0 <= k < n ==> combined[k] == if k < writePos then target[k] else Zero
    {
      var j := 0;
      while j < b
        invariant j <= b && writePos == 2 * (i * b + j) <= |target|
        invariant forall k :: 0 <= k < n ==> combined[k] == if k < writePos then target[k] else Zero
      {
        FlattenAt(data, b, i, j);
        DuplicateAt(Flatten(data), i * b + j);
        if writePos < n {
          combined[writePos] := data[i][j];
        }
        writePos := writePos + 1;
        if writePos < n {
          combined[writePos] := data[i][j];
        }
        writePos := writePos + 1;
        j := j + 1;
      }
      assert (i + 1) * b == i * b + b;
      i := i + 1;
    }
    assert combined[..] == Fit(target, n);
  }
}
