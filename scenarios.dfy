/**
 * Client runs of the recorder, proved from its contracts alone. The runs reuse one
 * buffer per channel, as the audio graph does; a stored block is the buffer's value at
 * its tick (`left[..]`), so later fills leave it unchanged.
 */
module Scenarios {

  import opened Wrappers
  import opened Settings
  import opened Samples
  import opened Readout
  import opened Recordmic

  /** Fills a reused two-sample tick buffer. */
  method Fill(buffer: array<Sample>, x: Sample, y: Sample)
    requires buffer.Length == 2
    modifies buffer
    ensures buffer[..] == [x, y]
  {
    buffer[0], buffer[1] := x, y;
  }

  lemma FlattenTwo(x: Block, y: Block)
    ensures Flatten([x, y]) == x + y
  {
    assert [x, y][1..] == [y];
    assert Flatten([y]) == y by {
      assert [y][1..] == [];
    }
  }

  lemma StereoExample()
    ensures StereoData(Undefined, Some([[1, 2], [3, 4]]), Some([[5, 6], [7, 8]]), 4, 2)
              == Ok([1, 5, 2, 6, 3, 7, 4, 8])
  {
    var left, right := Some([[1, 2], [3, 4]]), Some([[5, 6], [7, 8]]);
    FlattenTwo([1, 2], [3, 4]);
    FlattenTwo([5, 6], [7, 8]);
    StereoInterleavedExact(Undefined, left, right, 4, 2);
    assert Interleave([1, 2, 3, 4], [5, 6, 7, 8]) == [1, 5, 2, 6, 3, 7, 4, 8] by {
      assert [1, 2, 3, 4][1..] == [2, 3, 4] && [5, 6, 7, 8][1..] == [6, 7, 8];
      assert [2, 3, 4][1..] == [3, 4] && [6, 7, 8][1..] == [7, 8];
      assert [3, 4][1..] == [4] && [7, 8][1..] == [8];
      assert Interleave([4], [8]) == [4, 8] by {
        assert Interleave([4][1..], [8][1..]) == [];
      }
    }
  }

  /** Stereo, two ticks of two samples: left `[1, 2], [3, 4]`, right `[5, 6], [7, 8]`. */
  method StereoInterleaveRun() returns (out: seq<Sample>)
    ensures out == [1, 5, 2, 6, 3, 7, 4, 8]
  {
    var rec := new Recorder(Options(None, Some(2), Undefined));
    rec.Start();
    assert rec.leftData == Some([]) && rec.rightData == Some([]) && rec.ticking;
    var left := new Sample[2];
    var right := new Sample[2];
    Fill(left, 1, 2);
    Fill(right, 5, 6);
    rec.Tick(left, right);
    assert rec.leftData == Some([[1, 2]]) && rec.rightData == Some([[5, 6]]);
    Fill(left, 3, 4);
    Fill(right, 7, 8);
    rec.Tick(left, right);
    assert [[1, 2]] + [[3, 4]] == [[1, 2], [3, 4]];
    assert [[5, 6]] + [[7, 8]] == [[5, 6], [7, 8]];
    assert rec.leftData == Some([[1, 2], [3, 4]]) && rec.rightData == Some([[5, 6], [7, 8]]);
    assert rec.recordingLength == 4;
    StereoExample();
    var r := rec.GetStereoData(Undefined);
    out := r.value[..];
  }

  /**
   * Mono left, one tick of `[1, 2]`: `getStereoData()` yields `[1, 1]`, half of the
   * doubled channel, and asking for the unrecorded right channel throws with the
   * right channel's message.
   */
  method MonoDuplicationRun() returns (out: seq<Sample>, right: NoData)
    ensures out == [1, 1] && right == NothingForRight
    ensures Message(right) == "There is nothing recorded for the right channel"
  {
    var rec := new Recorder(Options(None, Some(2), Str("left")));
    rec.Start();
    var l := new Sample[2];
    var r := new Sample[2];
    Fill(l, 1, 2);
    Fill(r, 5, 6);
    rec.Tick(l, r);
    rec.Stop();
    Fill(l, 3, 4);
    rec.Tick(l, r);
    assert rec.leftData == Some([[1, 2]]) && rec.rightData == None;
    var stereo := rec.GetStereoData(Undefined);
    DuplicationCounterexample();
    out := stereo.value[..];
    var mono := rec.GetMonoData(Str("right"));
    right := mono.error;
  }

  /** After a recording and `clear()`, reading yields an empty array, and reading twice yields equal data. */
  method ClearThenReadRun() returns (first: seq<Sample>, second: seq<Sample>)
    ensures first == [] && second == []
  {
    var rec := new Recorder(Options(None, Some(2), Undefined));
    rec.Start();
    var l := new Sample[2];
    var r := new Sample[2];
    rec.Tick(l, r);
    rec.Clear();
    var a := rec.GetMonoData(Undefined);
    var b := rec.GetMonoData(Undefined);
    first, second := a.value[..], b.value[..];
  }
}
