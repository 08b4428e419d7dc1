/**
 * Sample blocks and the three layouts the getters flatten them into: concatenation in
 * append order, sample-by-sample interleaving of two channels, and duplication of one
 * channel. `Fit` is what writing a sequence from index 0 into a fresh, zero-filled
 * Float32Array of a given length leaves in it.
 */
module Samples {

  /** Samples are only ever copied, so any type with a zero does; 0 stands for +0.0. */
  type Sample = int
  const Zero: Sample := 0

  /** One block as delivered by the audio graph on one tick. */
  type Block = seq<Sample>

  /** Every block has exactly `b` samples. */
  ghost predicate Sized(blocks: seq<Block>, b: nat) {
    forall i :: 0 <= i < |blocks| ==> |blocks[i]| == b
  }

  /** The blocks' samples, block 0 first, each block in order. */
  function Flatten(blocks: seq<Block>): seq<Sample> {
    if blocks == [] then [] else blocks[0] + Flatten(blocks[1..])
  }

  /** `[l[0], r[0], l[1], r[1], ...]` */
  function Interleave(l: seq<Sample>, r: seq<Sample>): seq<Sample>
    requires |l| == |r|
  {
    if l == [] then [] else [l[0], r[0]] + Interleave(l[1..], r[1..])
  }

  /** `[x[0], x[0], x[1], x[1], ...]` */
  function Duplicate(x: seq<Sample>): seq<Sample> {
    if x == [] then [] else [x[0], x[0]] + Duplicate(x[1..])
  }

  /**
   * A fresh Float32Array of length `n` after `s` was written into it from index 0:
   * it starts as zeros and silently drops writes at or past its end.
   */
  function Fit(s: seq<Sample>, n: nat): (r: seq<Sample>)
    ensures |r| == n
    ensures forall k :: 0 <= k < n && k < |s| ==> r[k] == s[k]
    ensures forall k :: |s| <= k < n ==> r[k] == Zero
  {
    seq(n, k requires 0 <= k < n => if k < |s| then s[k] else Zero)
  }

  lemma {:induction false} FlattenLength(blocks: seq<Block>, b: nat)
    requires Sized(blocks, b)
    ensures |Flatten(blocks)| == |blocks| * b
  {
    if blocks != [] {
      FlattenLength(blocks[1..], b);
    }
  }

  /** Sample `j` of block `i` sits at offset `i * b + j` of the concatenation. */
  lemma {:induction false} FlattenAt(blocks: seq<Block>, b: nat, i: nat, j: nat)
    requires Sized(blocks, b) && i < |blocks| && j < b
    ensures i * b + j < |Flatten(blocks)| == |blocks| * b
    ensures Flatten(blocks)[i * b + j] == blocks[i][j]
  {
    FlattenLength(blocks, b);
    if i > 0 {
      FlattenAt(blocks[1..], b, i - 1, j);
      assert i * b + j == b + ((i - 1) * b + j);
    }
  }

  /** Offset `m` of the concatenation is sample `m % b` of block `m / b`. */
  lemma FlattenAtOffset(blocks: seq<Block>, b: nat, m: nat)
    requires Sized(blocks, b) && m < |blocks| * b
    ensures m < |Flatten(blocks)| && Flatten(blocks)[m] == blocks[m / b][m % b]
  {
    assert b > 0;
    var i, j := m / b, m % b;
    assert m == i * b + j;
    if |blocks| <= i {
      assert false;
    }
    FlattenAt(blocks, b, i, j);
  }

  lemma {:induction false} InterleaveAt(l: seq<Sample>, r: seq<Sample>, k: nat)
    requires |l| == |r| && k < |l|
    ensures |Interleave(l, r)| == 2 * |l|
    ensures Interleave(l, r)[2 * k] == l[k] && Interleave(l, r)[2 * k + 1] == r[k]
  {
    if k == 0 {
      InterleaveLength(l, r);
    } else {
      InterleaveAt(l[1..], r[1..], k - 1);
    }
  }

  lemma {:induction false} InterleaveLength(l: seq<Sample>, r: seq<Sample>)
    requires |l| == |r|
    ensures |Interleave(l, r)| == 2 * |l|
  {
    if l != [] {
      InterleaveLength(l[1..], r[1..]);
    }
  }

  lemma {:induction false} DuplicateAt(x: seq<Sample>, k: nat)
    requires k < |x|
    ensures |Duplicate(x)| == 2 * |x|
    ensures Duplicate(x)[2 * k] == x[k] && Duplicate(x)[2 * k + 1] == x[k]
  {
    if k == 0 {
      DuplicateLength(x);
    } else {
      DuplicateAt(x[1..], k - 1);
    }
  }

  lemma {:induction false} DuplicateLength(x: seq<Sample>)
    ensures |Duplicate(x)| == 2 * |x|
  {
    if x != [] {
      DuplicateLength(x[1..]);
    }
  }

  /** Offset `m` of the doubled sequence holds sample `m / 2`. */
  lemma DuplicateAtOffset(x: seq<Sample>, m: nat)
    requires m < 2 * |x|
    ensures m < |Duplicate(x)| && Duplicate(x)[m] == x[m / 2]
  {
    DuplicateAt(x, m / 2);
  }
}
