/** `_align_seqs`: pads the shorter side of every block of the matcher's
    opcodes with `fill`, so that both outputs have the same length and
    corresponding blocks sit on the same rows. */
module Align {
  import opened Opcodes
  import opened Markup

  /** `[x] * n`. */
  function Fill<T>(x: T, n: nat): (r: seq<T>)
    ensures |r| == n && forall q :: 0 <= q < n ==> r[q] == x
  {
    seq(n, _ => x)
  }

  /** Python's `max(d, 0)`. */
  function Positive(d: int): nat
  {
    if d > 0 then d else 0
  }

  /** One turn of the loop: the block of `a`, the block of `b`, and
      `fill` after whichever is shorter. */
  function AlignBlock<T>(op: Opcode, a: seq<T>, b: seq<T>, fill: T): (r: Sides<T>)
    requires op.a0 <= op.a1 <= |a| && op.b0 <= op.b1 <= |b|
    ensures |r.a| == |r.b|
    ensures |r.a| == if op.a1 - op.a0 < op.b1 - op.b0 then op.b1 - op.b0 else op.a1 - op.a0
  {
    var delta := (op.a1 - op.a0) - (op.b1 - op.b0);
    Sides(a[op.a0..op.a1] + Fill(fill, Positive(-delta)), b[op.b0..op.b1] + Fill(fill, Positive(delta)))
  }

  /** What the loop of `_align_seqs` accumulates over `ops`. */
  function AlignOps<T>(ops: seq<Opcode>, a: seq<T>, b: seq<T>, fill: T): Sides<T>
    requires InBounds(ops, a, b)
    decreases |ops|
  {
    if ops == [] then Sides([], [])
    else
      InBoundsSuffix(ops, 1, a, b);
      var blk := AlignBlock(ops[0], a, b, fill);
      var rest := AlignOps(ops[1..], a, b, fill);
      Sides(blk.a + rest.a, blk.b + rest.b)
  }

  /** `_align_seqs(a, b, fill)` with `ops` the matcher's opcodes; its final
      assertion always holds. */
  method AlignSeqs<T>(a: seq<T>, b: seq<T>, ops: seq<Opcode>, fill: T) returns (r: Sides<T>)
    requires WellFormed(ops, a, b)
    ensures InBounds(ops, a, b)
    ensures r == AlignOps(ops, a, b, fill)
    ensures |r.a| == |r.b|
  {
    WellFormedInBounds(ops, a, b, 0, 0);
    ghost var whole := AlignOps(ops, a, b, fill);
    var outA, outB := [], [];
    for k := 0 to |ops|
      invariant InBounds(ops[k..], a, b)
      invariant |outA| == |outB|
      invariant Sides(outA + AlignOps(ops[k..], a, b, fill).a, outB + AlignOps(ops[k..], a, b, fill).b) == whole
    {
      var op := ops[k];
      AlignLoopStep(ops, k, a, b, fill, outA, outB);
      var delta := (op.a1 - op.a0) - (op.b1 - op.b0);
      outA := outA + (a[op.a0..op.a1] + Fill(fill, Positive(-delta)));
      outB := outB + (b[op.b0..op.b1] + Fill(fill, Positive(delta)));
    }
    assert AlignOps(ops[|ops|..], a, b, fill) == Sides([], []);
    assert |outA| == |outB|;
    return Sides(outA, outB);
  }

  lemma AlignLoopStep<T>(ops: seq<Opcode>, k: nat, a: seq<T>, b: seq<T>, fill: T, outA: seq<T>, outB: seq<T>)
    requires InBounds(ops, a, b) && k < |ops| && InBounds(ops[k..], a, b)
    requires Sides(outA + AlignOps(ops[k..], a, b, fill).a, outB + AlignOps(ops[k..], a, b, fill).b)
      == AlignOps(ops, a, b, fill)
    ensures InBounds(ops[k + 1..], a, b)
    ensures ops[k].a0 <= ops[k].a1 <= |a| && ops[k].b0 <= ops[k].b1 <= |b|
    ensures var blk := AlignBlock(ops[k], a, b, fill);
      Sides(outA + blk.a + AlignOps(ops[k + 1..], a, b, fill).a, outB + blk.b + AlignOps(ops[k + 1..], a, b, fill).b)
        == AlignOps(ops, a, b, fill)
  {
    InBoundsAt(ops, a, b, k);
    InBoundsSuffix(ops, k + 1, a, b);
    var s := ops[k..];
    assert s[0] == ops[k] && s[1..] == ops[k + 1..];
    var blk := AlignBlock(ops[k], a, b, fill);
    var rest := AlignOps(ops[k + 1..], a, b, fill);
    assert AlignOps(s, a, b, fill) == Sides(blk.a + rest.a, blk.b + rest.b);
    Regroup(outA, blk.a, rest.a);
    Regroup(outB, blk.b, rest.b);
  }

  /** The two outputs always have the same length. */
  lemma {:induction false} AlignedSameLength<T>(ops: seq<Opcode>, a: seq<T>, b: seq<T>, fill: T)
    requires InBounds(ops, a, b)
    ensures |AlignOps(ops, a, b, fill).a| == |AlignOps(ops, a, b, fill).b|
    decreases |ops|
  {
    if ops != [] {
      InBoundsSuffix(ops, 1, a, b);
      AlignedSameLength(ops[1..], a, b, fill);
    }
  }

  /** Which rows of a block's `a` output hold an element of `a` (true)
      and which hold padding (false). */
  function BlockRowsA(op: Opcode): seq<bool>
  {
    var delta := (op.a1 - op.a0) - (op.b1 - op.b0);
    Fill(true, Positive(op.a1 - op.a0)) + Fill(false, Positive(-delta))
  }

  function BlockRowsB(op: Opcode): seq<bool>
  {
    var delta := (op.a1 - op.a0) - (op.b1 - op.b0);
    Fill(true, Positive(op.b1 - op.b0)) + Fill(false, Positive(delta))
  }

  /** The element and padding rows of the whole `a` output. */
  function RowsOfA(ops: seq<Opcode>): seq<bool>
    decreases |ops|
  {
    if ops == [] then [] else BlockRowsA(ops[0]) + RowsOfA(ops[1..])
  }

  function RowsOfB(ops: seq<Opcode>): seq<bool>
    decreases |ops|
  {
    if ops == [] then [] else BlockRowsB(ops[0]) + RowsOfB(ops[1..])
  }

  /** The elements of `xs` at the rows `mask` selects, in order. */
  function Keep<T>(xs: seq<T>, mask: seq<bool>): (r: seq<T>)
    requires |xs| == |mask|
    ensures |r| <= |xs|
    decreases |xs|
  {
    if xs == [] then [] else (if mask[0] then [xs[0]] else []) + Keep(xs[1..], mask[1..])
  }

  lemma {:induction false} KeepAppend<T>(x: seq<T>, y: seq<T>, m: seq<bool>, n: seq<bool>)
    requires |x| == |m| && |y| == |n|
    ensures Keep(x + y, m + n) == Keep(x, m) + Keep(y, n)
    decreases |x|
  {
    if x == [] {
      assert x + y == y && m + n == n;
    } else {
      var xy, mn := x + y, m + n;
      var head := if m[0] then [x[0]] else [];
      assert xy[0] == x[0] && mn[0] == m[0];
      assert xy[1..] == x[1..] + y && mn[1..] == m[1..] + n;
      assert Keep(xy, mn) == head + Keep(x[1..] + y, m[1..] + n);
      KeepAppend(x[1..], y, m[1..], n);
      assert Keep(x, m) == head + Keep(x[1..], m[1..]);
      Regroup(head, Keep(x[1..], m[1..]), Keep(y, n));
    }
  }

  lemma {:induction false} KeepAll<T>(x: seq<T>)
    ensures Keep(x, Fill(true, |x|)) == x
    decreases |x|
  {
    if x != [] {
      assert Fill(true, |x|)[1..] == Fill(true, |x| - 1);
      KeepAll(x[1..]);
    }
  }

  lemma {:induction false} KeepNone<T>(x: seq<T>)
    ensures Keep(x, Fill(false, |x|)) == []
    decreases |x|
  {
    if x != [] {
      assert Fill(false, |x|)[1..] == Fill(false, |x| - 1);
      KeepNone(x[1..]);
    }
  }

  /** Padding: the rows of `xs` that `mask` leaves out hold `fill`. */
  ghost predicate PaddedWith<T>(xs: seq<T>, mask: seq<bool>, fill: T)
    requires |xs| == |mask|
  {
    forall q :: 0 <= q < |xs| && !mask[q] ==> xs[q] == fill
  }

  lemma PaddedAppend<T>(x: seq<T>, y: seq<T>, m: seq<bool>, n: seq<bool>, fill: T)
    requires |x| == |m| && |y| == |n| && PaddedWith(x, m, fill) && PaddedWith(y, n, fill)
    ensures PaddedWith(x + y, m + n, fill)
  {
    forall q | 0 <= q < |x + y| && !(m + n)[q]
      ensures (x + y)[q] == fill
    {
      if q >= |x| {
        assert (m + n)[q] == n[q - |x|];
      }
    }
  }

  /** A block: dropping its padding rows leaves its slice of `a`, and the
      padding rows hold `fill`. */
  lemma BlockA<T>(op: Opcode, a: seq<T>, b: seq<T>, fill: T)
    requires op.a0 <= op.a1 <= |a| && op.b0 <= op.b1 <= |b|
    ensures |BlockRowsA(op)| == |AlignBlock(op, a, b, fill).a|
    ensures Keep(AlignBlock(op, a, b, fill).a, BlockRowsA(op)) == a[op.a0..op.a1]
    ensures PaddedWith(AlignBlock(op, a, b, fill).a, BlockRowsA(op), fill)
  {
    var delta := (op.a1 - op.a0) - (op.b1 - op.b0);
    var kept := a[op.a0..op.a1];
    var pad := Fill(fill, Positive(-delta));
    var m1 := Fill(true, |kept|);
    var m2 := Fill(false, |pad|);
    assert BlockRowsA(op) == m1 + m2;
    KeepAppend(kept, pad, m1, m2);
    KeepAll(kept);
    KeepNone(pad);
    assert kept + [] == kept;
  }

  lemma BlockB<T>(op: Opcode, a: seq<T>, b: seq<T>, fill: T)
    requires op.a0 <= op.a1 <= |a| && op.b0 <= op.b1 <= |b|
    ensures |BlockRowsB(op)| == |AlignBlock(op, a, b, fill).b|
    ensures Keep(AlignBlock(op, a, b, fill).b, BlockRowsB(op)) == b[op.b0..op.b1]
    ensures PaddedWith(AlignBlock(op, a, b, fill).b, BlockRowsB(op), fill)
  {
    var delta := (op.a1 - op.a0) - (op.b1 - op.b0);
    var kept := b[op.b0..op.b1];
    var pad := Fill(fill, Positive(delta));
    var m1 := Fill(true, |kept|);
    var m2 := Fill(false, |pad|);
    assert BlockRowsB(op) == m1 + m2;
    KeepAppend(kept, pad, m1, m2);
    KeepAll(kept);
    KeepNone(pad);
    assert kept + [] == kept;
  }

  /** Dropping the padding rows of the `a` output gives back `a` from `i`
      on, so the alignment loses and reorders nothing; every padding row
      holds `fill`. */
  lemma {:induction false} AlignKeepsA<T>(ops: seq<Opcode>, a: seq<T>, b: seq<T>, i: nat, fill: T)
    requires InBounds(ops, a, b) && ChainA(ops, i, |a|)
    ensures |RowsOfA(ops)| == |AlignOps(ops, a, b, fill).a|
    ensures Keep(AlignOps(ops, a, b, fill).a, RowsOfA(ops)) == a[i..]
    ensures PaddedWith(AlignOps(ops, a, b, fill).a, RowsOfA(ops), fill)
    decreases |ops|
  {
    if ops != [] {
      var op := ops[0];
      InBoundsAt(ops, a, b, 0);
      InBoundsSuffix(ops, 1, a, b);
      AlignKeepsA(ops[1..], a, b, op.a1, fill);
      var blk := AlignBlock(op, a, b, fill);
      var rest := AlignOps(ops[1..], a, b, fill);
      BlockA(op, a, b, fill);
      assert AlignOps(ops, a, b, fill).a == blk.a + rest.a;
      KeepAppend(blk.a, rest.a, BlockRowsA(op), RowsOfA(ops[1..]));
      PaddedAppend(blk.a, rest.a, BlockRowsA(op), RowsOfA(ops[1..]), fill);
      SliceSplit(a, i, op.a1);
    }
  }

  /** Dropping the padding rows of the `b` output gives back `b` from `j`
      on; every padding row holds `fill`. */
  lemma {:induction false} AlignKeepsB<T>(ops: seq<Opcode>, a: seq<T>, b: seq<T>, j: nat, fill: T)
    requires InBounds(ops, a, b) && ChainB(ops, j, |b|)
    ensures |RowsOfB(ops)| == |AlignOps(ops, a, b, fill).b|
    ensures Keep(AlignOps(ops, a, b, fill).b, RowsOfB(ops)) == b[j..]
    ensures PaddedWith(AlignOps(ops, a, b, fill).b, RowsOfB(ops), fill)
    decreases |ops|
  {
    if ops != [] {
      var op := ops[0];
      InBoundsAt(ops, a, b, 0);
      InBoundsSuffix(ops, 1, a, b);
      AlignKeepsB(ops[1..], a, b, op.b1, fill);
      var blk := AlignBlock(op, a, b, fill);
      var rest := AlignOps(ops[1..], a, b, fill);
      BlockB(op, a, b, fill);
      assert AlignOps(ops, a, b, fill).b == blk.b + rest.b;
      KeepAppend(blk.b, rest.b, BlockRowsB(op), RowsOfB(ops[1..]));
      PaddedAppend(blk.b, rest.b, BlockRowsB(op), RowsOfB(ops[1..]), fill);
      SliceSplit(b, j, op.b1);
    }
  }

  lemma SliceSplit<T>(s: seq<T>, i: nat, j: nat)
    requires i <= j <= |s|
    ensures s[i..] == s[i..j] + s[j..]
  {
  }

  /** `_align_seqs` on well-formed opcodes: both outputs have the same
      length, dropping the padding rows of each gives back its input, and
      the padding rows hold `fill`. */
  lemma AlignRoundTrip<T>(ops: seq<Opcode>, a: seq<T>, b: seq<T>, fill: T)
    requires WellFormed(ops, a, b)
    ensures InBounds(ops, a, b)
    ensures var r := AlignOps(ops, a, b, fill);
      && |r.a| == |r.b| == |RowsOfA(ops)| == |RowsOfB(ops)|
      && Keep(r.a, RowsOfA(ops)) == a && Keep(r.b, RowsOfB(ops)) == b
      && PaddedWith(r.a, RowsOfA(ops), fill) && PaddedWith(r.b, RowsOfB(ops), fill)
  {
    WellFormedInBounds(ops, a, b, 0, 0);
    TilesChains(ops, a, b, 0, 0);
    AlignedSameLength(ops, a, b, fill);
    AlignKeepsA(ops, a, b, 0, fill);
    AlignKeepsB(ops, a, b, 0, fill);
    assert a[0..] == a && b[0..] == b;
  }
}
