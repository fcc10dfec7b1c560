/** The edit script `difflib.SequenceMatcher.get_opcodes()` returns for two
    sequences `a` and `b`. The matcher itself is not modelled: its output is
    an input here, constrained by `WellFormed`, which is what the callers
    rely on. */
module Opcodes {

  datatype Tag = Replace | Delete | Insert | Equal

  /** `(tag, a0, a1, b0, b1)`: the block `a[a0:a1]` corresponds to
      `b[b0:b1]`. */
  datatype Opcode = Opcode(tag: Tag, a0: nat, a1: nat, b0: nat, b1: nat)

  /** `ops` cover `a[i..]` and `b[j..]` with adjacent blocks, in order, and
      an `Equal` block relates equal slices. */
  predicate Tiles<T(==)>(ops: seq<Opcode>, a: seq<T>, b: seq<T>, i: nat, j: nat)
    decreases |ops|
  {
    if ops == [] then i == |a| && j == |b|
    else
      var op := ops[0];
      && op.a0 == i && i <= op.a1 <= |a|
      && op.b0 == j && j <= op.b1 <= |b|
      && (op.tag == Equal ==> a[op.a0..op.a1] == b[op.b0..op.b1])
      && Tiles(ops[1..], a, b, op.a1, op.b1)
  }

  /** The blocks start at 0, are contiguous and end at `|a|` and `|b|`. */
  predicate WellFormed<T(==)>(ops: seq<Opcode>, a: seq<T>, b: seq<T>)
  {
    Tiles(ops, a, b, 0, 0)
  }

  /** Every block of a tiling lies inside the sequences, after `i` and `j`. */
  lemma {:induction false} TilesBounds<T>(ops: seq<Opcode>, a: seq<T>, b: seq<T>, i: nat, j: nat)
    requires Tiles(ops, a, b, i, j)
    ensures i <= |a| && j <= |b|
    ensures forall k :: 0 <= k < |ops| ==>
      i <= ops[k].a0 <= ops[k].a1 <= |a| && j <= ops[k].b0 <= ops[k].b1 <= |b|
    decreases |ops|
  {
    if ops != [] {
      TilesBounds(ops[1..], a, b, ops[0].a1, ops[0].b1);
      forall k | 1 <= k < |ops|
        ensures i <= ops[k].a0 <= ops[k].a1 <= |a| && j <= ops[k].b0 <= ops[k].b1 <= |b|
      {
        assert ops[k] == ops[1..][k - 1];
      }
    }
  }

  /** The `a`-lengths of the blocks of a tiling add up to what is left of `a`. */
  function WidthA(ops: seq<Opcode>): int
  {
    if ops == [] then 0 else (ops[0].a1 - ops[0].a0) + WidthA(ops[1..])
  }

  function WidthB(ops: seq<Opcode>): int
  {
    if ops == [] then 0 else (ops[0].b1 - ops[0].b0) + WidthB(ops[1..])
  }

  lemma {:induction false} TilesWidth<T>(ops: seq<Opcode>, a: seq<T>, b: seq<T>, i: nat, j: nat)
    requires Tiles(ops, a, b, i, j)
    ensures WidthA(ops) == |a| - i && WidthB(ops) == |b| - j
    decreases |ops|
  {
    if ops != [] {
      TilesWidth(ops[1..], a, b, ops[0].a1, ops[0].b1);
    }
  }

  /** The `a`-blocks of `ops` are adjacent, from `i` up to `n`. */
  predicate ChainA(ops: seq<Opcode>, i: nat, n: nat)
    decreases |ops|
  {
    if ops == [] then i == n
    else ops[0].a0 == i && i <= ops[0].a1 <= n && ChainA(ops[1..], ops[0].a1, n)
  }

  /** The `b`-blocks of `ops` are adjacent, from `j` up to `n`. */
  predicate ChainB(ops: seq<Opcode>, j: nat, n: nat)
    decreases |ops|
  {
    if ops == [] then j == n
    else ops[0].b0 == j && j <= ops[0].b1 <= n && ChainB(ops[1..], ops[0].b1, n)
  }

  /** Each side of a tiling is a chain of adjacent blocks. */
  lemma {:induction false} TilesChains<T>(ops: seq<Opcode>, a: seq<T>, b: seq<T>, i: nat, j: nat)
    requires Tiles(ops, a, b, i, j)
    ensures ChainA(ops, i, |a|) && ChainB(ops, j, |b|)
    decreases |ops|
  {
    if ops != [] {
      TilesChains(ops[1..], a, b, ops[0].a1, ops[0].b1);
    }
  }
}
