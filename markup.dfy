/** `_mark_text`, `_mark_span` and `_markup_diff`: the tokens of the blocks
    that differ are passed through `mark`, those of `equal` blocks through
    `default_mark`. */
module Markup {
  import opened Values
  import opened Opcodes

  /** The two outputs of a helper that treats `a` and `b` side by side. */
  datatype Sides<T> = Sides(a: seq<T>, b: seq<T>)

  const SpanOpen := "<span style=\"color: red;\">"
  const SpanClose := "</span>"

  /** `_mark_text`: the text inside a red span. */
  function MarkText(text: string): (r: string)
    ensures |r| == |SpanOpen| + |text| + |SpanClose|
    ensures r[..|SpanOpen|] == SpanOpen && r[|r| - |SpanClose|..] == SpanClose
    ensures r[|SpanOpen|..|r| - |SpanClose|] == text
  {
    SpanOpen + text + SpanClose
  }

  /** The text inside a red span, if `s` is one. */
  function UnmarkText(s: string): Option<string>
  {
    if |s| >= |SpanOpen| + |SpanClose| && s[..|SpanOpen|] == SpanOpen && s[|s| - |SpanClose|..] == SpanClose
    then Some(s[|SpanOpen|..|s| - |SpanClose|])
    else None
  }

  /** Marking is undone by `UnmarkText`, so it loses nothing. */
  lemma UnmarkMarkText(text: string)
    ensures UnmarkText(MarkText(text)) == Some(text)
  {
  }

  lemma MarkTextInjective(x: string, y: string)
    requires MarkText(x) == MarkText(y)
    ensures x == y
  {
    UnmarkMarkText(x);
    UnmarkMarkText(y);
  }

  /** `_mark_span`: one marked token per token. */
  function MarkSpan(tokens: seq<string>): (r: seq<string>)
    ensures |r| == |tokens|
  {
    seq(|tokens|, k requires 0 <= k < |tokens| => MarkText(tokens[k]))
  }

  /** Every token comes back from its marked form. */
  lemma UnmarkMarkSpan(tokens: seq<string>)
    ensures forall k :: 0 <= k < |tokens| ==> UnmarkText(MarkSpan(tokens)[k]) == Some(tokens[k])
  {
    forall k | 0 <= k < |tokens|
      ensures UnmarkText(MarkSpan(tokens)[k]) == Some(tokens[k])
    {
      MarkTextAt(tokens, k);
      UnmarkMarkText(tokens[k]);
    }
  }

  /** `lambda x: x`, the default `default_mark`. */
  function Identity(tokens: seq<string>): seq<string>
  {
    tokens
  }

  /** The blocks of `ops` lie inside `a` and `b`. */
  predicate InBounds<T>(ops: seq<Opcode>, a: seq<T>, b: seq<T>)
  {
    forall k :: 0 <= k < |ops| ==> ops[k].a0 <= ops[k].a1 <= |a| && ops[k].b0 <= ops[k].b1 <= |b|
  }

  lemma WellFormedInBounds<T>(ops: seq<Opcode>, a: seq<T>, b: seq<T>, i: nat, j: nat)
    requires Tiles(ops, a, b, i, j)
    ensures InBounds(ops, a, b)
  {
    TilesBounds(ops, a, b, i, j);
  }

  /** What the loop of `_markup_diff` accumulates over `ops`. */
  function MarkupOps(ops: seq<Opcode>, a: seq<string>, b: seq<string>,
                     mark: seq<string> -> seq<string>, defaultMark: seq<string> -> seq<string>): Sides<string>
    requires InBounds(ops, a, b)
    decreases |ops|
  {
    if ops == [] then Sides([], [])
    else
      var op := ops[0];
      var rest := MarkupOps(ops[1..], a, b, mark, defaultMark);
      Sides(MarkBlock(op.tag, mark, defaultMark, a[op.a0..op.a1]) + rest.a,
            MarkBlock(op.tag, mark, defaultMark, b[op.b0..op.b1]) + rest.b)
  }

  /** A block's tokens through `default_mark` if it is `equal`, else through `mark`. */
  function MarkBlock(tag: Tag, mark: seq<string> -> seq<string>, defaultMark: seq<string> -> seq<string>,
                     tokens: seq<string>): seq<string>
  {
    if tag == Equal then defaultMark(tokens) else mark(tokens)
  }

  /** Unfolds `MarkupOps` once at position `k`. */
  lemma MarkupOpsStep(ops: seq<Opcode>, k: nat, a: seq<string>, b: seq<string>,
                      mark: seq<string> -> seq<string>, defaultMark: seq<string> -> seq<string>)
    requires InBounds(ops, a, b) && k < |ops|
    ensures InBounds(ops[k..], a, b) && InBounds(ops[k + 1..], a, b)
    ensures var op := ops[k];
      var rest := MarkupOps(ops[k + 1..], a, b, mark, defaultMark);
      MarkupOps(ops[k..], a, b, mark, defaultMark)
        == Sides(MarkBlock(op.tag, mark, defaultMark, a[op.a0..op.a1]) + rest.a,
                 MarkBlock(op.tag, mark, defaultMark, b[op.b0..op.b1]) + rest.b)
  {
    InBoundsSuffix(ops, k, a, b);
    InBoundsSuffix(ops, k + 1, a, b);
    var s := ops[k..];
    assert s[0] == ops[k] && s[1..] == ops[k + 1..];
  }

  /** One turn of `_markup_diff`'s loop keeps what remains to be added in step. */
  lemma MarkupLoopStep(ops: seq<Opcode>, k: nat, a: seq<string>, b: seq<string>,
                       mark: seq<string> -> seq<string>, defaultMark: seq<string> -> seq<string>,
                       outA: seq<string>, outB: seq<string>)
    requires InBounds(ops, a, b) && k < |ops| && InBounds(ops[k..], a, b)
    requires Sides(outA + MarkupOps(ops[k..], a, b, mark, defaultMark).a,
                   outB + MarkupOps(ops[k..], a, b, mark, defaultMark).b) == MarkupOps(ops, a, b, mark, defaultMark)
    ensures InBounds(ops[k + 1..], a, b)
    ensures var op := ops[k];
      Sides(outA + MarkBlock(op.tag, mark, defaultMark, a[op.a0..op.a1]) + MarkupOps(ops[k + 1..], a, b, mark, defaultMark).a,
            outB + MarkBlock(op.tag, mark, defaultMark, b[op.b0..op.b1]) + MarkupOps(ops[k + 1..], a, b, mark, defaultMark).b)
        == MarkupOps(ops, a, b, mark, defaultMark)
  {
    MarkupOpsStep(ops, k, a, b, mark, defaultMark);
    var op := ops[k];
    var rest := MarkupOps(ops[k + 1..], a, b, mark, defaultMark);
    Regroup(outA, MarkBlock(op.tag, mark, defaultMark, a[op.a0..op.a1]), rest.a);
    Regroup(outB, MarkBlock(op.tag, mark, defaultMark, b[op.b0..op.b1]), rest.b);
  }

  lemma Regroup<T>(x: seq<T>, y: seq<T>, z: seq<T>)
    ensures x + (y + z) == x + y + z
  {
  }

  lemma InBoundsSuffix<T>(ops: seq<Opcode>, k: nat, a: seq<T>, b: seq<T>)
    requires InBounds(ops, a, b) && k <= |ops|
    ensures InBounds(ops[k..], a, b)
  {
    forall x | 0 <= x < |ops[k..]|
      ensures ops[k..][x].a0 <= ops[k..][x].a1 <= |a| && ops[k..][x].b0 <= ops[k..][x].b1 <= |b|
    {
      assert ops[k..][x] == ops[k + x];
    }
  }

  /** `_markup_diff(a, b, mark, default_mark)` with `ops` the matcher's
      opcodes; the two length assertions become the `AssertionError` case. */
  method MarkupDiff(a: seq<string>, b: seq<string>, ops: seq<Opcode>,
                    mark: seq<string> -> seq<string>, defaultMark: seq<string> -> seq<string>)
    returns (r: Result<Sides<string>>)
    requires WellFormed(ops, a, b)
    ensures InBounds(ops, a, b)
    ensures var m := MarkupOps(ops, a, b, mark, defaultMark);
      r == if |m.a| == |a| && |m.b| == |b| then Ok(m) else Err(AssertionError)
  {
    WellFormedInBounds(ops, a, b, 0, 0);
    ghost var m := MarkupOps(ops, a, b, mark, defaultMark);
    var outA, outB := [], [];
    for k := 0 to |ops|
      invariant InBounds(ops[k..], a, b)
      invariant Sides(outA + MarkupOps(ops[k..], a, b, mark, defaultMark).a,
                      outB + MarkupOps(ops[k..], a, b, mark, defaultMark).b) == m
    {
      var op := ops[k];
      var markup := mark;
      if op.tag == Equal {
        markup := defaultMark;
      }
      MarkupLoopStep(ops, k, a, b, mark, defaultMark, outA, outB);
      outA := outA + markup(a[op.a0..op.a1]);
      outB := outB + markup(b[op.b0..op.b1]);
    }
    assert MarkupOps(ops[|ops|..], a, b, mark, defaultMark) == Sides([], []);
    assert Sides(outA, outB) == m;
    if |outA| != |a| || |outB| != |b| {
      return Err(AssertionError);
    }
    return Ok(Sides(outA, outB));
  }

  /** A mark that keeps the number of tokens. */
  ghost predicate KeepsLength(f: seq<string> -> seq<string>)
  {
    forall s :: |f(s)| == |s|
  }

  /** With a mark that keeps the number of tokens, the `a` output is as
      long as the part of `a` the blocks cover. */
  lemma {:induction false} KeepsLengthA(ops: seq<Opcode>, a: seq<string>, b: seq<string>, i: nat,
                                          mark: seq<string> -> seq<string>, defaultMark: seq<string> -> seq<string>)
    requires InBounds(ops, a, b) && ChainA(ops, i, |a|) && KeepsLength(mark) && KeepsLength(defaultMark)
    ensures |MarkupOps(ops, a, b, mark, defaultMark).a| == |a| - i
    decreases |ops|
  {
    if ops != [] {
      InBoundsSuffix(ops, 1, a, b);
      KeepsLengthA(ops[1..], a, b, ops[0].a1, mark, defaultMark);
    }
  }

  /** Token `p` of `a`, in block `k`, is output at the same place, as
      that block's mark makes it. */
  lemma {:induction false} MarkupTokenA(ops: seq<Opcode>, a: seq<string>, b: seq<string>, i: nat,
                                          mark: seq<string> -> seq<string>, defaultMark: seq<string> -> seq<string>,
                                          k: nat, p: nat)
    requires InBounds(ops, a, b) && ChainA(ops, i, |a|) && KeepsLength(mark) && KeepsLength(defaultMark)
    requires k < |ops| && ops[k].a0 <= p < ops[k].a1
    ensures i <= p < |a|
    ensures var m := MarkupOps(ops, a, b, mark, defaultMark);
      var blk := MarkBlock(ops[k].tag, mark, defaultMark, a[ops[k].a0..ops[k].a1]);
      && |m.a| == |a| - i && |blk| == ops[k].a1 - ops[k].a0
      && m.a[p - i] == blk[p - ops[k].a0]
    decreases k
  {
    var op := ops[0];
    MarkupOpsFirst(ops, a, b, mark, defaultMark);
    var rest := MarkupOps(ops[1..], a, b, mark, defaultMark);
    var head := MarkBlock(op.tag, mark, defaultMark, a[op.a0..op.a1]);
    MarkBlockLength(op.tag, mark, defaultMark, a[op.a0..op.a1]);
    if k != 0 {
      assert ops[k] == ops[1..][k - 1];
      MarkupTokenA(ops[1..], a, b, op.a1, mark, defaultMark, k - 1, p);
      ConcatAt(head, rest.a, p - i);
    } else {
      KeepsLengthA(ops[1..], a, b, op.a1, mark, defaultMark);
      ConcatAt(head, rest.a, p - i);
    }
  }


  /** With a mark that keeps the number of tokens, the `b` output is as
      long as the part of `b` the blocks cover. */
  lemma {:induction false} KeepsLengthB(ops: seq<Opcode>, a: seq<string>, b: seq<string>, j: nat,
                                          mark: seq<string> -> seq<string>, defaultMark: seq<string> -> seq<string>)
    requires InBounds(ops, a, b) && ChainB(ops, j, |b|) && KeepsLength(mark) && KeepsLength(defaultMark)
    ensures |MarkupOps(ops, a, b, mark, defaultMark).b| == |b| - j
    decreases |ops|
  {
    if ops != [] {
      InBoundsSuffix(ops, 1, a, b);
      KeepsLengthB(ops[1..], a, b, ops[0].b1, mark, defaultMark);
    }
  }

  /** Token `p` of `b`, in block `k`, is output at the same place, as
      that block's mark makes it. */
  lemma {:induction false} MarkupTokenB(ops: seq<Opcode>, a: seq<string>, b: seq<string>, j: nat,
                                          mark: seq<string> -> seq<string>, defaultMark: seq<string> -> seq<string>,
                                          k: nat, p: nat)
    requires InBounds(ops, a, b) && ChainB(ops, j, |b|) && KeepsLength(mark) && KeepsLength(defaultMark)
    requires k < |ops| && ops[k].b0 <= p < ops[k].b1
    ensures j <= p < |b|
    ensures var m := MarkupOps(ops, a, b, mark, defaultMark);
      var blk := MarkBlock(ops[k].tag, mark, defaultMark, b[ops[k].b0..ops[k].b1]);
      && |m.b| == |b| - j && |blk| == ops[k].b1 - ops[k].b0
      && m.b[p - j] == blk[p - ops[k].b0]
    decreases k
  {
    var op := ops[0];
    MarkupOpsFirst(ops, a, b, mark, defaultMark);
    var rest := MarkupOps(ops[1..], a, b, mark, defaultMark);
    var head := MarkBlock(op.tag, mark, defaultMark, b[op.b0..op.b1]);
    MarkBlockLength(op.tag, mark, defaultMark, b[op.b0..op.b1]);
    if k != 0 {
      assert ops[k] == ops[1..][k - 1];
      MarkupTokenB(ops[1..], a, b, op.b1, mark, defaultMark, k - 1, p);
      ConcatAt(head, rest.b, p - j);
    } else {
      KeepsLengthB(ops[1..], a, b, op.b1, mark, defaultMark);
      ConcatAt(head, rest.b, p - j);
    }
  }


  lemma MarkupOpsFirst(ops: seq<Opcode>, a: seq<string>, b: seq<string>,
                       mark: seq<string> -> seq<string>, defaultMark: seq<string> -> seq<string>)
    requires InBounds(ops, a, b) && ops != []
    ensures InBounds(ops[1..], a, b)
    ensures var op := ops[0];
      var m := MarkupOps(ops, a, b, mark, defaultMark);
      var rest := MarkupOps(ops[1..], a, b, mark, defaultMark);
      m.a == MarkBlock(op.tag, mark, defaultMark, a[op.a0..op.a1]) + rest.a
      && m.b == MarkBlock(op.tag, mark, defaultMark, b[op.b0..op.b1]) + rest.b
  {
    InBoundsSuffix(ops, 1, a, b);
  }

  lemma MarkBlockLength(tag: Tag, mark: seq<string> -> seq<string>, defaultMark: seq<string> -> seq<string>,
                        tokens: seq<string>)
    requires KeepsLength(mark) && KeepsLength(defaultMark)
    ensures |MarkBlock(tag, mark, defaultMark, tokens)| == |tokens|
  {
  }

  lemma ConcatAt<T>(x: seq<T>, y: seq<T>, n: nat)
    requires n < |x| + |y|
    ensures |x + y| == |x| + |y|
    ensures (x + y)[n] == if n < |x| then x[n] else y[n - |x|]
  {
  }

  /** With marks that keep the number of tokens, the outputs are as long
      as the inputs, so `_markup_diff`'s assertions hold. */
  lemma MarkupKeepsLength(ops: seq<Opcode>, a: seq<string>, b: seq<string>,
                          mark: seq<string> -> seq<string>, defaultMark: seq<string> -> seq<string>)
    requires WellFormed(ops, a, b) && KeepsLength(mark) && KeepsLength(defaultMark)
    ensures InBounds(ops, a, b)
    ensures |MarkupOps(ops, a, b, mark, defaultMark).a| == |a|
    ensures |MarkupOps(ops, a, b, mark, defaultMark).b| == |b|
  {
    WellFormedInBounds(ops, a, b, 0, 0);
    TilesChains(ops, a, b, 0, 0);
    KeepsLengthA(ops, a, b, 0, mark, defaultMark);
    KeepsLengthB(ops, a, b, 0, mark, defaultMark);
  }

  lemma MarkSpanKeepsLength()
    ensures KeepsLength(MarkSpan) && KeepsLength(Identity)
  {
  }

  /** `_html_diffs` calls `_markup_diff` with its default marks: every token
      of an `equal` block is output as it is, every other token is output
      inside a red span, and the outputs are as long as the inputs. */
  lemma MarkupTokens(ops: seq<Opcode>, a: seq<string>, b: seq<string>)
    requires WellFormed(ops, a, b)
    ensures InBounds(ops, a, b)
    ensures var m := MarkupOps(ops, a, b, MarkSpan, Identity);
      && |m.a| == |a| && |m.b| == |b|
      && (forall k, p :: 0 <= k < |ops| && ops[k].a0 <= p < ops[k].a1 ==>
            p < |m.a| && m.a[p] == if ops[k].tag == Equal then a[p] else MarkText(a[p]))
      && (forall k, p :: 0 <= k < |ops| && ops[k].b0 <= p < ops[k].b1 ==>
            p < |m.b| && m.b[p] == if ops[k].tag == Equal then b[p] else MarkText(b[p]))
  {
    MarkSpanKeepsLength();
    MarkupKeepsLength(ops, a, b, MarkSpan, Identity);
    TilesChains(ops, a, b, 0, 0);
    forall k, p | 0 <= k < |ops| && ops[k].a0 <= p < ops[k].a1
      ensures p < |a| && MarkupOps(ops, a, b, MarkSpan, Identity).a[p] == if ops[k].tag == Equal then a[p] else MarkText(a[p])
    {
      DefaultTokenA(ops, a, b, k, p);
    }
    forall k, p | 0 <= k < |ops| && ops[k].b0 <= p < ops[k].b1
      ensures p < |b| && MarkupOps(ops, a, b, MarkSpan, Identity).b[p] == if ops[k].tag == Equal then b[p] else MarkText(b[p])
    {
      DefaultTokenB(ops, a, b, k, p);
    }
  }

  lemma DefaultTokenA(ops: seq<Opcode>, a: seq<string>, b: seq<string>, k: nat, p: nat)
    requires InBounds(ops, a, b) && ChainA(ops, 0, |a|) && k < |ops| && ops[k].a0 <= p < ops[k].a1
    ensures p < |a|
    ensures var m := MarkupOps(ops, a, b, MarkSpan, Identity);
      p < |m.a| && m.a[p] == if ops[k].tag == Equal then a[p] else MarkText(a[p])
  {
    var op := ops[k];
    InBoundsAt(ops, a, b, k);
    var tokens := a[op.a0..op.a1];
    var q := p - op.a0;
    assert tokens[q] == a[p];
    MarkSpanKeepsLength();
    BlockTokenA(ops, a, b, MarkSpan, Identity, k, p);
    MarkBlockAt(op.tag, tokens, q);
  }

  lemma BlockTokenA(ops: seq<Opcode>, a: seq<string>, b: seq<string>,
                     mark: seq<string> -> seq<string>, defaultMark: seq<string> -> seq<string>, k: nat, p: nat)
    requires InBounds(ops, a, b) && ChainA(ops, 0, |a|) && KeepsLength(mark) && KeepsLength(defaultMark)
    requires k < |ops| && ops[k].a0 <= p < ops[k].a1
    ensures p < |a|
    ensures var m := MarkupOps(ops, a, b, mark, defaultMark);
      var blk := MarkBlock(ops[k].tag, mark, defaultMark, a[ops[k].a0..ops[k].a1]);
      && |m.a| == |a| && |blk| == ops[k].a1 - ops[k].a0
      && m.a[p] == blk[p - ops[k].a0]
  {
    MarkupTokenA(ops, a, b, 0, mark, defaultMark, k, p);
  }

  lemma DefaultTokenB(ops: seq<Opcode>, a: seq<string>, b: seq<string>, k: nat, p: nat)
    requires InBounds(ops, a, b) && ChainB(ops, 0, |b|) && k < |ops| && ops[k].b0 <= p < ops[k].b1
    ensures p < |b|
    ensures var m := MarkupOps(ops, a, b, MarkSpan, Identity);
      p < |m.b| && m.b[p] == if ops[k].tag == Equal then b[p] else MarkText(b[p])
  {
    var op := ops[k];
    InBoundsAt(ops, a, b, k);
    var tokens := b[op.b0..op.b1];
    var q := p - op.b0;
    assert tokens[q] == b[p];
    MarkSpanKeepsLength();
    BlockTokenB(ops, a, b, MarkSpan, Identity, k, p);
    MarkBlockAt(op.tag, tokens, q);
  }

  lemma BlockTokenB(ops: seq<Opcode>, a: seq<string>, b: seq<string>,
                     mark: seq<string> -> seq<string>, defaultMark: seq<string> -> seq<string>, k: nat, p: nat)
    requires InBounds(ops, a, b) && ChainB(ops, 0, |b|) && KeepsLength(mark) && KeepsLength(defaultMark)
    requires k < |ops| && ops[k].b0 <= p < ops[k].b1
    ensures p < |b|
    ensures var m := MarkupOps(ops, a, b, mark, defaultMark);
      var blk := MarkBlock(ops[k].tag, mark, defaultMark, b[ops[k].b0..ops[k].b1]);
      && |m.b| == |b| && |blk| == ops[k].b1 - ops[k].b0
      && m.b[p] == blk[p - ops[k].b0]
  {
    MarkupTokenB(ops, a, b, 0, mark, defaultMark, k, p);
  }

  lemma InBoundsAt<T>(ops: seq<Opcode>, a: seq<T>, b: seq<T>, k: nat)
    requires InBounds(ops, a, b) && k < |ops|
    ensures ops[k].a0 <= ops[k].a1 <= |a| && ops[k].b0 <= ops[k].b1 <= |b|
  {
  }

  lemma MarkBlockAt(tag: Tag, tokens: seq<string>, q: nat)
    requires q < |tokens|
    ensures |MarkBlock(tag, MarkSpan, Identity, tokens)| == |tokens|
    ensures MarkBlock(tag, MarkSpan, Identity, tokens)[q] == if tag == Equal then tokens[q] else MarkText(tokens[q])
  {
    if tag != Equal {
      MarkTextAt(tokens, q);
    }
  }

  lemma MarkTextAt(tokens: seq<string>, k: nat)
    requires k < |tokens|
    ensures MarkSpan(tokens)[k] == MarkText(tokens[k])
  {
  }
}
