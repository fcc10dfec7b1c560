/** `_html_sidebyside` and `_html_diffs`: two texts are escaped, split into
    lines, aligned with `_align_seqs`, their words marked with
    `_markup_diff`, and laid out as a two-column HTML grid. */
module HtmlDiff {
  import opened Values
  import opened Opcodes
  import opened Text
  import opened Markup
  import opened Align

  const GridOpen := "<div style=\"display: grid;grid-template-columns: 1fr 1fr;grid-gap: 0;\">"
  /** Two empty paragraphs that keep the first row of a notebook aligned. */
  const Spacer := "<p></p><p></p>"
  const LeftOpen := "<pre style=\"margin-top:0;padding:0\">"
  /** The right cell's opening tag, byte for byte: its closing quote comes
      before `;padding:0`. */
  const RightOpen := "<pre style=\"margin-top:0\";padding:0>"
  const PreClose := "</pre>"
  const GridClose := "</div>"

  /** The next item of one side of `zip_longest`, or `fill` once it is used up. */
  function HeadOr(s: seq<string>, fill: string): string
  {
    if s == [] then fill else s[0]
  }

  function Rest(s: seq<string>): seq<string>
  {
    if s == [] then [] else s[1..]
  }

  /** `zip_longest(a, b, fillvalue=fill)`. */
  function ZipLongest(a: seq<string>, b: seq<string>, fill: string): (r: seq<(string, string)>)
    ensures |r| == if |a| < |b| then |b| else |a|
    decreases |a| + |b|
  {
    if a == [] && b == [] then []
    else [(HeadOr(a, fill), HeadOr(b, fill))] + ZipLongest(Rest(a), Rest(b), fill)
  }

  /** Pair `k` holds item `k` of each side, or `fill` once that side has run out. */
  lemma {:induction false} ZipLongestAt(a: seq<string>, b: seq<string>, fill: string, k: nat)
    requires k < |a| || k < |b|
    ensures ZipLongest(a, b, fill)[k] == (if k < |a| then a[k] else fill, if k < |b| then b[k] else fill)
    decreases k
  {
    if k > 0 {
      ZipLongestAt(Rest(a), Rest(b), fill, k - 1);
      if k < |a| { assert Rest(a)[k - 1] == a[k]; }
      if k < |b| { assert Rest(b)[k - 1] == b[k]; }
    }
  }

  /** One row of the grid: the left line, then the right line. */
  function Row(pair: (string, string)): string
  {
    LeftOpen + pair.0 + PreClose + RightOpen + pair.1 + PreClose
  }

  /** The strings `f` makes of the items of `xs`, one after the other. */
  function ConcatMap<T>(f: T -> string, xs: seq<T>): string
    decreases |xs|
  {
    if xs == [] then "" else f(xs[0]) + ConcatMap(f, xs[1..])
  }

  function Rows(pairs: seq<(string, string)>): string
  {
    ConcatMap(Row, pairs)
  }

  /** The page `_html_sidebyside(a, b)` returns. */
  function SideBySide(a: seq<string>, b: seq<string>): string
  {
    GridOpen + Spacer + Rows(ZipLongest(a, b, "")) + GridClose
  }

  lemma {:induction false} ConcatMapAppend<T>(f: T -> string, p: seq<T>, q: seq<T>)
    ensures ConcatMap(f, p + q) == ConcatMap(f, p) + ConcatMap(f, q)
    decreases |p|
  {
    if p == [] {
      assert p + q == q;
    } else {
      assert (p + q)[0] == p[0] && (p + q)[1..] == p[1..] + q;
      ConcatMapAppend(f, p[1..], q);
    }
  }

  /** The strings of `xs` are those of its first `k` items, that of item
      `k`, and those of the items after it. */
  lemma ConcatMapSplit<T>(f: T -> string, xs: seq<T>, k: nat)
    requires k < |xs|
    ensures ConcatMap(f, xs) == ConcatMap(f, xs[..k]) + f(xs[k]) + ConcatMap(f, xs[k + 1..])
    ensures ConcatMap(f, xs[..k + 1]) == ConcatMap(f, xs[..k]) + f(xs[k])
  {
    Pieces(xs, k);
    ConcatMapAppend(f, xs[..k], xs[k..]);
    ConcatMapHead(f, xs[k..]);
    Regroup(ConcatMap(f, xs[..k]), f(xs[k]), ConcatMap(f, xs[k + 1..]));
    ConcatMapAppend(f, xs[..k], [xs[k]]);
    ConcatMapHead(f, [xs[k]]);
  }

  lemma ConcatMapHead<T>(f: T -> string, xs: seq<T>)
    requires xs != []
    ensures ConcatMap(f, xs) == f(xs[0]) + ConcatMap(f, xs[1..])
  {
  }

  lemma Pieces<T>(xs: seq<T>, k: nat)
    requires k < |xs|
    ensures xs == xs[..k] + xs[k..]
    ensures xs[..k + 1] == xs[..k] + [xs[k]]
    ensures xs[k..][0] == xs[k] && xs[k..][1..] == xs[k + 1..]
    ensures [xs[k]][1..] == []
  {
  }

  lemma Assoc5(p: string, x: string, y: string, z: string, c: string)
    ensures p + (x + y + z) + c == p + x + y + z + c
  {
  }

  /** The page is the grid header, the rows of the zipped lines in order,
      and the closing tag; row `k` holds line `k` of each side, or an empty
      cell once that side has run out. */
  lemma SideBySideRow(a: seq<string>, b: seq<string>, k: nat)
    requires k < |a| || k < |b|
    ensures var pairs := ZipLongest(a, b, "");
      && k < |pairs|
      && SideBySide(a, b) == GridOpen + Spacer + Rows(pairs[..k])
           + Row((if k < |a| then a[k] else "", if k < |b| then b[k] else ""))
           + Rows(pairs[k + 1..]) + GridClose
  {
    var pairs := ZipLongest(a, b, "");
    ZipLongestAt(a, b, "", k);
    ConcatMapSplit(Row, pairs, k);
    Assoc5(GridOpen + Spacer, Rows(pairs[..k]), Row(pairs[k]), Rows(pairs[k + 1..]), GridClose);
  }

  /** `_html_sidebyside(a, b)`. */
  method HtmlSideBySide(a: seq<string>, b: seq<string>) returns (out: string)
    ensures out == SideBySide(a, b)
  {
    out := GridOpen;
    out := out + Spacer;
    ghost var header := out;
    var pairs := ZipLongest(a, b, "");
    for k := 0 to |pairs|
      invariant out == header + Rows(pairs[..k])
    {
      var (left, right) := pairs[k];
      ConcatMapSplit(Row, pairs, k);
      RowParts(pairs[k], out);
      Regroup(header, Rows(pairs[..k]), Row(pairs[k]));
      out := out + (LeftOpen + left + PreClose);
      out := out + (RightOpen + right + PreClose);
    }
    assert pairs[..|pairs|] == pairs;
    out := out + GridClose;
  }

  lemma RowParts(pair: (string, string), out: string)
    ensures out + (LeftOpen + pair.0 + PreClose) + (RightOpen + pair.1 + PreClose) == out + Row(pair)
  {
  }

  /** A matcher: the opcodes `difflib.SequenceMatcher(a=x, b=y,
      autojunk=False).get_opcodes()` returns, assumed to tile `x` and `y`. */
  ghost predicate Matches(matcher: (seq<string>, seq<string>) -> seq<Opcode>)
  {
    forall x, y :: WellFormed(matcher(x, y), x, y)
  }

  /** The words of two aligned lines, marked where they differ. */
  function MarkLine(x: string, y: string, matcher: (seq<string>, seq<string>) -> seq<Opcode>): (r: Sides<string>)
    requires Matches(matcher)
    ensures |r.a| == |Split(x, ' ')| && |r.b| == |Split(y, ' ')|
  {
    var tx, ty := Split(x, ' '), Split(y, ' ');
    assert WellFormed(matcher(tx, ty), tx, ty);
    MarkSpanKeepsLength();
    MarkupKeepsLength(matcher(tx, ty), tx, ty, MarkSpan, Identity);
    MarkupOps(matcher(tx, ty), tx, ty, MarkSpan, Identity)
  }

  /** The marked lines joined with `&nbsp;`, for every aligned pair. */
  function MarkLines(xs: seq<string>, ys: seq<string>, matcher: (seq<string>, seq<string>) -> seq<Opcode>): (r: Sides<string>)
    requires |xs| == |ys| && Matches(matcher)
    ensures |r.a| == |r.b| == |xs|
    decreases |xs|
  {
    if xs == [] then Sides([], [])
    else
      var m := MarkLine(xs[0], ys[0], matcher);
      var rest := MarkLines(xs[1..], ys[1..], matcher);
      Sides([Join(m.a, "&nbsp;")] + rest.a, [Join(m.b, "&nbsp;")] + rest.b)
  }

  /** The lines of both texts after escaping, aligned with `''`. */
  function AlignedLines(a: string, b: string, escape: string -> string,
                        matcher: (seq<string>, seq<string>) -> seq<Opcode>): (r: Sides<string>)
    requires Matches(matcher)
    ensures |r.a| == |r.b|
  {
    var la, lb := SplitLines(escape(a)), SplitLines(escape(b));
    assert WellFormed(matcher(la, lb), la, lb);
    WellFormedInBounds(matcher(la, lb), la, lb, 0, 0);
    AlignedSameLength(matcher(la, lb), la, lb, "");
    AlignOps(matcher(la, lb), la, lb, "")
  }

  /** What `_html_diffs(a, b)` returns or raises. */
  function HtmlDiffsOf(a: string, b: string, htmlAvailable: bool, escape: string -> string,
                       matcher: (seq<string>, seq<string>) -> seq<Opcode>): Result<string>
    requires Matches(matcher)
  {
    if !htmlAvailable then Err(ImportError("html package not found; Python 3.x required"))
    else
      var lines := AlignedLines(a, b, escape, matcher);
      var marked := MarkLines(lines.a, lines.b, matcher);
      Ok(SideBySide(marked.a, marked.b))
  }

  lemma MarkLinesStep(xs: seq<string>, ys: seq<string>, k: nat, matcher: (seq<string>, seq<string>) -> seq<Opcode>,
                      outA: seq<string>, outB: seq<string>)
    requires |xs| == |ys| && k < |xs| && Matches(matcher)
    requires Sides(outA + MarkLines(xs[k..], ys[k..], matcher).a, outB + MarkLines(xs[k..], ys[k..], matcher).b)
      == MarkLines(xs, ys, matcher)
    ensures var m := MarkLine(xs[k], ys[k], matcher);
      var rest := MarkLines(xs[k + 1..], ys[k + 1..], matcher);
      Sides(outA + [Join(m.a, "&nbsp;")] + rest.a, outB + [Join(m.b, "&nbsp;")] + rest.b)
        == MarkLines(xs, ys, matcher)
  {
    var sx, sy := xs[k..], ys[k..];
    assert sx[0] == xs[k] && sx[1..] == xs[k + 1..];
    assert sy[0] == ys[k] && sy[1..] == ys[k + 1..];
    var m := MarkLine(xs[k], ys[k], matcher);
    var rest := MarkLines(xs[k + 1..], ys[k + 1..], matcher);
    Regroup(outA, [Join(m.a, "&nbsp;")], rest.a);
    Regroup(outB, [Join(m.b, "&nbsp;")], rest.b);
  }

  /** One loop step of `_html_diffs`: the words of a pair of aligned lines,
      run through `_markup_diff`, which cannot fail here. */
  method MarkLineDiff(x: string, y: string, matcher: (seq<string>, seq<string>) -> seq<Opcode>)
    returns (m: Sides<string>)
    requires Matches(matcher)
    ensures m == MarkLine(x, y, matcher)
  {
    var tx, ty := Split(x, ' '), Split(y, ' ');
    assert WellFormed(matcher(tx, ty), tx, ty);
    MarkSpanKeepsLength();
    MarkupKeepsLength(matcher(tx, ty), tx, ty, MarkSpan, Identity);
    var marked := MarkupDiff(tx, ty, matcher(tx, ty), MarkSpan, Identity);
    m := marked.value;
  }

  /** `_html_diffs(a, b)`: `htmlAvailable` says whether the `html` module
      imported, `escape` is `html.escape` and `matcher` stands for
      `difflib.SequenceMatcher`. */
  method HtmlDiffs(a: string, b: string, htmlAvailable: bool, escape: string -> string,
                   matcher: (seq<string>, seq<string>) -> seq<Opcode>) returns (r: Result<string>)
    requires Matches(matcher)
    ensures r == HtmlDiffsOf(a, b, htmlAvailable, escape, matcher)
  {
    if !htmlAvailable {
      return Err(ImportError("html package not found; Python 3.x required"));
    }
    var la, lb := SplitLines(escape(a)), SplitLines(escape(b));
    assert WellFormed(matcher(la, lb), la, lb);
    var aligned := AlignSeqs(la, lb, matcher(la, lb), "");
    var outA, outB := MarkAll(aligned.a, aligned.b, matcher);
    var page := HtmlSideBySide(outA, outB);
    return Ok(page);
  }

  /** The loop of `_html_diffs` over the aligned line pairs. */
  method MarkAll(xs: seq<string>, ys: seq<string>, matcher: (seq<string>, seq<string>) -> seq<Opcode>)
    returns (outA: seq<string>, outB: seq<string>)
    requires |xs| == |ys| && Matches(matcher)
    ensures Sides(outA, outB) == MarkLines(xs, ys, matcher)
  {
    ghost var whole := MarkLines(xs, ys, matcher);
    outA, outB := [], [];
    for k := 0 to |xs|
      invariant Sides(outA + MarkLines(xs[k..], ys[k..], matcher).a,
                      outB + MarkLines(xs[k..], ys[k..], matcher).b) == whole
    {
      var marked := MarkLineDiff(xs[k], ys[k], matcher);
      MarkLinesStep(xs, ys, k, matcher, outA, outB);
      outA := outA + [Join(marked.a, "&nbsp;")];
      outB := outB + [Join(marked.b, "&nbsp;")];
    }
    assert xs[|xs|..] == [] && ys[|ys|..] == [];
    assert outA + [] == outA && outB + [] == outB;
  }

  /** `_html_diffs` fails only when `html` is missing; otherwise the page has
      one row per aligned line, and row `k` holds aligned line `k` of each
      text, its words marked where they differ and joined with `&nbsp;`. */
  lemma HtmlDiffsRows(a: string, b: string, htmlAvailable: bool, escape: string -> string,
                      matcher: (seq<string>, seq<string>) -> seq<Opcode>, k: nat)
    requires Matches(matcher)
    ensures HtmlDiffsOf(a, b, htmlAvailable, escape, matcher).Ok? <==> htmlAvailable
    ensures var lines := AlignedLines(a, b, escape, matcher);
      var marked := MarkLines(lines.a, lines.b, matcher);
      htmlAvailable && k < |lines.a| ==>
        HtmlDiffsOf(a, b, htmlAvailable, escape, matcher).value
          == GridOpen + Spacer + Rows(ZipLongest(marked.a, marked.b, "")[..k])
             + Row((Join(MarkLine(lines.a[k], lines.b[k], matcher).a, "&nbsp;"),
                    Join(MarkLine(lines.a[k], lines.b[k], matcher).b, "&nbsp;")))
             + Rows(ZipLongest(marked.a, marked.b, "")[k + 1..]) + GridClose
  {
    var lines := AlignedLines(a, b, escape, matcher);
    var marked := MarkLines(lines.a, lines.b, matcher);
    if htmlAvailable && k < |lines.a| {
      SideBySideRow(marked.a, marked.b, k);
      MarkLinesAt(lines.a, lines.b, matcher, k);
    }
  }

  /** Line `k` of each marked column comes from aligned pair `k`. */
  lemma {:induction false} MarkLinesAt(xs: seq<string>, ys: seq<string>, matcher: (seq<string>, seq<string>) -> seq<Opcode>, k: nat)
    requires |xs| == |ys| && k < |xs| && Matches(matcher)
    ensures MarkLines(xs, ys, matcher).a[k] == Join(MarkLine(xs[k], ys[k], matcher).a, "&nbsp;")
    ensures MarkLines(xs, ys, matcher).b[k] == Join(MarkLine(xs[k], ys[k], matcher).b, "&nbsp;")
    decreases k
  {
    if k > 0 {
      MarkLinesAt(xs[1..], ys[1..], matcher, k - 1);
      MarkLinesTail(xs, ys, matcher);
      assert xs[1..][k - 1] == xs[k] && ys[1..][k - 1] == ys[k];
    }
  }

  lemma MarkLinesTail(xs: seq<string>, ys: seq<string>, matcher: (seq<string>, seq<string>) -> seq<Opcode>)
    requires |xs| == |ys| && 0 < |xs| && Matches(matcher)
    ensures MarkLines(xs, ys, matcher).a[1..] == MarkLines(xs[1..], ys[1..], matcher).a
    ensures MarkLines(xs, ys, matcher).b[1..] == MarkLines(xs[1..], ys[1..], matcher).b
  {
  }
}
