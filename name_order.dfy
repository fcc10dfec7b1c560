/** The order in which `dir()` lists attribute names: Python compares `str`
    values lexicographically by code point, and `dir()` returns its names
    sorted. */
module NameOrder {

  /** `a < b` for Python strings. */
  predicate Less(a: string, b: string)
    decreases |a|
  {
    |b| > 0 && (|a| == 0 || a[0] < b[0] || (a[0] == b[0] && Less(a[1..], b[1..])))
  }

  lemma {:induction false} LessIrreflexive(a: string)
    ensures !Less(a, a)
    decreases |a|
  {
    if |a| > 0 {
      LessIrreflexive(a[1..]);
    }
  }

  lemma {:induction false} LessTransitive(a: string, b: string, c: string)
    requires Less(a, b) && Less(b, c)
    ensures Less(a, c)
    decreases |a|
  {
    if |a| > 0 && a[0] == b[0] && b[0] == c[0] {
      LessTransitive(a[1..], b[1..], c[1..]);
    }
  }

  lemma {:induction false} LessTotal(a: string, b: string)
    requires a != b
    ensures Less(a, b) || Less(b, a)
    decreases |a|
  {
    if |a| > 0 && |b| > 0 && a[0] == b[0] {
      assert a == [a[0]] + a[1..] && b == [b[0]] + b[1..];
      LessTotal(a[1..], b[1..]);
    }
  }

  lemma LessAsymmetric(a: string, b: string)
    requires Less(a, b)
    ensures !Less(b, a)
  {
    if Less(b, a) {
      LessTransitive(a, b, a);
      LessIrreflexive(a);
    }
  }

  /** A common prefix does not change the order of two names. */
  lemma {:induction false} LessCommonPrefix(p: string, a: string, b: string)
    requires Less(a, b)
    ensures Less(p + a, p + b)
    decreases |p|
  {
    if p == [] {
      assert p + a == a && p + b == b;
    } else {
      LessCommonPrefix(p[1..], a, b);
      assert (p + a)[0] == (p + b)[0];
      assert (p + a)[1..] == p[1..] + a && (p + b)[1..] == p[1..] + b;
    }
  }

  /** No two positions hold equal names and every name precedes the next. */
  predicate StrictlySorted(s: seq<string>)
  {
    forall i, j :: 0 <= i < j < |s| ==> Less(s[i], s[j])
  }

  predicate IsLeast(m: string, s: set<string>)
  {
    m in s && forall x :: x in s && x != m ==> Less(m, x)
  }

  lemma {:induction false} LeastExists(s: set<string>)
    requires s != {}
    ensures exists m :: IsLeast(m, s)
    decreases s
  {
    var x :| x in s;
    if s == {x} {
      assert IsLeast(x, s);
    } else {
      LeastExists(s - {x});
      var m :| IsLeast(m, s - {x});
      if Less(m, x) {
        assert IsLeast(m, s);
      } else {
        LessTotal(m, x);
        forall y | y in s && y != x
          ensures Less(x, y)
        {
          if y != m {
            LessTransitive(x, m, y);
          }
        }
        assert IsLeast(x, s);
      }
    }
  }

  /** The names of `s` in the order `dir()` lists them. */
  ghost function SortedNames(s: set<string>): (r: seq<string>)
    ensures |r| == |s| && StrictlySorted(r)
    ensures forall x :: x in r <==> x in s
    decreases |s|
  {
    if s == {} then []
    else
      LeastExists(s);
      var m :| IsLeast(m, s);
      var rest := SortedNames(s - {m});
      assert forall j :: 0 <= j < |rest| ==> rest[j] in s - {m};
      [m] + rest
  }

  /** A strictly sorted sequence is determined by its elements. */
  lemma {:induction false} SortedUnique(x: seq<string>, y: seq<string>)
    requires StrictlySorted(x) && StrictlySorted(y)
    requires forall e :: e in x <==> e in y
    ensures x == y
    decreases |x|
  {
    if x != [] {
      assert x[0] in x;
    }
    if y != [] {
      assert y[0] in y;
    }
    if x != [] && y != [] {
      if x[0] != y[0] {
        assert x[0] in y;
        var k :| 0 <= k < |y| && y[k] == x[0];
        assert y[0] in x;
        var l :| 0 <= l < |x| && x[l] == y[0];
        assert Less(y[0], x[0]) && Less(x[0], y[0]);
        LessAsymmetric(y[0], x[0]);
      }
      forall e
        ensures e in x[1..] <==> e in y[1..]
      {
        LessIrreflexive(e);
        if e in x[1..] {
          var i :| 0 <= i < |x| - 1 && x[1..][i] == e;
          assert Less(x[0], x[i + 1]) && x[i + 1] in x;
          var j :| 0 <= j < |y| && y[j] == e;
          assert j != 0;
          assert y[1..][j - 1] == e;
        }
        if e in y[1..] {
          var i :| 0 <= i < |y| - 1 && y[1..][i] == e;
          assert Less(y[0], y[i + 1]) && y[i + 1] in y;
          var j :| 0 <= j < |x| && x[j] == e;
          assert j != 0;
          assert x[1..][j - 1] == e;
        }
      }
      SortedUnique(x[1..], y[1..]);
      assert x == [x[0]] + x[1..] && y == [y[0]] + y[1..];
    }
  }

  /** `dir()`: the names, sorted. Selection of the least remaining name. */
  method Dir(names: set<string>) returns (r: seq<string>)
    ensures r == SortedNames(names)
  {
    r := [];
    var rest := names;
    while rest != {}
      invariant rest <= names
      invariant StrictlySorted(r)
      invariant forall x :: x in r <==> x in names && x !in rest
      invariant forall i, y :: 0 <= i < |r| && y in rest ==> Less(r[i], y)
      decreases rest
    {
      LeastExists(rest);
      var m :| IsLeast(m, rest);
      forall i | 0 <= i < |r|
        ensures Less(r[i], m)
      {
      }
      r := r + [m];
      rest := rest - {m};
    }
    SortedUnique(r, SortedNames(names));
  }
}
