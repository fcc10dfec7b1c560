/** `datetime.isoformat()` for the naive timestamps `datetime.now()` returns:
    `YYYY-MM-DDTHH:MM:SS`, followed by `.ffffff` only when the microsecond
    is not zero. `Parse` reads that text back, so the serializer's output
    determines the timestamp it came from. */
module IsoFormat {
  import opened Values

  function Pow10(n: nat): nat
  {
    if n == 0 then 1 else 10 * Pow10(n - 1)
  }

  predicate IsDigit(c: char)
  {
    '0' <= c <= '9'
  }

  function Digit(d: nat): (c: char)
    requires d < 10
    ensures IsDigit(c) && c as int - '0' as int == d
  {
    ('0' as int + d) as char
  }

  /** `'%0*d' % (width, n)` for an `n` that fits in `width` digits. */
  function Pad(n: nat, width: nat): (s: string)
    ensures |s| == width
    ensures forall i :: 0 <= i < |s| ==> IsDigit(s[i])
  {
    if width == 0 then [] else Pad(n / 10, width - 1) + [Digit(n % 10)]
  }

  /** The number a string of decimal digits denotes. */
  function DigitsValue(s: string): nat
    requires forall i :: 0 <= i < |s| ==> IsDigit(s[i])
  {
    if s == [] then 0
    else
      var last := s[|s| - 1];
      assert IsDigit(last);
      DigitsValue(s[..|s| - 1]) * 10 + (last as int - '0' as int)
  }

  lemma {:induction false} PadRoundTrip(n: nat, width: nat)
    requires n < Pow10(width)
    ensures DigitsValue(Pad(n, width)) == n
  {
    if width > 0 {
      assert n / 10 < Pow10(width - 1);
      PadRoundTrip(n / 10, width - 1);
      var s := Pad(n, width);
      assert s[..|s| - 1] == Pad(n / 10, width - 1);
    }
  }

  /** `YYYY-MM-DDTHH:MM:SS`, the part of the text that is always present. */
  function DateAndTime(d: DateTime): (s: string)
    ensures |s| == 19
  {
    Pad(d.year, 4) + "-" + Pad(d.month, 2) + "-" + Pad(d.day, 2) + "T"
    + Pad(d.hour, 2) + ":" + Pad(d.minute, 2) + ":" + Pad(d.second, 2)
  }

  function Format(d: DateTime): (s: string)
    ensures |s| == if d.microsecond == 0 then 19 else 26
  {
    DateAndTime(d) + (if d.microsecond == 0 then "" else "." + Pad(d.microsecond, 6))
  }

  lemma DateAndTimeLayout(d: DateTime)
    ensures var s := DateAndTime(d);
      && s[0..4] == Pad(d.year, 4) && s[4] == '-' && s[5..7] == Pad(d.month, 2)
      && s[7] == '-' && s[8..10] == Pad(d.day, 2) && s[10] == 'T'
      && s[11..13] == Pad(d.hour, 2) && s[13] == ':' && s[14..16] == Pad(d.minute, 2)
      && s[16] == ':' && s[17..19] == Pad(d.second, 2)
  {
  }

  predicate DigitsAt(s: string, lo: nat, hi: nat)
  {
    lo <= hi <= |s| && forall i :: lo <= i < hi ==> IsDigit(s[i])
  }

  function FieldAt(s: string, lo: nat, hi: nat): nat
    requires DigitsAt(s, lo, hi)
  {
    DigitsValue(s[lo..hi])
  }

  /** Reads the text `Format` produces back into a timestamp. */
  function Parse(s: string): Option<DateTime>
  {
    if (|s| == 19 || (|s| == 26 && s[19] == '.' && DigitsAt(s, 20, 26)))
       && s[4] == '-' && s[7] == '-' && s[10] == 'T' && s[13] == ':' && s[16] == ':'
       && DigitsAt(s, 0, 4) && DigitsAt(s, 5, 7) && DigitsAt(s, 8, 10)
       && DigitsAt(s, 11, 13) && DigitsAt(s, 14, 16) && DigitsAt(s, 17, 19)
    then
      var y, mo, d := FieldAt(s, 0, 4), FieldAt(s, 5, 7), FieldAt(s, 8, 10);
      var h, mi, sec := FieldAt(s, 11, 13), FieldAt(s, 14, 16), FieldAt(s, 17, 19);
      var us := if |s| == 26 then FieldAt(s, 20, 26) else 0;
      if 1 <= y <= 9999 && 1 <= mo <= 12 && 1 <= d <= 31 && h < 24 && mi < 60 && sec < 60
         && us < 1000000 && (|s| == 26 ==> us != 0)
      then Some(DateTime(y, mo, d, h, mi, sec, us))
      else None
    else None
  }

  lemma FieldRoundTrip(s: string, lo: nat, n: nat, width: nat)
    requires n < Pow10(width)
    requires lo + width <= |s| && s[lo..lo + width] == Pad(n, width)
    ensures DigitsAt(s, lo, lo + width) && FieldAt(s, lo, lo + width) == n
  {
    assert forall i :: lo <= i < lo + width ==> s[i] == Pad(n, width)[i - lo];
    PadRoundTrip(n, width);
  }

  /** The ISO text of a timestamp reads back as that timestamp. */
  lemma FormatRoundTrip(d: DateTime)
    ensures Parse(Format(d)) == Some(d)
  {
    var s := Format(d);
    var head := DateAndTime(d);
    DateAndTimeLayout(d);
    assert s[..19] == head;
    assert s[0..4] == head[0..4] && s[5..7] == head[5..7] && s[8..10] == head[8..10];
    assert s[11..13] == head[11..13] && s[14..16] == head[14..16] && s[17..19] == head[17..19];
    assert Pow10(2) == 100 && Pow10(4) == 10000 && Pow10(6) == 1000000;
    FieldRoundTrip(s, 0, d.year, 4);
    FieldRoundTrip(s, 5, d.month, 2);
    FieldRoundTrip(s, 8, d.day, 2);
    FieldRoundTrip(s, 11, d.hour, 2);
    FieldRoundTrip(s, 14, d.minute, 2);
    FieldRoundTrip(s, 17, d.second, 2);
    if d.microsecond != 0 {
      assert s[19] == '.' && s[20..26] == Pad(d.microsecond, 6);
      FieldRoundTrip(s, 20, d.microsecond, 6);
    }
  }

  lemma FormatInjective(d: DateTime, e: DateTime)
    requires Format(d) == Format(e)
    ensures d == e
  {
    FormatRoundTrip(d);
    FormatRoundTrip(e);
  }
}
