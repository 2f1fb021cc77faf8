/** Character-level helpers shared by the Jotdown block parser: whitespace
    trimming, leading-run counting, decimal markers and the split of a buffer
    into physical lines. */
module JotText {

  /** ASCII whitespace: space, tab, line feed, carriage return, form feed. */
  predicate IsSpace(c: char) {
    c == ' ' || c == '\t' || c == '\n' || c == '\r' || c == '\U{000C}'
  }

  predicate IsDigit(c: char) {
    '0' <= c <= '9'
  }

  /** Every character of `s` is whitespace (the empty string included). */
  predicate AllSpace(s: string) {
    forall i :: 0 <= i < |s| ==> IsSpace(s[i])
  }

  /** No whitespace at either end: the shape of every trimmed string. */
  predicate Trimmed(s: string) {
    |s| == 0 || (!IsSpace(s[0]) && !IsSpace(s[|s| - 1]))
  }

  lemma AllSpaceCons(c: char, x: string)
    ensures AllSpace([c] + x) <==> IsSpace(c) && AllSpace(x)
  {
    var y := [c] + x;
    assert y[0] == c;
    assert forall i :: 0 <= i < |x| ==> y[i + 1] == x[i];
    assert forall i :: 1 <= i < |y| ==> y[i] == x[i - 1];
  }

  lemma AllSpaceSnoc(x: string, c: char)
    ensures AllSpace(x + [c]) <==> AllSpace(x) && IsSpace(c)
  {
    var y := x + [c];
    assert y[|x|] == c;
    assert forall i :: 0 <= i < |x| ==> y[i] == x[i];
  }

  /** Drops leading whitespace. */
  function TrimStart(s: string): (r: string)
    ensures |r| <= |s| && r == s[|s| - |r|..]
    ensures |r| == 0 || !IsSpace(r[0])
    ensures AllSpace(r) <==> AllSpace(s)
  {
    if |s| > 0 && IsSpace(s[0]) then
      AllSpaceCons(s[0], s[1..]);
      assert s == [s[0]] + s[1..];
      TrimStart(s[1..])
    else
      s
  }

  /** Drops trailing whitespace. */
  function TrimEnd(s: string): (r: string)
    ensures |r| <= |s| && r == s[..|r|]
    ensures |r| == 0 || !IsSpace(r[|r| - 1])
    ensures |r| == 0 <==> AllSpace(s)
  {
    if |s| > 0 && IsSpace(s[|s| - 1]) then
      AllSpaceSnoc(s[..|s| - 1], s[|s| - 1]);
      assert s == s[..|s| - 1] + [s[|s| - 1]];
      TrimEnd(s[..|s| - 1])
    else
      assert |s| > 0 ==> !AllSpace(s);
      s
  }

  /** Drops whitespace at both ends; the result is empty exactly when `s`
      is blank. */
  function Trim(s: string): (r: string)
    ensures Trimmed(r)
    ensures |r| == 0 <==> AllSpace(s)
  {
    TrimEnd(TrimStart(s))
  }

  lemma {:induction false} TrimStartPadded(p: string, u: string)
    requires AllSpace(p) && |u| > 0 && !IsSpace(u[0])
    ensures TrimStart(p + u) == u
  {
    if |p| > 0 {
      assert (p + u)[0] == p[0];
      assert (p + u)[1..] == p[1..] + u;
      TrimStartPadded(p[1..], u);
    } else {
      assert p + u == u;
    }
  }

  lemma {:induction false} TrimEndPadded(t: string, q: string)
    requires AllSpace(q) && |t| > 0 && !IsSpace(t[|t| - 1])
    ensures TrimEnd(t + q) == t
  {
    if |q| > 0 {
      assert (t + q)[|t + q| - 1] == q[|q| - 1];
      assert (t + q)[..|t + q| - 1] == t + q[..|q| - 1];
      TrimEndPadded(t, q[..|q| - 1]);
    } else {
      assert t + q == t;
    }
  }

  /** Whitespace in front of a text makes no difference to what
      `TrimStart` keeps of it. */
  lemma {:induction false} TrimStartSkips(p: string, u: string)
    requires AllSpace(p)
    ensures TrimStart(p + u) == TrimStart(u)
  {
    if |p| > 0 {
      assert (p + u)[0] == p[0];
      assert (p + u)[1..] == p[1..] + u;
      TrimStartSkips(p[1..], u);
    } else {
      assert p + u == u;
    }
  }

  /** Trimming a trimmed text padded with whitespace on both sides gives
      back that text: the blank ends are exactly what `Trim` removes. */
  lemma TrimPadded(p: string, t: string, q: string)
    requires AllSpace(p) && AllSpace(q) && Trimmed(t) && |t| > 0
    ensures Trim(p + t + q) == t
  {
    assert p + t + q == p + (t + q);
    TrimStartPadded(p, t + q);
    TrimEndPadded(t, q);
  }

  /** Length of the run of `#` that opens `s`. */
  function LeadingHashes(s: string): (n: nat)
    ensures n <= |s|
    ensures forall i :: 0 <= i < n ==> s[i] == '#'
    ensures n == |s| || s[n] != '#'
  {
    if |s| > 0 && s[0] == '#' then 1 + LeadingHashes(s[1..]) else 0
  }

  /** Length of the run of decimal digits that opens `s`. */
  function LeadingDigits(s: string): (n: nat)
    ensures n <= |s|
    ensures forall i :: 0 <= i < n ==> IsDigit(s[i])
    ensures n == |s| || !IsDigit(s[n])
  {
    if |s| > 0 && IsDigit(s[0]) then 1 + LeadingDigits(s[1..]) else 0
  }

  /** `n` copies of `#`, the marker of a level-`n` heading. */
  function Hashes(n: nat): (r: string)
    ensures |r| == n && forall i :: 0 <= i < n ==> r[i] == '#'
  {
    seq(n, _ => '#')
  }

  function DigitValue(c: char): (v: nat)
    requires IsDigit(c)
    ensures v < 10
  {
    (c as int) - ('0' as int)
  }

  function DigitChar(v: nat): (c: char)
    requires v < 10
    ensures IsDigit(c) && DigitValue(c) == v
  {
    (('0' as int) + v) as char
  }

  /** The number a run of decimal digits stands for (leading zeros allowed). */
  function DecimalValue(ds: string): nat
    requires forall i :: 0 <= i < |ds| ==> IsDigit(ds[i])
  {
    if |ds| == 0 then 0
    else 10 * DecimalValue(ds[..|ds| - 1]) + DigitValue(ds[|ds| - 1])
  }

  /** The shortest decimal spelling of `m`. */
  function ShowDecimal(m: nat): (ds: string)
    ensures |ds| >= 1
    ensures forall i :: 0 <= i < |ds| ==> IsDigit(ds[i])
  {
    if m < 10 then [DigitChar(m)] else ShowDecimal(m / 10) + [DigitChar(m % 10)]
  }

  /** Reading back a printed marker gives the marker. */
  lemma {:induction false} DecimalRoundTrip(m: nat)
    ensures DecimalValue(ShowDecimal(m)) == m
  {
    if m >= 10 {
      var ds := ShowDecimal(m);
      assert ds[..|ds| - 1] == ShowDecimal(m / 10);
      DecimalRoundTrip(m / 10);
    }
  }

  /** The physical lines of `s`: the pieces between line feeds. A buffer
      with `k` line feeds has `k + 1` lines; none contains a line feed. */
  function SplitLines(s: string): (lines: seq<string>)
    ensures |lines| >= 1
    ensures forall j :: 0 <= j < |lines| ==> '\n' !in lines[j]
  {
    if |s| == 0 then [""]
    else if s[0] == '\n' then [""] + SplitLines(s[1..])
    else
      var rest := SplitLines(s[1..]);
      [[s[0]] + rest[0]] + rest[1..]
  }

  /** Glues lines back together with a line feed between neighbours. */
  function JoinLines(lines: seq<string>): string
  {
    if |lines| == 0 then ""
    else if |lines| == 1 then lines[0]
    else lines[0] + "\n" + JoinLines(lines[1..])
  }

  lemma {:induction false} SplitNoNewline(s: string)
    requires '\n' !in s
    ensures SplitLines(s) == [s]
  {
    if |s| > 0 {
      assert s == [s[0]] + s[1..];
      assert '\n' !in s[1..];
      SplitNoNewline(s[1..]);
    }
  }

  /** Splitting distributes over a line feed. */
  lemma {:induction false} SplitAppend(a: string, b: string)
    ensures SplitLines(a + "\n" + b) == SplitLines(a) + SplitLines(b)
  {
    if |a| == 0 {
      assert a + "\n" + b == "\n" + b;
      assert ("\n" + b)[1..] == b;
    } else {
      assert (a + "\n" + b)[0] == a[0];
      assert (a + "\n" + b)[1..] == a[1..] + "\n" + b;
      SplitAppend(a[1..], b);
    }
  }

  /** Joining the split lines gives back the buffer. */
  lemma {:induction false} JoinSplit(s: string)
    ensures JoinLines(SplitLines(s)) == s
  {
    if |s| > 0 {
      JoinSplit(s[1..]);
      var rest := SplitLines(s[1..]);
      if s[0] == '\n' {
        assert s == "" + "\n" + s[1..];
      } else if |rest| == 1 {
        assert s == [s[0]] + s[1..];
      } else {
        assert JoinLines(rest) == rest[0] + "\n" + JoinLines(rest[1..]);
        assert s == [s[0]] + s[1..];
      }
    }
  }

  /** Splitting joined lines gives back the lines, provided none of them
      holds a line feed. */
  lemma {:induction false} SplitJoin(lines: seq<string>)
    requires |lines| >= 1
    requires forall j :: 0 <= j < |lines| ==> '\n' !in lines[j]
    ensures SplitLines(JoinLines(lines)) == lines
  {
    if |lines| == 1 {
      SplitNoNewline(lines[0]);
    } else {
      SplitJoin(lines[1..]);
      SplitNoNewline(lines[0]);
      SplitAppend(lines[0], JoinLines(lines[1..]));
      assert lines == [lines[0]] + lines[1..];
    }
  }

  /** Every line of `lines` is blank. */
  predicate AllBlankLines(lines: seq<string>) {
    forall j :: 0 <= j < |lines| ==> AllSpace(lines[j])
  }

  lemma AllBlankLinesCons(x: string, ys: seq<string>)
    ensures AllBlankLines([x] + ys) <==> AllSpace(x) && AllBlankLines(ys)
  {
    var zs := [x] + ys;
    assert zs[0] == x;
    assert forall j :: 0 <= j < |ys| ==> zs[j + 1] == ys[j];
    if AllSpace(x) && AllBlankLines(ys) {
      forall j | 0 <= j < |zs| ensures AllSpace(zs[j]) {
        if j > 0 { assert zs[j] == ys[j - 1]; }
      }
    }
  }

  /** A buffer is blank exactly when each of its lines is. */
  lemma {:induction false} AllSpaceLines(s: string)
    ensures AllSpace(s) <==> AllBlankLines(SplitLines(s))
  {
    if |s| > 0 {
      AllSpaceLines(s[1..]);
      var rest := SplitLines(s[1..]);
      AllSpaceCons(s[0], s[1..]);
      assert s == [s[0]] + s[1..];
      assert rest == [rest[0]] + rest[1..];
      AllBlankLinesCons(rest[0], rest[1..]);
      if s[0] != '\n' {
        AllSpaceCons(s[0], rest[0]);
        AllBlankLinesCons([s[0]] + rest[0], rest[1..]);
      } else {
        AllBlankLinesCons("", rest);
      }
    }
  }
}
