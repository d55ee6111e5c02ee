/**
 The two ways the pagination code sizes text, and the few string operations it
 is built from.  Characters are Unicode scalar values.
 */
module TextUnits {

  /** `Bytes` is the UTF-8 length (RFC 3629, section 3), `Chars` is `len`. */
  datatype Unit = Bytes | Chars

  function CharSize(u: Unit, c: char): (n: nat)
    ensures 1 <= n <= 4
  {
    match u
    case Chars => 1
    case Bytes =>
      var code := c as int;
      if code < 0x80 then 1
      else if code < 0x800 then 2
      else if code < 0x1_0000 then 3
      else 4
  }

  /** The bytes of one character: a lead byte that tells how many follow, and six bits in each of those. */
  function Encoded(c: char): (bytes: seq<nat>)
  {
    var code := c as int;
    if code < 0x80 then [code]
    else if code < 0x800 then [0xc0 + code / 0x40, 0x80 + code % 0x40]
    else if code < 0x1_0000 then [0xe0 + code / 0x1000, 0x80 + code / 0x40 % 0x40, 0x80 + code % 0x40]
    else [0xf0 + code / 0x4_0000, 0x80 + code / 0x1000 % 0x40, 0x80 + code / 0x40 % 0x40, 0x80 + code % 0x40]
  }

  function EncodedText(s: string): (bytes: seq<nat>)
  {
    if s == "" then [] else Encoded(s[0]) + EncodedText(s[1..])
  }

  function Measure(u: Unit, s: string): (n: nat)
  {
    if s == "" then 0 else CharSize(u, s[0]) + Measure(u, s[1..])
  }

  /** The size of a text is the number of its bytes, or of its characters. */
  lemma {:induction false} MeasureCounts(s: string)
    ensures Measure(Bytes, s) == |EncodedText(s)| && Measure(Chars, s) == |s|
  {
    if s != "" {
      MeasureCounts(s[1..]);
    }
  }

  /** The bytes of a character are bytes, and the first one tells their number. */
  lemma LeadByteTellsSize(c: char)
    ensures var bytes := Encoded(c);
            && (forall i :: 0 <= i < |bytes| ==> bytes[i] < 0x100)
            && (forall i :: 0 < i < |bytes| ==> 0x80 <= bytes[i] < 0xc0)
            && CharSize(Bytes, c)
               == if bytes[0] < 0xc0 then 1 else if bytes[0] < 0xe0 then 2 else if bytes[0] < 0xf0 then 3 else 4
  {
  }

  lemma {:induction false} MeasureAppend(u: Unit, a: string, b: string)
    ensures Measure(u, a + b) == Measure(u, a) + Measure(u, b)
  {
    if a == "" {
      assert a + b == b;
    } else {
      assert (a + b)[1..] == a[1..] + b;
      MeasureAppend(u, a[1..], b);
    }
  }

  lemma MeasureSlice(u: Unit, s: string, i: nat, j: nat)
    requires i <= j <= |s|
    ensures Measure(u, s) == Measure(u, s[..i]) + Measure(u, s[i..j]) + Measure(u, s[j..])
    ensures Measure(u, s[..j]) == Measure(u, s[..i]) + Measure(u, s[i..j])
  {
    assert s == s[..j] + s[j..];
    assert s[..j] == s[..i] + s[i..j];
    MeasureAppend(u, s[..j], s[j..]);
    MeasureAppend(u, s[..i], s[i..j]);
  }

  lemma {:induction false} MeasureAtLeastLength(u: Unit, s: string)
    ensures |s| <= Measure(u, s) <= 4 * |s|
    ensures u.Chars? ==> Measure(u, s) == |s|
  {
    if s != "" {
      MeasureAtLeastLength(u, s[1..]);
    }
  }

  /** A single character has the size it is counted with. */
  lemma MeasureOne(u: Unit, c: char)
    ensures Measure(u, [c]) == CharSize(u, c)
  {
    assert [c][1..] == "";
  }

  // ---- Whole texts built from pieces ------------------------------------

  function Concat(parts: seq<string>): (s: string)
  {
    if parts == [] then "" else parts[0] + Concat(parts[1..])
  }

  lemma {:induction false} ConcatAppend(a: seq<string>, b: seq<string>)
    ensures Concat(a + b) == Concat(a) + Concat(b)
  {
    if a == [] {
      assert a + b == b;
    } else {
      assert (a + b)[1..] == a[1..] + b;
      ConcatAppend(a[1..], b);
      assert a[0] + (Concat(a[1..]) + Concat(b)) == (a[0] + Concat(a[1..])) + Concat(b);
    }
  }

  function Total(u: Unit, pages: seq<string>): (n: nat)
  {
    if pages == [] then 0 else Measure(u, pages[0]) + Total(u, pages[1..])
  }

  predicate AllFit(u: Unit, pages: seq<string>, limit: int)
  {
    forall i :: 0 <= i < |pages| ==> Measure(u, pages[i]) <= limit
  }

  /** `sep.join(parts)`. */
  function Join(sep: string, parts: seq<string>): (s: string)
  {
    if parts == [] then ""
    else if |parts| == 1 then parts[0]
    else parts[0] + sep + Join(sep, parts[1..])
  }

  lemma {:induction false} JoinAppend(sep: string, a: seq<string>, b: seq<string>)
    requires a != [] && b != []
    ensures Join(sep, a + b) == Join(sep, a) + sep + Join(sep, b)
  {
    assert (a + b)[0] == a[0];
    if |a| == 1 {
      assert (a + b)[1..] == b;
    } else {
      assert (a + b)[1..] == a[1..] + b;
      JoinAppend(sep, a[1..], b);
      assert a[0] + sep + (Join(sep, a[1..]) + sep + Join(sep, b))
          == a[0] + sep + Join(sep, a[1..]) + sep + Join(sep, b);
    }
  }

  lemma MeasureJoinAppend(u: Unit, sep: string, a: seq<string>, b: seq<string>)
    requires a != [] && b != []
    ensures Measure(u, Join(sep, a + b)) == Measure(u, Join(sep, a)) + Measure(u, sep) + Measure(u, Join(sep, b))
  {
    JoinAppend(sep, a, b);
    MeasureAppend(u, Join(sep, a) + sep, Join(sep, b));
    MeasureAppend(u, Join(sep, a), sep);
  }

  function Flatten<T>(groups: seq<seq<T>>): (s: seq<T>)
  {
    if groups == [] then [] else groups[0] + Flatten(groups[1..])
  }

  lemma {:induction false} FlattenAppend<T>(a: seq<seq<T>>, b: seq<seq<T>>)
    ensures Flatten(a + b) == Flatten(a) + Flatten(b)
  {
    if a == [] {
      assert a + b == b;
    } else {
      assert (a + b)[1..] == a[1..] + b;
      FlattenAppend(a[1..], b);
      assert a[0] + (Flatten(a[1..]) + Flatten(b)) == a[0] + Flatten(a[1..]) + Flatten(b);
    }
  }

  lemma AllFitAppend(u: Unit, a: seq<string>, b: seq<string>, limit: int)
    requires AllFit(u, a, limit) && AllFit(u, b, limit)
    ensures AllFit(u, a + b, limit)
  {
    forall i | 0 <= i < |a + b| ensures Measure(u, (a + b)[i]) <= limit {
      assert (a + b)[i] == if i < |a| then a[i] else b[i - |a|];
    }
  }

  // ---- Lines ---------------------------------------------------------------

  /** Length of the first line, its newline included. */
  function LineEnd(s: string): (n: nat)
    requires s != ""
    ensures 0 < n <= |s|
    ensures '\n' !in s[..n - 1]
    ensures n < |s| ==> s[n - 1] == '\n'
  {
    if s[0] == '\n' || |s| == 1 then 1 else 1 + LineEnd(s[1..])
  }

  /** `text.splitlines(keepends=True)` for newline-terminated lines. */
  function Lines(s: string): (ls: seq<string>)
  {
    if s == "" then [] else [s[..LineEnd(s)]] + Lines(s[LineEnd(s)..])
  }

  predicate IsLine(line: string)
  {
    line != "" && '\n' !in line[..|line| - 1]
  }

  /** What `Lines` produces: only the last line may lack its newline. */
  predicate AreLines(ls: seq<string>)
  {
    && (forall i :: 0 <= i < |ls| ==> IsLine(ls[i]))
    && (forall i :: 0 <= i < |ls| - 1 ==> ls[i][|ls[i]| - 1] == '\n')
  }

  lemma AreLinesCons(first: string, tail: seq<string>)
    requires IsLine(first) && AreLines(tail) && (tail != [] ==> first[|first| - 1] == '\n')
    ensures AreLines([first] + tail)
  {
    var ls := [first] + tail;
    assert forall i :: 0 < i < |ls| ==> ls[i] == tail[i - 1];
  }

  lemma FirstLineIsLine(s: string)
    requires s != ""
    ensures var n := LineEnd(s); IsLine(s[..n]) && (n < |s| ==> s[n - 1] == '\n')
  {
    var n := LineEnd(s);
    assert s[..n][..n - 1] == s[..n - 1];
  }

  lemma {:induction false} LinesOfText(s: string)
    ensures Concat(Lines(s)) == s && AreLines(Lines(s))
    ensures s != "" ==> Lines(s) != []
  {
    hide AreLines, LineEnd, IsLine;
    if s == "" {
      assert AreLines([]) by { NoLines(); }
    } else {
      var n := LineEnd(s);
      LinesOfText(s[n..]);
      FirstLineIsLine(s);
      assert s[..n] + s[n..] == s;
      AreLinesCons(s[..n], Lines(s[n..]));
    }
  }

  lemma NoLines()
    ensures AreLines([])
  {
  }

  lemma {:induction false} FirstLineEnd(line: string, rest: string)
    requires IsLine(line) && (rest == "" || line[|line| - 1] == '\n')
    ensures LineEnd(line + rest) == |line|
  {
    if |line| > 1 {
      assert line[0] == line[..|line| - 1][0];
      assert line[1..][..|line| - 2] == line[..|line| - 1][1..];
      FirstLineEnd(line[1..], rest);
      assert (line + rest)[1..] == line[1..] + rest;
    }
  }

  /** Splitting joined lines gives the lines back. */
  lemma {:induction false} LinesOfConcat(ls: seq<string>)
    requires AreLines(ls)
    ensures Lines(Concat(ls)) == ls
  {
    if ls != [] {
      var rest := Concat(ls[1..]);
      assert |ls| > 1 ==> AreLines(ls[1..]);
      LinesOfConcat(ls[1..]);
      FirstLineEnd(ls[0], rest);
      var s := ls[0] + rest;
      assert s[..|ls[0]|] == ls[0] && s[|ls[0]|..] == rest;
    }
  }

  // ---- Decimal numerals ---------------------------------------------------

  function Digit(d: nat): (c: char)
    requires d < 10
    ensures '0' <= c <= '9'
    ensures c as int - '0' as int == d
  {
    ('0' as int + d) as char
  }

  predicate IsDigit(c: char) { '0' <= c <= '9' }

  function Decimal(n: nat): (s: string)
    ensures s != "" && forall i :: 0 <= i < |s| ==> IsDigit(s[i])
  {
    if n < 10 then [Digit(n)] else Decimal(n / 10) + [Digit(n % 10)]
  }

  function DecimalValue(s: string): (n: nat)
    requires forall i :: 0 <= i < |s| ==> IsDigit(s[i])
  {
    if s == "" then 0
    else
      assert IsDigit(s[|s| - 1]);
      10 * DecimalValue(s[..|s| - 1]) + (s[|s| - 1] as int - '0' as int)
  }

  /** `int(str(n)) == n`. */
  lemma {:induction false} DecimalRoundTrip(n: nat)
    ensures DecimalValue(Decimal(n)) == n
  {
    var s := Decimal(n);
    if n >= 10 {
      DecimalRoundTrip(n / 10);
      assert s[..|s| - 1] == Decimal(n / 10);
    } else {
      assert s[..|s| - 1] == "";
    }
  }

  // ---- White space ---------------------------------------------------------

  /** The characters `str.isspace` accepts. */
  predicate IsSpace(c: char)
  {
    var code := c as int;
    || 0x09 <= code <= 0x0d || 0x1c <= code <= 0x20 || code == 0x85 || code == 0xa0
    || code == 0x1680 || 0x2000 <= code <= 0x200a || code == 0x2028 || code == 0x2029
    || code == 0x202f || code == 0x205f || code == 0x3000
  }

  function StripLeft(s: string): (t: string)
    ensures |t| <= |s| && (t != "" ==> !IsSpace(t[0]))
    ensures t == s[|s| - |t|..]
  {
    if s != "" && IsSpace(s[0]) then StripLeft(s[1..]) else s
  }

  function StripRight(s: string): (t: string)
    ensures |t| <= |s| && t == s[..|t|] && (t != "" ==> !IsSpace(t[|t| - 1]))
  {
    if s != "" && IsSpace(s[|s| - 1]) then StripRight(s[..|s| - 1]) else s
  }

  function Strip(s: string): (t: string)
    ensures |t| <= |s|
    ensures t != "" ==> !IsSpace(t[0]) && !IsSpace(t[|t| - 1])
  {
    var left := StripLeft(s);
    var t := StripRight(left);
    assert t != "" ==> t[0] == left[0];
    t
  }

  /** `not line.strip()`: nothing but white space. */
  predicate IsBlank(line: string)
  {
    forall i :: 0 <= i < |line| ==> IsSpace(line[i])
  }

  lemma {:induction false} StripLeftCuts(s: string)
    ensures IsBlank(s[..|s| - |StripLeft(s)|])
  {
    if s != "" && IsSpace(s[0]) {
      StripLeftCuts(s[1..]);
      var n := |s| - |StripLeft(s)|;
      assert s[..n] == [s[0]] + s[1..][..n - 1];
    }
  }

  lemma {:induction false} StripRightCuts(s: string)
    ensures IsBlank(s[|StripRight(s)|..])
  {
    if s != "" && IsSpace(s[|s| - 1]) {
      var n := |s| - 1;
      StripRightCuts(s[..n]);
      assert s[|StripRight(s)|..] == s[..n][|StripRight(s)|..] + [s[n]];
    }
  }

  lemma WhatIsLeftIsNoSpace(s: string)
    requires StripLeft(s) != ""
    ensures !IsBlank(s)
  {
    assert !IsSpace(s[|s| - |StripLeft(s)|]);
  }

  /** Only white space is cut, at both ends. */
  lemma StripCutsSpaceOnly(s: string)
    ensures exists i, j :: 0 <= i <= j <= |s| && Strip(s) == s[i..j] && IsBlank(s[..i]) && IsBlank(s[j..])
  {
    hide IsSpace, IsBlank;
    var left := StripLeft(s);
    var t := StripRight(left);
    StripLeftCuts(s);
    StripRightCuts(left);
    var i := |s| - |left|;
    var j := i + |t|;
    assert s[i..j] == t;
    assert s[j..] == left[|t|..];
  }

  lemma StripEmptiesBlankOnly(s: string)
    ensures IsBlank(s) <==> Strip(s) == ""
  {
    if Strip(s) == "" {
      StripLeftCuts(s);
      StripRightCuts(StripLeft(s));
      BlankParts(s, |s| - |StripLeft(s)|);
    } else {
      WhatIsLeftIsNoSpace(s);
    }
  }

  lemma BlankParts(s: string, i: nat)
    requires i <= |s| && IsBlank(s[..i]) && IsBlank(s[i..])
    ensures IsBlank(s)
  {
    hide IsSpace;
    forall k | 0 <= k < |s| ensures IsSpace(s[k]) {
      assert s[k] == if k < i then s[..i][k] else s[i..][k - i];
    }
  }
}
