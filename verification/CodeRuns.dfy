/**
 What the spans of `_detect_code_spans` are, said of the lines themselves: which
 lines are fenced, and on what evidence.
 */
module CodeRuns {
  import opened Wrappers
  import opened TextUnits
  import opened FenceRules
  import opened CodeFencing

  predicate IsCode(info: Info)
  {
    !info.blank && info.role == CodeLine
  }

  /** Lines `i` to `j` belong together: no prose, and never more blank lines in a row than a run may hold. */
  ghost predicate AreLinked(s: seq<Info>, i: nat, j: nat)
  {
    && i <= j < |s| && !s[i].blank && !s[j].blank
    && (forall q :: i <= q <= j ==> s[q].role != Prose)
    && (forall q: nat :: i <= q && q + MAX_BLANKS <= j ==> !BlanksAt(s, q))
  }

  /** One blank line too many, from line `q` on. */
  ghost predicate BlanksAt(s: seq<Info>, q: nat)
  {
    q + MAX_BLANKS < |s| && forall d :: q <= d <= q + MAX_BLANKS ==> s[d].blank
  }

  // ---- What a scan counts ------------------------------------------------------------------

  ghost predicate HasCode(s: seq<Info>, n: nat)
    requires n <= |s|
  {
    exists p :: 0 <= p < n && IsCode(s[p])
  }

  ghost predicate HasTwo(s: seq<Info>, n: nat)
    requires n <= |s|
  {
    exists p, q :: 0 <= p < q < n && IsCode(s[p]) && IsCode(s[q])
  }

  ghost predicate HasDefinition(s: seq<Info>, n: nat)
    requires n <= |s|
  {
    exists p :: 0 <= p < n && IsCode(s[p]) && s[p].definition
  }

  /** An indented line that is not code by itself. */
  ghost predicate HasBody(s: seq<Info>, n: nat)
    requires n <= |s|
  {
    exists p :: 0 <= p < n && !s[p].blank && s[p].role != CodeLine && s[p].indented
  }

  lemma CountsStep(s: seq<Info>, n: nat)
    requires 0 < n <= |s|
    ensures HasCode(s, n) <==> IsCode(s[0]) || HasCode(s[1..], n - 1)
    ensures HasTwo(s, n) <==> HasTwo(s[1..], n - 1) || (IsCode(s[0]) && HasCode(s[1..], n - 1))
    ensures HasDefinition(s, n) <==> (IsCode(s[0]) && s[0].definition) || HasDefinition(s[1..], n - 1)
    ensures HasBody(s, n) <==>
            (!s[0].blank && s[0].role != CodeLine && s[0].indented) || HasBody(s[1..], n - 1)
  {
    hide IsCode;
    assert forall p :: 0 < p < n ==> s[p] == s[1..][p - 1];
    assert forall p :: 0 <= p < n - 1 ==> s[1..][p] == s[p + 1];
  }

  /** The counters of a run say what its lines are. */
  lemma {:induction false} ScanCounts(s: seq<Info>, blanks: nat)
    ensures var r := Scan(s, blanks);
            && (r.strong >= 1 <==> HasCode(s, r.content))
            && (r.strong >= 2 <==> HasTwo(s, r.content))
            && (r.definition <==> HasDefinition(s, r.content))
            && (r.body >= 1 <==> HasBody(s, r.content))
  {
    hide HasCode, HasTwo, HasDefinition, HasBody;
    var r := Scan(s, blanks);
    if s == [] || s[0].role == Prose || (s[0].blank && blanks + 1 > MAX_BLANKS) {
      NothingIsCounted(s);
    } else {
      var later := if s[0].blank then blanks + 1 else 0;
      ScanCounts(s[1..], later);
      if r.content > 0 {
        CountsStep(s, r.content);
      } else {
        NothingIsCounted(s);
        NothingIsCounted(s[1..]);
      }
    }
  }

  lemma NothingIsCounted(s: seq<Info>)
    ensures !HasCode(s, 0) && !HasTwo(s, 0) && !HasDefinition(s, 0) && !HasBody(s, 0)
  {
  }

  // ---- How far a scan gets -----------------------------------------------------------------

  /** The first line that is not blank. */
  function FirstLine(s: seq<Info>): (n: nat)
    ensures n <= |s| && (n < |s| ==> !s[n].blank) && forall d :: 0 <= d < n ==> s[d].blank
  {
    if s == [] || !s[0].blank then 0 else 1 + FirstLine(s[1..])
  }

  /** A run goes on to every line that is linked to its first one. */
  lemma {:induction false} ScanReaches(s: seq<Info>, blanks: nat, first: nat, j: nat)
    requires first <= j && AreLinked(s, first, j) && blanks + first <= MAX_BLANKS
    requires forall d :: 0 <= d < first ==> s[d].blank && s[d].role != Prose
    ensures Scan(s, blanks).content > j
    decreases |s|
  {
    hide BlanksAt;
    if j > 0 {
      var rest := s[1..];
      LinkedLater(s, first, j);
      if first > 0 {
        ScanReaches(rest, blanks + 1, first - 1, j - 1);
      } else {
        var next := FirstLine(rest);
        NextIsNear(s, j);
        ScanReaches(rest, 0, next, j - 1);
      }
    }
  }

  /** What is linked stays so without the lines before. */
  lemma LinkedLater(s: seq<Info>, first: nat, j: nat)
    requires AreLinked(s, first, j) && j > 0
    ensures first > 0 ==> AreLinked(s[1..], first - 1, j - 1)
    ensures first == 0 ==> FirstLine(s[1..]) < j && AreLinked(s[1..], FirstLine(s[1..]), j - 1)
  {
    var rest := s[1..];
    var next := if first > 0 then first - 1 else FirstLine(rest);
    assert rest[j - 1] == s[j];
    forall q: nat | next <= q && q + MAX_BLANKS <= j - 1 ensures !BlanksAt(rest, q) {
      if BlanksAt(rest, q) {
        BlanksEarlier(s, q);
      }
    }
    forall q | next <= q <= j - 1 ensures rest[q].role != Prose {
      assert rest[q] == s[q + 1];
    }
  }

  lemma BlanksEarlier(s: seq<Info>, q: nat)
    requires s != [] && BlanksAt(s[1..], q)
    ensures BlanksAt(s, q + 1)
  {
    forall d | q + 1 <= d <= q + 1 + MAX_BLANKS ensures s[d].blank {
      assert s[d] == s[1..][d - 1];
    }
  }

  lemma NextIsNear(s: seq<Info>, j: nat)
    requires AreLinked(s, 0, j) && j > 0
    ensures FirstLine(s[1..]) <= MAX_BLANKS && FirstLine(s[1..]) < j
    ensures forall d :: 0 <= d < FirstLine(s[1..]) ==> s[1..][d].blank && s[1..][d].role != Prose
  {
    var rest := s[1..];
    var next := FirstLine(rest);
    assert rest[j - 1] == s[j];
    forall d | 0 <= d < next ensures rest[d].role != Prose {
      assert rest[d] == s[d + 1];
    }
    if next > MAX_BLANKS {
      forall d | 1 <= d <= 1 + MAX_BLANKS ensures s[d].blank {
        assert s[d] == rest[d - 1];
      }
      assert BlanksAt(s, 1);
    }
  }

  /** Behind a line of a run, the run is the run of that line. */
  lemma {:induction false} ScanThrough(s: seq<Info>, blanks: nat, i: nat)
    requires i < Scan(s, blanks).content && !s[i].blank
    ensures Scan(s, blanks).content == i + Scan(s[i..], 0).content
    decreases i
  {
    if i == 0 {
      assert s[0..] == s;
    } else {
      ScanThrough(s[1..], if s[0].blank then blanks + 1 else 0, i - 1);
      assert s[1..][i - 1..] == s[i..];
    }
  }

  // ---- The spans ------------------------------------------------------------------------------

  /** Two code lines that belong together start a span. */
  lemma LinkedCodeStarts(s: seq<Info>, j: nat)
    requires 0 < j && AreLinked(s, 0, j) && IsCode(s[0]) && IsCode(s[j])
    ensures StartsSpan(s) && Scan(s, 0).content > j
  {
    ScanReaches(s, 0, 0, j);
    ScanCounts(s, 0);
    assert HasTwo(s, Scan(s, 0).content);
  }

  lemma LinkedFrom(s: seq<Info>, i: nat, j: nat)
    requires AreLinked(s, i, j)
    ensures AreLinked(s[i..], 0, j - i)
  {
    var rest := s[i..];
    assert rest[j - i] == s[j] && rest[0] == s[i];
    forall q: nat | q + MAX_BLANKS <= j - i ensures !BlanksAt(rest, q) {
      if BlanksAt(rest, q) {
        BlanksBefore(s, i, q);
      }
    }
    forall q | 0 <= q <= j - i ensures rest[q].role != Prose {
      assert rest[q] == s[i + q];
    }
  }

  lemma BlanksBefore(s: seq<Info>, i: nat, q: nat)
    requires i <= |s| && BlanksAt(s[i..], q)
    ensures BlanksAt(s, i + q)
  {
    forall d | i + q <= d <= i + q + MAX_BLANKS ensures s[d].blank {
      assert s[d] == s[i..][d - i];
    }
  }

  /** Two code lines that belong together always end up in one span. */
  lemma {:induction false} LinkedCodeIsFenced(s: seq<Info>, index: nat, i: nat, j: nat)
    requires index <= i < j && AreLinked(s, i, j) && IsCode(s[i]) && IsCode(s[j])
    ensures exists k :: k in Spans(s, index) && k <= i && j < Spans(s, index)[k]
    decreases |s| - index
  {
    hide AreLinked, StartsSpan, Scan, Spans, IsCode;
    assert j < |s| by { LinkedEnds(s, i, j); }
    LinkedFrom(s, i, j);
    assert s[i..][0] == s[i] && s[i..][j - i] == s[j];
    LinkedCodeStarts(s[i..], j - i);
    SpansStep(s, index);
    if StartsSpan(s[index..]) {
      var n := Scan(s[index..], 0).content;
      if i < index + n {
        ScanThrough(s[index..], 0, i - index);
        assert s[index..][i - index..] == s[i..];
        assert index in Spans(s, index);
      } else {
        SpanIsNotEmpty(s[index..]);
        LinkedCodeIsFenced(s, index + n, i, j);
        var k :| k in Spans(s, index + n) && k <= i && j < Spans(s, index + n)[k];
        assert k in Spans(s, index) && Spans(s, index)[k] == Spans(s, index + n)[k];
      }
    } else {
      LinkedCodeIsFenced(s, index + 1, i, j);
    }
  }

  lemma LinkedEnds(s: seq<Info>, i: nat, j: nat)
    requires AreLinked(s, i, j)
    ensures i <= j < |s| && !s[i].blank
  {
  }

  lemma SpanIsNotEmpty(s: seq<Info>)
    requires StartsSpan(s)
    ensures Scan(s, 0).content > 1
  {
    hide Scan;
  }

  lemma {:induction false} SpansAreRuns(s: seq<Info>, index: nat, k: nat)
    requires index <= |s| && k in Spans(s, index)
    ensures k < |s| && StartsSpan(s[k..]) && Spans(s, index)[k] == k + Scan(s[k..], 0).content
    decreases |s| - index
  {
    hide StartsSpan, Scan;
    if index < |s| {
      SpansStep(s, index);
      if StartsSpan(s[index..]) {
        SpanIsNotEmpty(s[index..]);
        if k != index {
          SpansAreRuns(s, index + Scan(s[index..], 0).content, k);
        }
      } else {
        SpansAreRuns(s, index + 1, k);
      }
    }
  }

  /**
   The evidence for every span: it starts with a code line, holds no prose, ends
   in a line that is not blank, and holds two code lines, or one that defines or
   imports something together with an indented line.
   */
  lemma SpansHaveEvidence(s: seq<Info>, k: nat)
    requires k in Spans(s, 0)
    ensures var end := Spans(s, 0)[k];
            && k + 1 < end <= |s| && s[k].role == CodeLine && !s[end - 1].blank
            && (forall q :: k <= q < end ==> s[q].role != Prose)
            && (HasTwo(s[k..], end - k) || (HasDefinition(s[k..], end - k) && HasBody(s[k..], end - k)))
  {
    hide Spans, HasCode, HasTwo, HasDefinition, HasBody;
    SpansAreRuns(s, 0, k);
    var run := s[k..];
    ScanCounts(run, 0);
    var n := Scan(run, 0).content;
    assert s[k + n - 1] == run[n - 1] && s[k] == run[0];
    forall q | k <= q < k + n ensures s[q].role != Prose {
      assert s[q] == run[q - k];
    }
  }

  /** In the fenced text, no two code lines that belong together are left outside of the fences. */
  lemma NoLinkedCodeIsLeft(v: Detector, text: string, i: nat, j: nat)
    requires i < j
    ensures var s := Infos(v, PlainLines(FenceText(v, text)), None);
            !(AreLinked(s, i, j) && IsCode(s[i]) && IsCode(s[j]))
  {
    hide Infos, PlainLines, FenceText, Spans, IsCode;
    var s := Infos(v, PlainLines(FenceText(v, text)), None);
    FencedTextIsClean(v, text);
    if AreLinked(s, i, j) && IsCode(s[i]) && IsCode(s[j]) {
      LinkedCodeIsFenced(s, 0, i, j);
    }
  }
}
