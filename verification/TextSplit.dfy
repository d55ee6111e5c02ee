/**
 Splitting plain text without losing a character: `_split_text_preserving`
 and `_cut_inside_atomic_span`.
 */
module TextSplit {
  import opened Wrappers
  import opened TextUnits

  /** Every way pagination can refuse a text or its limits. */
  datatype SplitError =
    | CharTooLarge | FenceTooLarge | TableTooLarge | LabelTooLarge
    | TooManyPages | TooManyBytes | PagesTooManyBytes | Unstable | BadArgument

  type Pages = Result<seq<string>, SplitError>

  datatype Span = Span(start: nat, end: nat)

  /**
   What the regular expressions report.  `spans` lists the matches of the
   atomic patterns, pattern after pattern; `structural` says whether a line,
   cut at the hard limit, starts a heading, list item, quote or table row.
   */
  datatype Matches = Matches(spans: string -> seq<Span>, structural: string -> bool)

  /** Matches are not empty and lie in the text. */
  ghost predicate ValidSpans(m: Matches)
  {
    forall text: string, i: nat :: i < |m.spans(text)| ==>
      m.spans(text)[i].start < m.spans(text)[i].end <= |text|
  }

  type Inline = m: Matches | ValidSpans(m) witness Matches(_ => [], _ => false)

  // ---- The hard cut ---------------------------------------------------------

  /** Length of the longest prefix whose characters still fit. */
  function HardCut(u: Unit, s: string, limit: int): (n: nat)
    ensures n <= |s|
  {
    if s == "" || CharSize(u, s[0]) > limit then 0
    else 1 + HardCut(u, s[1..], limit - CharSize(u, s[0]))
  }

  lemma {:induction false} HardCutIsLargest(u: Unit, s: string, limit: int)
    ensures var k := HardCut(u, s, limit);
            && (0 <= limit ==> Measure(u, s[..k]) <= limit)
            && forall j :: k < j <= |s| ==> Measure(u, s[..j]) > limit
  {
    var k := HardCut(u, s, limit);
    forall j | k < j <= |s| ensures Measure(u, s[..j]) > limit {
      assert s[..j][1..] == s[1..][..j - 1];
      if k > 0 {
        HardCutIsLargest(u, s[1..], limit - CharSize(u, s[0]));
      }
    }
    if k > 0 {
      HardCutIsLargest(u, s[1..], limit - CharSize(u, s[0]));
      assert s[..k][1..] == s[1..][..k - 1];
    }
  }

  lemma {:induction false} HardCutStep(u: Unit, s: string, limit: int, k: nat)
    requires k <= HardCut(u, s, limit)
    ensures HardCut(u, s, limit) == k + HardCut(u, s[k..], limit - Measure(u, s[..k]))
  {
    if k == 0 {
      assert s[0..] == s && s[..0] == "";
    } else {
      HardCutStep(u, s[1..], limit - CharSize(u, s[0]), k - 1);
      assert s[1..][k - 1..] == s[k..];
      assert s[..k][1..] == s[1..][..k - 1];
    }
  }

  method FindHardCut(u: Unit, s: string, limit: int) returns (k: nat)
    ensures k == HardCut(u, s, limit)
  {
    var used := 0;
    k := 0;
    while k < |s|
      invariant k <= |s| && k <= HardCut(u, s, limit)
      invariant used == Measure(u, s[..k])
    {
      var size := CharSize(u, s[k]);
      HardCutStep(u, s, limit, k);
      if used + size > limit {
        return;
      }
      MeasureSlice(u, s, k, k + 1);
      assert s[k..k + 1] == [s[k]];
      MeasureOne(u, s[k]);
      used := used + size;
      k := k + 1;
    }
  }

  // ---- Moving a cut out of an atomic span ------------------------------------

  function CutInside(spans: seq<Span>, u: Unit, text: string, cut: nat, limit: int): (r: nat)
    requires forall s :: s in spans ==> s.start < s.end <= |text|
    ensures r == cut || exists s :: s in spans && s.start < cut < s.end
                                    && Measure(u, text[s.start..s.end]) <= limit
                                    && r == if s.start > 0 then s.start else s.end
  {
    if spans == [] then cut
    else
      var s := spans[0];
      if s.start < cut < s.end && Measure(u, text[s.start..s.end]) <= limit then
        if s.start > 0 then s.start else s.end
      else CutInside(spans[1..], u, text, cut, limit)
  }

  function Moved(inl: Inline, u: Unit, text: string, cut: nat, limit: int): (r: nat)
  {
    CutInside(inl.spans(text), u, text, cut, limit)
  }

  /**
   At the hard cut the "move behind the span" result cannot arise: a span that
   starts the text and fits would be a longer prefix that fits.
   */
  lemma HardCutOnlyMovesBack(inl: Inline, u: Unit, text: string, limit: int)
    requires Measure(u, text) > limit && HardCut(u, text, limit) > 0
    ensures 0 < Moved(inl, u, text, HardCut(u, text, limit), limit) <= HardCut(u, text, limit)
  {
    HardCutIsLargest(u, text, limit);
    var hard := HardCut(u, text, limit);
    var r := Moved(inl, u, text, hard, limit);
    if r != hard {
      var s :| s in inl.spans(text) && s.start < hard < s.end
               && Measure(u, text[s.start..s.end]) <= limit
               && r == if s.start > 0 then s.start else s.end;
      assert s.start > 0;
    }
  }

  // ---- Preferred boundaries ---------------------------------------------------

  predicate IsStructuralCut(inl: Inline, u: Unit, text: string, limit: int, hard: nat, p: nat)
    requires p < hard <= |text|
  {
    p > 0 && text[p - 1] == '\n' && inl.structural(text[p..hard]) && Moved(inl, u, text, p, limit) == p
  }

  /** Structural line starts before `p` that no atomic span covers, in order. */
  function StructuralCuts(inl: Inline, u: Unit, text: string, limit: int, hard: nat, p: nat): seq<nat>
    requires p <= hard <= |text|
  {
    if p == 0 then []
    else
      StructuralCuts(inl, u, text, limit, hard, p - 1)
      + if IsStructuralCut(inl, u, text, limit, hard, p - 1) then [p - 1] else []
  }

  const MARKERS: seq<string> := ["\n\n", "\n", "。", "！", "？", ". ", " "]

  /** `text.rfind(marker, 0, hard) + len(marker)`, or 0 when there is none. */
  function AfterLast(text: string, marker: string, hard: nat): (r: nat)
    requires hard <= |text| && marker != ""
    ensures r <= hard
  {
    if hard < |marker| then 0
    else if text[hard - |marker|..hard] == marker then hard
    else AfterLast(text, marker, hard - 1)
  }

  function MarkerCuts(inl: Inline, u: Unit, text: string, limit: int, hard: nat, k: nat): seq<nat>
    requires hard <= |text| && k <= |MARKERS|
  {
    if k == 0 then []
    else
      var c := AfterLast(text, MARKERS[k - 1], hard);
      MarkerCuts(inl, u, text, limit, hard, k - 1)
      + if c > 0 && Moved(inl, u, text, c, limit) == c then [c] else []
  }

  lemma {:induction false} StructuralCutsInRange(inl: Inline, u: Unit, text: string, limit: int, hard: nat, p: nat)
    requires p <= hard <= |text|
    ensures forall c :: c in StructuralCuts(inl, u, text, limit, hard, p) ==> 0 < c < p
  {
    hide Moved;
    if p > 0 {
      StructuralCutsInRange(inl, u, text, limit, hard, p - 1);
    }
  }

  lemma {:induction false} MarkerCutsInRange(inl: Inline, u: Unit, text: string, limit: int, hard: nat, k: nat)
    requires hard <= |text| && k <= |MARKERS|
    ensures forall c :: c in MarkerCuts(inl, u, text, limit, hard, k) ==> 0 < c <= hard
  {
    hide Moved, AfterLast;
    if k > 0 {
      MarkerCutsInRange(inl, u, text, limit, hard, k - 1);
    }
  }

  function MaxOf(s: seq<nat>): (m: nat)
    requires s != []
    ensures m in s && forall i :: 0 <= i < |s| ==> s[i] <= m
  {
    if |s| == 1 then s[0]
    else
      var rest := MaxOf(s[..|s| - 1]);
      if rest < s[|s| - 1] then s[|s| - 1] else rest
  }

  /** Where a text that does not fit is cut. */
  function ChooseCut(inl: Inline, u: Unit, text: string, limit: int): (cut: nat)
  {
    var hard := HardCut(u, text, limit);
    var moved := Moved(inl, u, text, hard, limit);
    var structural := StructuralCuts(inl, u, text, limit, hard, hard);
    var markers := MarkerCuts(inl, u, text, limit, hard, |MARKERS|);
    if moved != hard then moved
    else if structural != [] then MaxOf(structural)
    else if markers != [] then MaxOf(markers)
    else hard
  }

  lemma CutInRange(inl: Inline, u: Unit, text: string, limit: int)
    requires Measure(u, text) > limit && HardCut(u, text, limit) > 0
    ensures 0 < ChooseCut(inl, u, text, limit) <= HardCut(u, text, limit)
    ensures Measure(u, text[..ChooseCut(inl, u, text, limit)]) <= limit
  {
    hide Measure, Moved, StructuralCuts, MarkerCuts;
    var hard := HardCut(u, text, limit);
    HardCutOnlyMovesBack(inl, u, text, limit);
    HardCutIsLargest(u, text, limit);
    StructuralCutsInRange(inl, u, text, limit, hard, hard);
    MarkerCutsInRange(inl, u, text, limit, hard, |MARKERS|);
    MeasureSlice(u, text, ChooseCut(inl, u, text, limit), hard);
  }

  // ---- Which boundary is preferred ---------------------------------------------

  predicate IsStructuralAt(inl: Inline, u: Unit, text: string, limit: int, hard: nat, p: nat)
  {
    p < hard <= |text| && IsStructuralCut(inl, u, text, limit, hard, p)
  }

  predicate EndsAt(text: string, marker: string, c: nat)
  {
    |marker| <= c <= |text| && text[c - |marker|..c] == marker
  }

  /** The last occurrence of the marker before the hard cut ends here. */
  ghost predicate EndsAtLast(text: string, marker: string, hard: nat, c: nat)
  {
    c <= hard && EndsAt(text, marker, c) && forall d :: c < d <= hard ==> !EndsAt(text, marker, d)
  }

  /** A cut behind the last occurrence of a marker, outside of every span. */
  ghost predicate IsMarkerAt(inl: Inline, u: Unit, text: string, limit: int, hard: nat, c: nat)
  {
    && hard <= |text| && Moved(inl, u, text, c, limit) == c
    && exists k :: 0 <= k < |MARKERS| && EndsAtLast(text, MARKERS[k], hard, c)
  }

  lemma AfterLastStep(text: string, marker: string, hard: nat)
    requires hard <= |text| && marker != ""
    ensures AfterLast(text, marker, hard)
         == if hard < |marker| then 0 else if EndsAt(text, marker, hard) then hard else AfterLast(text, marker, hard - 1)
    ensures EndsAt(text, marker, hard) ==> |marker| <= hard
  {
  }

  lemma {:induction false} AfterLastIff(text: string, marker: string, hard: nat, c: nat)
    requires hard <= |text| && marker != "" && c > 0
    ensures AfterLast(text, marker, hard) == c <==> EndsAtLast(text, marker, hard, c)
  {
    hide AfterLast, EndsAt;
    AfterLastStep(text, marker, hard);
    if hard >= |marker| && !EndsAt(text, marker, hard) {
      AfterLastIff(text, marker, hard - 1, c);
    } else if c <= hard {
      AfterLastStep(text, marker, c);
    }
  }

  lemma {:induction false} StructuralCutsAre(inl: Inline, u: Unit, text: string, limit: int, hard: nat, p: nat, c: nat)
    requires p <= hard <= |text|
    ensures c in StructuralCuts(inl, u, text, limit, hard, p) <==> c < p && IsStructuralCut(inl, u, text, limit, hard, c)
  {
    hide IsStructuralCut;
    if p > 0 {
      StructuralCutsAre(inl, u, text, limit, hard, p - 1, c);
    }
  }

  lemma {:induction false} MarkerCutsAre(inl: Inline, u: Unit, text: string, limit: int, hard: nat, k: nat, c: nat)
    requires hard <= |text| && k <= |MARKERS|
    ensures c in MarkerCuts(inl, u, text, limit, hard, k) <==>
            c > 0 && Moved(inl, u, text, c, limit) == c && exists i :: 0 <= i < k && EndsAtLast(text, MARKERS[i], hard, c)
  {
    hide Moved, AfterLast, EndsAtLast;
    if k > 0 {
      MarkerCutsAre(inl, u, text, limit, hard, k - 1, c);
      MarkerIsText(k - 1);
      if c > 0 {
        AfterLastIff(text, MARKERS[k - 1], hard, c);
      }
    }
  }

  lemma MarkerIsText(k: nat)
    requires k < |MARKERS|
    ensures MARKERS[k] != ""
  {
  }

  /**
   The preference among boundaries: a cut inside a span that fits is moved out of
   it; else the last structural line start is taken; else the last place behind a
   marker; else the hard cut.
   */
  lemma CutIsPreferred(inl: Inline, u: Unit, text: string, limit: int)
    ensures var hard := HardCut(u, text, limit);
            var cut := ChooseCut(inl, u, text, limit);
            if Moved(inl, u, text, hard, limit) != hard then cut == Moved(inl, u, text, hard, limit)
            else if exists p: nat :: IsStructuralAt(inl, u, text, limit, hard, p) then
              && IsStructuralAt(inl, u, text, limit, hard, cut)
              && forall p: nat :: IsStructuralAt(inl, u, text, limit, hard, p) ==> p <= cut
            else if exists c: nat :: c > 0 && IsMarkerAt(inl, u, text, limit, hard, c) then
              && IsMarkerAt(inl, u, text, limit, hard, cut)
              && forall c: nat :: IsMarkerAt(inl, u, text, limit, hard, c) ==> c <= cut
            else cut == hard
  {
    hide Moved, StructuralCuts, MarkerCuts, IsStructuralCut, EndsAtLast;
    var hard := HardCut(u, text, limit);
    forall p: nat ensures IsStructuralAt(inl, u, text, limit, hard, p) <==> p in StructuralCuts(inl, u, text, limit, hard, hard) {
      StructuralCutsAre(inl, u, text, limit, hard, hard, p);
    }
    forall c: nat ensures c > 0 && IsMarkerAt(inl, u, text, limit, hard, c)
                     <==> c in MarkerCuts(inl, u, text, limit, hard, |MARKERS|) {
      MarkerCutsAre(inl, u, text, limit, hard, |MARKERS|, c);
    }
  }

  method CollectStructural(inl: Inline, u: Unit, text: string, limit: int, hard: nat) returns (boundaries: seq<nat>)
    requires hard <= |text|
    ensures boundaries == StructuralCuts(inl, u, text, limit, hard, hard)
  {
    hide IsStructuralCut;
    boundaries := [];
    for p := 0 to hard
      invariant boundaries == StructuralCuts(inl, u, text, limit, hard, p)
    {
      if IsStructuralCut(inl, u, text, limit, hard, p) {
        boundaries := boundaries + [p];
      }
    }
  }

  method CollectMarkers(inl: Inline, u: Unit, text: string, limit: int, hard: nat) returns (boundaries: seq<nat>)
    requires hard <= |text|
    ensures boundaries == MarkerCuts(inl, u, text, limit, hard, |MARKERS|)
  {
    hide Moved, AfterLast;
    boundaries := [];
    for k := 0 to |MARKERS|
      invariant boundaries == MarkerCuts(inl, u, text, limit, hard, k)
    {
      var candidate := AfterLast(text, MARKERS[k], hard);
      if candidate > 0 && Moved(inl, u, text, candidate, limit) == candidate {
        boundaries := boundaries + [candidate];
      }
    }
  }

  method FindCut(inl: Inline, u: Unit, text: string, limit: int, hard: nat) returns (cut: nat)
    requires Measure(u, text) > limit
    requires hard == HardCut(u, text, limit) && hard > 0
    ensures cut == ChooseCut(inl, u, text, limit)
  {
    hide Measure, HardCut, Moved, StructuralCuts, MarkerCuts, MaxOf;
    assert hard <= |text| by { HardCutIsLargest(u, text, limit); }
    cut := Moved(inl, u, text, hard, limit);
    if cut == hard {
      var boundaries := CollectStructural(inl, u, text, limit, hard);
      if boundaries == [] {
        boundaries := CollectMarkers(inl, u, text, limit, hard);
      }
      if boundaries != [] {
        cut := MaxOf(boundaries);
      }
    }
    CutInRange(inl, u, text, limit);
    if cut <= 0 {
      assert false;  // the source's guard for a cut at 0 never fires
    }
  }

  // ---- The splitter -------------------------------------------------------------

  function SplitFrom(inl: Inline, u: Unit, text: string, limit: int): (r: Pages)
    decreases |text|
  {
    if text == "" then Ok([])
    else if Measure(u, text) <= limit then Ok([text])
    else if HardCut(u, text, limit) == 0 then Err(CharTooLarge)
    else
      CutInRange(inl, u, text, limit);
      var cut := ChooseCut(inl, u, text, limit);
      match SplitFrom(inl, u, text[cut..], limit)
      case Err(e) => Err(e)
      case Ok(rest) => Ok([text[..cut]] + rest)
  }

  function Split(inl: Inline, u: Unit, text: string, limit: int): (r: Pages)
  {
    if text == "" then Ok([""]) else SplitFrom(inl, u, text, limit)
  }

  /** Puts already emitted pages in front of the pages still to come. */
  function Prepend(done: seq<string>, r: Pages): Pages
  {
    match r
    case Ok(rest) => Ok(done + rest)
    case Err(e) => Err(e)
  }

  /** The pages of one piece, then those of the pieces behind it; the first error wins. */
  function Then(first: Pages, later: Pages): Pages
  {
    match first
    case Ok(pages) => Prepend(pages, later)
    case Err(e) => Err(e)
  }

  lemma PrependNothing(r: Pages)
    ensures Prepend([], r) == r
  {
    if r.Ok? {
      assert [] + r.value == r.value;
    }
  }

  method SplitTextPreserving(inl: Inline, u: Unit, text: string, limit: int) returns (r: Pages)
    ensures r == Split(inl, u, text, limit)
  {
    hide Measure, HardCut, ChooseCut;
    if text == "" {
      return Ok([""]);
    }
    var chunks: seq<string> := [];
    var remaining := text;
    PrependNothing(SplitFrom(inl, u, text, limit));
    while remaining != ""
      invariant Split(inl, u, text, limit) == Prepend(chunks, SplitFrom(inl, u, remaining, limit))
      decreases |remaining|
    {
      if Measure(u, remaining) <= limit {
        return Ok(chunks + [remaining]);
      }
      var hard := FindHardCut(u, remaining, limit);
      if hard == 0 {
        return Err(CharTooLarge);
      }
      var cut := FindCut(inl, u, remaining, limit, hard);
      CutInRange(inl, u, remaining, limit);
      ghost var rest := SplitFrom(inl, u, remaining[cut..], limit);
      if rest.Ok? {
        assert chunks + ([remaining[..cut]] + rest.value) == chunks + [remaining[..cut]] + rest.value;
      }
      chunks := chunks + [remaining[..cut]];
      remaining := remaining[cut..];
    }
    assert chunks + [] == chunks;
    return Ok(chunks);
  }

  // ---- What the splitter promises ------------------------------------------------

  predicate EveryCharFits(u: Unit, text: string, limit: int)
  {
    forall i :: 0 <= i < |text| ==> CharSize(u, text[i]) <= limit
  }

  lemma {:induction false} FittingTextHasFittingChars(u: Unit, text: string, limit: int)
    requires Measure(u, text) <= limit
    ensures EveryCharFits(u, text, limit)
  {
    forall i | 0 <= i < |text| ensures CharSize(u, text[i]) <= limit {
      MeasureSlice(u, text, i, i + 1);
      assert text[i..i + 1] == [text[i]];
      MeasureOne(u, text[i]);
    }
  }

  /** Pages that carry exactly `text`, none too large and none empty. */
  predicate Carries(u: Unit, pages: seq<string>, text: string, limit: int)
  {
    Concat(pages) == text && AllFit(u, pages, limit) && (forall p :: p in pages ==> p != "")
  }

  lemma CarriesCons(u: Unit, head: string, tail: seq<string>, rest: string, limit: int)
    requires head != "" && Measure(u, head) <= limit && Carries(u, tail, rest, limit)
    ensures Carries(u, [head] + tail, head + rest, limit)
  {
    var pages := [head] + tail;
    assert pages[1..] == tail;
    forall i | 0 <= i < |pages| ensures Measure(u, pages[i]) <= limit {
      assert i > 0 ==> pages[i] == tail[i - 1];
    }
  }

  lemma {:induction false} SplitFromSound(inl: Inline, u: Unit, text: string, limit: int)
    ensures var r := SplitFrom(inl, u, text, limit);
            && (r.Ok? <==> EveryCharFits(u, text, limit))
            && (r.Ok? ==> Carries(u, r.value, text, limit))
            && (r.Err? ==> r.error == CharTooLarge)
    decreases |text|
  {
    hide ChooseCut;
    if text == "" {
    } else if Measure(u, text) <= limit {
      FittingTextHasFittingChars(u, text, limit);
      CarriesCons(u, text, [], "", limit);
      assert text + "" == text && [text] + [] == [text];
    } else if HardCut(u, text, limit) == 0 {
      assert CharSize(u, text[0]) > limit;
    } else {
      CutInRange(inl, u, text, limit);
      var cut := ChooseCut(inl, u, text, limit);
      SplitFromSound(inl, u, text[cut..], limit);
      FittingTextHasFittingChars(u, text[..cut], limit);
      CharsOfParts(u, text, limit, cut);
      var rest := SplitFrom(inl, u, text[cut..], limit);
      if rest.Ok? {
        CarriesCons(u, text[..cut], rest.value, text[cut..], limit);
        assert text == text[..cut] + text[cut..];
      }
    }
  }

  lemma CharsOfParts(u: Unit, text: string, limit: int, cut: nat)
    requires cut <= |text|
    ensures EveryCharFits(u, text, limit) <==>
            EveryCharFits(u, text[..cut], limit) && EveryCharFits(u, text[cut..], limit)
  {
    if EveryCharFits(u, text[..cut], limit) && EveryCharFits(u, text[cut..], limit) {
      forall i | 0 <= i < |text| ensures CharSize(u, text[i]) <= limit {
        assert text[i] == if i < cut then text[..cut][i] else text[cut..][i - cut];
      }
    }
    if EveryCharFits(u, text, limit) {
      forall i | 0 <= i < |text[cut..]| ensures CharSize(u, text[cut..][i]) <= limit {
        assert text[cut..][i] == text[i + cut];
      }
    }
  }

  /**
   Lossless and bounded: the chunks concatenate to the text, each fits, and
   splitting fails exactly when some single character does not fit.
   */
  lemma SplitIsLosslessAndBounded(inl: Inline, u: Unit, text: string, limit: int)
    ensures var r := Split(inl, u, text, limit);
            && (r.Ok? <==> EveryCharFits(u, text, limit))
            && (r.Ok? ==> r.value != [] && Concat(r.value) == text)
            && (r.Ok? && 0 <= limit ==> AllFit(u, r.value, limit))
            && (r.Ok? && text != "" ==> Carries(u, r.value, text, limit))
            && (r.Err? ==> r.error == CharTooLarge)
  {
    if text != "" {
      SplitFromSound(inl, u, text, limit);
    } else {
      assert [""][1..] == [];
    }
  }

  // ---- Which cuts leave inline spans whole ------------------------------------------

  ghost predicate BreaksSpan(inl: Inline, u: Unit, text: string, limit: int, cut: nat)
  {
    exists s :: s in inl.spans(text) && s.start < cut < s.end <= |text|
                && Measure(u, text[s.start..s.end]) <= limit
  }

  lemma {:induction false} CutInsideFindsSpan(spans: seq<Span>, u: Unit, text: string, cut: nat, limit: int)
    requires forall s :: s in spans ==> s.start < s.end <= |text|
    ensures CutInside(spans, u, text, cut, limit) != cut <==>
            exists s :: s in spans && s.start < cut < s.end && Measure(u, text[s.start..s.end]) <= limit
  {
    if spans != [] {
      CutInsideFindsSpan(spans[1..], u, text, cut, limit);
      assert forall s :: s in spans <==> s == spans[0] || s in spans[1..];
    }
  }

  /** The span fits on a page and the cut lies inside it. */
  predicate IsAround(s: Span, u: Unit, text: string, limit: int, cut: nat)
    requires s.start < s.end <= |text|
  {
    s.start < cut < s.end && Measure(u, text[s.start..s.end]) <= limit
  }

  /**
   Two spans that fit: `spans[i]` is the first one around the hard cut, and
   another one is around its start.
   */
  ghost predicate SpansOverlapAt(inl: Inline, u: Unit, text: string, limit: int, hard: nat, i: nat)
    requires i < |inl.spans(text)|
  {
    var spans := inl.spans(text);
    && IsAround(spans[i], u, text, limit, hard)
    && (forall k :: 0 <= k < i ==> !IsAround(spans[k], u, text, limit, hard))
    && exists k :: 0 <= k < |spans| && IsAround(spans[k], u, text, limit, spans[i].start)
  }

  lemma {:induction false} CutInsideTakesFirst(spans: seq<Span>, u: Unit, text: string, cut: nat, limit: int, i: nat)
    requires forall s :: s in spans ==> s.start < s.end <= |text|
    requires i < |spans| && IsAround(spans[i], u, text, limit, cut)
    requires forall k :: 0 <= k < i ==> !IsAround(spans[k], u, text, limit, cut)
    ensures CutInside(spans, u, text, cut, limit) == if spans[i].start > 0 then spans[i].start else spans[i].end
  {
    if i > 0 {
      assert !IsAround(spans[0], u, text, limit, cut);
      assert forall k :: 0 <= k < i - 1 ==> spans[1..][k] == spans[k + 1];
      CutInsideTakesFirst(spans[1..], u, text, cut, limit, i - 1);
    }
  }

  lemma {:induction false} FirstAround(spans: seq<Span>, u: Unit, text: string, cut: nat, limit: int) returns (i: nat)
    requires forall s :: s in spans ==> s.start < s.end <= |text|
    requires exists k :: 0 <= k < |spans| && IsAround(spans[k], u, text, limit, cut)
    ensures i < |spans| && IsAround(spans[i], u, text, limit, cut)
    ensures forall k :: 0 <= k < i ==> !IsAround(spans[k], u, text, limit, cut)
  {
    i := 0;
    while !IsAround(spans[i], u, text, limit, cut)
      invariant i < |spans| && forall k :: 0 <= k < i ==> !IsAround(spans[k], u, text, limit, cut)
      decreases |spans| - i
    {
      i := i + 1;
    }
  }

  lemma BreaksSpanAround(inl: Inline, u: Unit, text: string, limit: int, cut: nat)
    ensures BreaksSpan(inl, u, text, limit, cut) <==>
            exists k :: 0 <= k < |inl.spans(text)| && IsAround(inl.spans(text)[k], u, text, limit, cut)
  {
    var spans := inl.spans(text);
    if BreaksSpan(inl, u, text, limit, cut) {
      var s :| s in spans && s.start < cut < s.end <= |text| && Measure(u, text[s.start..s.end]) <= limit;
      var k :| 0 <= k < |spans| && spans[k] == s;
      assert IsAround(spans[k], u, text, limit, cut);
    }
  }

  /** When no span is around the hard cut, no chosen cut breaks one. */
  lemma ClearCutIsClear(inl: Inline, u: Unit, text: string, limit: int)
    requires Measure(u, text) > limit && HardCut(u, text, limit) > 0
    requires Moved(inl, u, text, HardCut(u, text, limit), limit) == HardCut(u, text, limit)
    ensures !BreaksSpan(inl, u, text, limit, ChooseCut(inl, u, text, limit))
  {
    hide Measure, StructuralCuts, MarkerCuts, CutInside;
    var hard := HardCut(u, text, limit);
    var cut := ChooseCut(inl, u, text, limit);
    CutInsideFindsSpan(inl.spans(text), u, text, cut, limit);
    StructuralCutsAreClear(inl, u, text, limit, hard, hard);
    MarkerCutsAreClear(inl, u, text, limit, hard, |MARKERS|);
  }

  /**
   A chosen cut breaks a span that fits on a page exactly when the first such
   span around the hard cut begins inside another one: moving out of the one
   lands in the other.
   */
  lemma CutBreaksSpanIff(inl: Inline, u: Unit, text: string, limit: int)
    requires Measure(u, text) > limit && HardCut(u, text, limit) > 0
    ensures BreaksSpan(inl, u, text, limit, ChooseCut(inl, u, text, limit)) <==>
            exists i :: 0 <= i < |inl.spans(text)| && SpansOverlapAt(inl, u, text, limit, HardCut(u, text, limit), i)
  {
    hide Measure, HardCut, ChooseCut, IsAround, BreaksSpan;
    var hard, spans := HardCut(u, text, limit), inl.spans(text);
    BreaksSpanAround(inl, u, text, limit, hard);
    BreaksSpanAround(inl, u, text, limit, ChooseCut(inl, u, text, limit));
    if exists k :: 0 <= k < |spans| && IsAround(spans[k], u, text, limit, hard) {
      var i := FirstAround(spans, u, text, hard, limit);
      CutInsideTakesFirst(spans, u, text, hard, limit, i);
      HardCutOnlyMovesBack(inl, u, text, limit);
      MovedIsChosen(inl, u, text, limit, i);
      assert ChooseCut(inl, u, text, limit) == spans[i].start;
      forall k | 0 <= k < |spans| && SpansOverlapAt(inl, u, text, limit, hard, k) ensures k == i {
      }
      assert SpansOverlapAt(inl, u, text, limit, hard, i) <==> BreaksSpan(inl, u, text, limit, spans[i].start);
    } else {
      NothingAround(inl, u, text, limit);
      ClearCutIsClear(inl, u, text, limit);
    }
  }

  lemma MovedIsChosen(inl: Inline, u: Unit, text: string, limit: int, i: nat)
    requires i < |inl.spans(text)| && Measure(u, text) > limit && HardCut(u, text, limit) > 0
    requires IsAround(inl.spans(text)[i], u, text, limit, HardCut(u, text, limit))
    requires var s := inl.spans(text)[i];
             Moved(inl, u, text, HardCut(u, text, limit), limit) == if s.start > 0 then s.start else s.end
    ensures inl.spans(text)[i].start > 0
    ensures ChooseCut(inl, u, text, limit) == inl.spans(text)[i].start
  {
    hide Measure, StructuralCuts, MarkerCuts, CutInside, Moved;
    HardCutOnlyMovesBack(inl, u, text, limit);
  }

  lemma NothingAround(inl: Inline, u: Unit, text: string, limit: int)
    requires !exists k :: 0 <= k < |inl.spans(text)| && IsAround(inl.spans(text)[k], u, text, limit, HardCut(u, text, limit))
    ensures Moved(inl, u, text, HardCut(u, text, limit), limit) == HardCut(u, text, limit)
  {
    hide Measure, HardCut;
    var spans := inl.spans(text);
    CutInsideFindsSpan(spans, u, text, HardCut(u, text, limit), limit);
    forall s | s in spans ensures !IsAround(s, u, text, limit, HardCut(u, text, limit)) {
      var k :| 0 <= k < |spans| && spans[k] == s;
      assert !IsAround(spans[k], u, text, limit, HardCut(u, text, limit));
    }
  }

  lemma {:induction false} StructuralCutsAreClear(inl: Inline, u: Unit, text: string, limit: int, hard: nat, p: nat)
    requires p <= hard <= |text|
    ensures forall c :: c in StructuralCuts(inl, u, text, limit, hard, p) ==>
              c < hard && IsStructuralCut(inl, u, text, limit, hard, c)
  {
    hide IsStructuralCut;
    if p > 0 {
      StructuralCutsAreClear(inl, u, text, limit, hard, p - 1);
    }
  }

  lemma {:induction false} MarkerCutsAreClear(inl: Inline, u: Unit, text: string, limit: int, hard: nat, k: nat)
    requires hard <= |text| && k <= |MARKERS|
    ensures forall c :: c in MarkerCuts(inl, u, text, limit, hard, k) ==> Moved(inl, u, text, c, limit) == c
  {
    hide Moved, AfterLast;
    if k > 0 {
      MarkerCutsAreClear(inl, u, text, limit, hard, k - 1);
    }
  }

  /**
   A text with two overlapping spans, bold from 1 to 9 and code from 5 to 12:
   the hard cut 10 lies in the code, and leaving it breaks the bold text.
   */
  lemma MovedCutCanBreakAnotherSpan(inl: Inline)
    requires inl.spans("x__a `b__ c`") == [Span(1, 9), Span(5, 12)]
    ensures var text := "x__a `b__ c`";
            && HardCut(Chars, text, 10) == 10 && ChooseCut(inl, Chars, text, 10) == 5
            && BreaksSpan(inl, Chars, text, 10, 5)
  {
    var text := "x__a `b__ c`";
    hide HardCut, Measure, ChooseCut;
    MeasureAtLeastLength(Chars, text);
    MeasureAtLeastLength(Chars, text[1..9]);
    MeasureAtLeastLength(Chars, text[5..12]);
    HardCutIsLargest(Chars, text, 10);
    var hard := HardCut(Chars, text, 10);
    MeasureAtLeastLength(Chars, text[..hard]);
    if hard < 10 {
      MeasureAtLeastLength(Chars, text[..10]);
      assert false;
    }
    var spans := inl.spans(text);
    CutInsideTakesFirst(spans, Chars, text, hard, 10, 1);
    MovedIsChosen(inl, Chars, text, 10, 1);
    assert spans[0] in spans;
  }
}
