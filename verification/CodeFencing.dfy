/**
 Putting fences around code that came without any: `_fenced_line_indices`,
 `_detect_code_spans` and `fence_unfenced_code`.
 */
module CodeFencing {
  import opened Wrappers
  import opened TextUnits
  import opened FenceRules

  datatype Role = CodeLine | Neutral | Prose

  /**
   What the regular expressions say of one line: its role, and whether it is a
   definition or an import.  Blank lines are neutral.
   */
  datatype Verdicts = Verdicts(role: string -> Role, definition: string -> bool, language: string -> Option<Language>)

  datatype Language = Javascript | Python | Bash | Sql

  ghost predicate BlanksAreNeutral(v: Verdicts)
  {
    forall line: string :: IsBlank(line) ==> v.role(line) == Neutral
  }

  type Detector = v: Verdicts | BlanksAreNeutral(v) witness Verdicts(_ => Neutral, _ => false, _ => None)

  const INDENT := 4
  const MAX_BLANKS := 2
  const MIN_STRONG := 2

  function LeadingIndent(line: string): (columns: nat)
  {
    if line == "" then 0
    else if line[0] == ' ' then 1 + LeadingIndent(line[1..])
    else if line[0] == '\t' then INDENT + LeadingIndent(line[1..])
    else 0
  }

  // ---- Lines inside existing fences ---------------------------------------------------

  /** Whether a fence is open behind the line. */
  function NextFence(line: string, fence: Option<string>): Option<string>
  {
    match fence
    case None => FenceMarker(line)
    case Some(opening) => if ClosesFence(line, opening) then None else fence
  }

  /** The fence open before line `i`. */
  function FenceAt(lines: seq<string>, i: nat): Option<string>
    requires i <= |lines|
  {
    if i == 0 then None else NextFence(lines[i - 1], FenceAt(lines, i - 1))
  }

  /** Opener, content or closer of a fenced block. */
  predicate IsFenced(lines: seq<string>, i: nat)
    requires i < |lines|
  {
    FenceAt(lines, i).Some? || FenceMarker(lines[i]).Some?
  }

  method FencedLineIndices(lines: seq<string>) returns (inside: set<nat>)
    ensures forall i: nat :: i in inside <==> i < |lines| && IsFenced(lines, i)
  {
    hide FenceMarker, ClosesFence;
    inside := {};
    var index := 0;
    while index < |lines|
      invariant index <= |lines| && FenceAt(lines, index).None?
      invariant forall i: nat :: i in inside <==> i < index && IsFenced(lines, i)
      decreases |lines| - index
    {
      var opening := FenceMarker(lines[index]);
      if opening.None? {
        index := index + 1;
        continue;
      }
      inside := inside + {index};
      index := index + 1;
      var open := true;
      while index < |lines| && open
        invariant index <= |lines| && FenceAt(lines, index) == if open then opening else None
        invariant forall i: nat :: i in inside <==> i < index && IsFenced(lines, i)
        decreases |lines| - index
      {
        inside := inside + {index};
        open := !ClosesFence(lines[index], opening.value);
        index := index + 1;
      }
      if open {
        return;
      }
    }
  }

  // ---- What a run of lines amounts to --------------------------------------------------

  datatype Info = Info(role: Role, blank: bool, definition: bool, indented: bool)

  function InfoOf(v: Verdicts, line: string, fenced: bool): Info
  {
    Info(if fenced then Prose else v.role(line), IsBlank(line), v.definition(line), LeadingIndent(line) >= INDENT)
  }

  /** Lines with their roles; `fence` is the fence open before the first line. */
  function Infos(v: Verdicts, lines: seq<string>, fence: Option<string>): (infos: seq<Info>)
    ensures |infos| == |lines|
  {
    if lines == [] then []
    else
      [InfoOf(v, lines[0], fence.Some? || FenceMarker(lines[0]).Some?)]
      + Infos(v, lines[1..], NextFence(lines[0], fence))
  }

  lemma {:induction false} InfosFrom(v: Verdicts, lines: seq<string>, i: nat)
    requires i <= |lines|
    ensures Infos(v, lines, None)[i..] == Infos(v, lines[i..], FenceAt(lines, i))
  {
    if i == 0 {
      assert lines[0..] == lines;
    } else {
      InfosFrom(v, lines, i - 1);
      assert lines[i - 1..][1..] == lines[i..];
      assert Infos(v, lines, None)[i - 1..][1..] == Infos(v, lines, None)[i..];
    }
  }

  method LineInfos(v: Verdicts, lines: seq<string>, fenced: set<nat>) returns (infos: seq<Info>)
    requires forall i: nat :: i in fenced <==> i < |lines| && IsFenced(lines, i)
    ensures infos == Infos(v, lines, None)
    ensures forall i :: 0 <= i < |infos| ==> infos[i].blank == IsBlank(lines[i])
  {
    hide FenceMarker, ClosesFence, LeadingIndent, IsBlank;
    infos := [];
    for i := 0 to |lines|
      invariant |infos| == i && infos == Infos(v, lines, None)[..i]
      invariant forall k :: 0 <= k < i ==> infos[k].blank == IsBlank(lines[k])
    {
      InfosFrom(v, lines, i);
      assert Infos(v, lines, None)[i] == Infos(v, lines, None)[i..][0];
      infos := infos + [InfoOf(v, lines[i], i in fenced)];
    }
  }

  /** Counts over one run; `content` is the length up to its last line that is not blank. */
  datatype Run = Run(strong: nat, definition: bool, body: nat, content: nat)

  function Scan(s: seq<Info>, blanks: nat): (r: Run)
    ensures r.content <= |s|
    ensures forall i :: 0 <= i < r.content ==> s[i].role != Prose
    ensures r.content > 0 ==> !s[r.content - 1].blank
    ensures r.strong + r.body <= r.content
  {
    if s == [] || s[0].role == Prose || (s[0].blank && blanks + 1 > MAX_BLANKS) then Run(0, false, 0, 0)
    else
      var r := Scan(s[1..], if s[0].blank then blanks + 1 else 0);
      if s[0].blank then r.(content := if r.content == 0 then 0 else r.content + 1)
      else
        var code := s[0].role == CodeLine;
        Run(r.strong + (if code then 1 else 0),
            r.definition || (code && s[0].definition),
            r.body + (if !code && s[0].indented then 1 else 0),
            r.content + 1)
  }

  predicate Accepts(r: Run)
  {
    (r.strong >= MIN_STRONG || (r.strong >= 1 && r.definition && r.body >= 1)) && r.content > 1
  }

  predicate StartsSpan(s: seq<Info>)
  {
    s != [] && s[0].role == CodeLine && Accepts(Scan(s, 0))
  }

  /** The source also asks that the run reach a later line; the counts already say so. */
  lemma AcceptedRunsHaveTwoLines(s: seq<Info>, blanks: nat)
    ensures var r := Scan(s, blanks);
            Accepts(r) <==> r.strong >= MIN_STRONG || (r.strong >= 1 && r.definition && r.body >= 1)
  {
  }

  function Spans(s: seq<Info>, index: nat): (spans: map<nat, nat>)
    requires index <= |s|
    ensures forall k :: k in spans ==> index <= k < |s|
    decreases |s| - index
  {
    if index == |s| then map[]
    else if StartsSpan(s[index..]) then
      var end := index + Scan(s[index..], 0).content;
      Spans(s, end)[index := end]
    else Spans(s, index + 1)
  }

  lemma ScanStep(infos: seq<Info>, cursor: nat, blanks: nat)
    requires cursor < |infos|
    ensures var info := infos[cursor];
            var r := Scan(infos[cursor..], blanks);
            var later := Scan(infos[cursor + 1..], if info.blank then blanks + 1 else 0);
            if info.role == Prose || (info.blank && blanks + 1 > MAX_BLANKS) then r == Run(0, false, 0, 0)
            else if info.blank then
              r == later.(content := if later.content == 0 then 0 else later.content + 1)
            else
              var code := info.role == CodeLine;
              r == Run(later.strong + (if code then 1 else 0), later.definition || (code && info.definition),
                       later.body + (if !code && info.indented then 1 else 0), later.content + 1)
  {
    assert infos[cursor..][1..] == infos[cursor + 1..];
  }

  /** The run counted so far, `offset` lines long, and the run behind it. */
  function Joined(done: Run, offset: nat, rest: Run): Run
  {
    Run(done.strong + rest.strong, done.definition || rest.definition, done.body + rest.body,
        if rest.content == 0 then done.content else offset + rest.content)
  }

  lemma JoinBlank(done: Run, offset: nat, infos: seq<Info>, cursor: nat, blanks: nat)
    requires cursor < |infos| && infos[cursor].role != Prose && infos[cursor].blank && blanks + 1 <= MAX_BLANKS
    ensures Joined(done, offset, Scan(infos[cursor..], blanks))
         == Joined(done, offset + 1, Scan(infos[cursor + 1..], blanks + 1))
  {
    hide Scan;
    ScanStep(infos, cursor, blanks);
  }

  lemma JoinLine(done: Run, offset: nat, infos: seq<Info>, cursor: nat, blanks: nat)
    requires cursor < |infos| && infos[cursor].role != Prose && !infos[cursor].blank
    ensures var code := infos[cursor].role == CodeLine;
            var longer := Run(done.strong + (if code then 1 else 0), done.definition || (code && infos[cursor].definition),
                              done.body + (if !code && infos[cursor].indented then 1 else 0), offset + 1);
            Joined(done, offset, Scan(infos[cursor..], blanks)) == Joined(longer, offset + 1, Scan(infos[cursor + 1..], 0))
  {
    hide Scan;
    ScanStep(infos, cursor, blanks);
  }

  method ScanRun(infos: seq<Info>, index: nat) returns (r: Run)
    requires index < |infos| && infos[index].role == CodeLine
    ensures r == Scan(infos[index..], 0)
  {
    hide Scan, Joined;
    var strong: nat, indentedBody: nat, lastContent: nat, definitionSeen := 0, 0, 0, false;
    var cursor, blankRun := index, 0;
    ghost var whole := Scan(infos[index..], 0);
    NothingJoined(whole);
    while cursor < |infos|
      invariant index <= cursor <= |infos|
      invariant whole == Joined(Run(strong, definitionSeen, indentedBody, lastContent), cursor - index,
                                Scan(infos[cursor..], blankRun))
    {
      ghost var done := Run(strong, definitionSeen, indentedBody, lastContent);
      var info := infos[cursor];
      if info.role == Prose {
        RunEnds(done, cursor - index, infos, cursor, blankRun);
        return Run(strong, definitionSeen, indentedBody, lastContent);
      }
      if info.blank {
        blankRun := blankRun + 1;
        if blankRun > MAX_BLANKS {
          RunEnds(done, cursor - index, infos, cursor, blankRun - 1);
          return Run(strong, definitionSeen, indentedBody, lastContent);
        }
        JoinBlank(done, cursor - index, infos, cursor, blankRun - 1);
        cursor := cursor + 1;
        continue;
      }
      JoinLine(done, cursor - index, infos, cursor, blankRun);
      blankRun := 0;
      lastContent := cursor - index + 1;
      if info.role == CodeLine {
        strong := strong + 1;
        if info.definition {
          definitionSeen := true;
        }
      } else if info.indented {
        indentedBody := indentedBody + 1;
      }
      cursor := cursor + 1;
    }
    RunEnds(Run(strong, definitionSeen, indentedBody, lastContent), cursor - index, infos, cursor, blankRun);
    return Run(strong, definitionSeen, indentedBody, lastContent);
  }

  lemma NothingJoined(r: Run)
    ensures r == Joined(Run(0, false, 0, 0), 0, r)
  {
  }

  lemma RunEnds(done: Run, offset: nat, infos: seq<Info>, cursor: nat, blanks: nat)
    requires cursor <= |infos|
    requires cursor < |infos| ==> infos[cursor].role == Prose || (infos[cursor].blank && blanks + 1 > MAX_BLANKS)
    ensures Joined(done, offset, Scan(infos[cursor..], blanks)) == done
  {
  }

  lemma SpansStep(infos: seq<Info>, index: nat)
    requires index < |infos|
    ensures index in Spans(infos, index) <==> StartsSpan(infos[index..])
    ensures var end := index + Scan(infos[index..], 0).content;
            end <= |infos|
            && Spans(infos, index) == if StartsSpan(infos[index..]) then Spans(infos, end)[index := end]
                                      else Spans(infos, index + 1)
  {
    hide Scan, StartsSpan;
  }

  lemma SpanStartsIff(infos: seq<Info>, index: nat)
    requires index < |infos|
    ensures StartsSpan(infos[index..]) <==> infos[index].role == CodeLine && Accepts(Scan(infos[index..], 0))
    ensures Scan(infos[index..], 0).content <= |infos| - index
    ensures Accepts(Scan(infos[index..], 0)) ==> Scan(infos[index..], 0).content > 0
  {
    hide Scan;
  }

  method DetectCodeSpans(v: Detector, lines: seq<string>) returns (spans: map<nat, nat>)
    ensures spans == Spans(Infos(v, lines, None), 0)
  {
    hide Scan, Infos, IsBlank, Spans, StartsSpan, Accepts;
    var fenced := FencedLineIndices(lines);
    var infos := LineInfos(v, lines, fenced);
    spans := map[];
    var index := 0;
    while index < |lines|
      invariant index <= |lines|
      invariant forall k :: k in spans ==> k < index
      invariant Spans(infos, 0) == spans + Spans(infos, index)
      decreases |lines| - index
    {
      SpanStartsIff(infos, index);
      SpansStep(infos, index);
      if infos[index].role != CodeLine {
        index := index + 1;
        continue;
      }
      var run := ScanRun(infos, index);
      if Accepts(run) {
        spans := spans[index := index + run.content];
        index := index + run.content;
        continue;
      }
      index := index + 1;
    }
    NoSpansLeft(infos);
  }

  lemma NoSpansLeft(infos: seq<Info>)
    ensures Spans(infos, |infos|) == map[]
  {
  }

  // ---- Adding the fences -------------------------------------------------------------------

  /** A line of the result: carried over, or put in. */
  datatype OutLine = Kept(line: string) | Added(line: string)

  const FENCE := "```"

  function LanguageName(language: Option<Language>): string
  {
    match language
    case None => ""
    case Some(Javascript) => "javascript"
    case Some(Python) => "python"
    case Some(Bash) => "bash"
    case Some(Sql) => "sql"
  }

  function KeepAll(lines: seq<string>): (out: seq<OutLine>)
    ensures |out| == |lines| && forall i :: 0 <= i < |out| ==> out[i] == Kept(lines[i])
  {
    seq(|lines|, i requires 0 <= i < |lines| => Kept(lines[i]))
  }

  function BlankIf(b: bool): seq<OutLine> { if b then [Added("")] else [] }

  /** `open` says that the result so far ends in a line that is not blank. */
  function FenceSpan(v: Verdicts, body: seq<string>, open: bool): seq<OutLine>
  {
    BlankIf(open)
    + [Added(FENCE + LanguageName(v.language(Join("\n", body))))] + KeepAll(body) + [Added(FENCE)]
  }

  function FenceLines(v: Verdicts, lines: seq<string>, infos: seq<Info>, open: bool): (out: seq<OutLine>)
    requires |lines| == |infos|
    decreases |lines|
  {
    if lines == [] then []
    else if StartsSpan(infos) then
      var n := Scan(infos, 0).content;
      var spaced := n < |lines| && lines[n] != "";
      FenceSpan(v, lines[..n], open) + BlankIf(spaced) + FenceLines(v, lines[n..], infos[n..], !spaced)
    else [Kept(lines[0])] + FenceLines(v, lines[1..], infos[1..], !IsBlank(lines[0]))
  }

  function Texts(out: seq<OutLine>): (lines: seq<string>)
    ensures |lines| == |out| && forall i :: 0 <= i < |out| ==> lines[i] == out[i].line
  {
    if out == [] then [] else [out[0].line] + Texts(out[1..])
  }

  /** The result without the lines that were put in. */
  function Originals(out: seq<OutLine>): (lines: seq<string>)
  {
    if out == [] then []
    else (if out[0].Kept? then [out[0].line] else []) + Originals(out[1..])
  }

  /** `text.splitlines()`. */
  function PlainLines(s: string): (ls: seq<string>)
    ensures forall i :: 0 <= i < |ls| ==> '\n' !in ls[i]
  {
    if s == "" then []
    else
      var n := LineEnd(s);
      var line := WithoutFinalNewline(s[..n]);
      assert '\n' !in line by {
        if line == s[..n] {
          assert line == s[..n - 1] + [s[n - 1]];
        } else {
          assert line == s[..n - 1];
        }
      }
      [line] + PlainLines(s[n..])
  }

  function FencedOutput(v: Verdicts, text: string): (out: seq<OutLine>)
  {
    FenceLines(v, PlainLines(text), Infos(v, PlainLines(text), None), false)
  }

  function FenceText(v: Verdicts, text: string): string
  {
    if Spans(Infos(v, PlainLines(text), None), 0) == map[] then text
    else Join("\n", Texts(FencedOutput(v, text)))
  }

  // ---- Nothing of the original is lost --------------------------------------------------

  lemma {:induction false} OriginalsAppend(a: seq<OutLine>, b: seq<OutLine>)
    ensures Originals(a + b) == Originals(a) + Originals(b)
  {
    if a == [] {
      assert a + b == b;
    } else {
      var first := if a[0].Kept? then [a[0].line] else [];
      assert (a + b)[0] == a[0] && (a + b)[1..] == a[1..] + b;
      OriginalsAppend(a[1..], b);
      assert first + (Originals(a[1..]) + Originals(b)) == first + Originals(a[1..]) + Originals(b);
    }
  }

  lemma {:induction false} OriginalsOfKept(lines: seq<string>)
    ensures Originals(KeepAll(lines)) == lines
  {
    if lines != [] {
      assert KeepAll(lines)[1..] == KeepAll(lines[1..]);
      OriginalsOfKept(lines[1..]);
    }
  }

  lemma OriginalsOfSpan(v: Verdicts, body: seq<string>, open: bool, spaced: bool)
    ensures Originals(FenceSpan(v, body, open) + BlankIf(spaced)) == body
  {
    hide LanguageName, Join;
    var first := [Added(FENCE + LanguageName(v.language(Join("\n", body))))];
    OriginalsAppend(FenceSpan(v, body, open), BlankIf(spaced));
    OriginalsAppend(BlankIf(open) + first + KeepAll(body), [Added(FENCE)]);
    OriginalsAppend(BlankIf(open) + first, KeepAll(body));
    OriginalsAppend(BlankIf(open), first);
    OriginalsOfKept(body);
    assert first[1..] == [] && [Added(FENCE)][1..] == [] && [Added("")][1..] == [];
  }

  /** Deleting the lines that were put in gives the original lines back. */
  lemma {:induction false} FencingKeepsLines(v: Verdicts, lines: seq<string>, infos: seq<Info>, open: bool)
    requires |lines| == |infos|
    ensures Originals(FenceLines(v, lines, infos, open)) == lines
    decreases |lines|
  {
    hide Scan, IsBlank, FenceSpan, BlankIf, Originals;
    OriginalsOfFew("");
    if lines == [] {
    } else if StartsSpan(infos) {
      var n := Scan(infos, 0).content;
      var spaced := n < |lines| && lines[n] != "";
      FencingKeepsLines(v, lines[n..], infos[n..], !spaced);
      OriginalsOfSpan(v, lines[..n], open, spaced);
      OriginalsAppend(FenceSpan(v, lines[..n], open) + BlankIf(spaced), FenceLines(v, lines[n..], infos[n..], !spaced));
      assert lines[..n] + lines[n..] == lines;
    } else {
      FencingKeepsLines(v, lines[1..], infos[1..], !IsBlank(lines[0]));
      OriginalsAppend([Kept(lines[0])], FenceLines(v, lines[1..], infos[1..], !IsBlank(lines[0])));
      OriginalsOfFew(lines[0]);
      assert [lines[0]] + lines[1..] == lines;
    }
  }

  lemma OriginalsOfFew(line: string)
    ensures Originals([]) == [] && Originals([Kept(line)]) == [line]
  {
  }

  // ---- Nothing is left to fence ------------------------------------------------------------

  /** No line of `s` starts a code span. */
  ghost predicate NoSpan(s: seq<Info>)
  {
    s == [] || (!StartsSpan(s) && NoSpan(s[1..]))
  }

  lemma {:induction false} NoSpanMeansNoSpans(s: seq<Info>, index: nat)
    requires index <= |s|
    ensures NoSpan(s[index..]) <==> Spans(s, index) == map[]
    decreases |s| - index
  {
    if index < |s| {
      assert s[index..][1..] == s[index + 1..];
      NoSpanMeansNoSpans(s, index + 1);
      if StartsSpan(s[index..]) {
        assert index in Spans(s, index);
      }
    }
  }

  lemma {:induction false} TextsAppend(a: seq<OutLine>, b: seq<OutLine>)
    ensures Texts(a + b) == Texts(a) + Texts(b)
  {
    assert forall i :: 0 <= i < |a + b| ==> Texts(a + b)[i] == (Texts(a) + Texts(b))[i];
  }

  lemma FenceLineOpens(name: string)
    requires IsInfoString(name) && (name != "" ==> name[0] != '`' && !IsSpace(name[0]))
    requires name != "" ==> name[|name| - 1] != '\n'
    ensures FenceMarker(FENCE + name) == Some(FENCE)
    ensures name == "" ==> ClosesFence(FENCE + name, FENCE)
  {
    var line := FENCE + name;
    assert line[0] == '`' && StripLeft(line) == line;
    assert WithoutFinalNewline(line) == line;
    assert line[1..] == "``" + name && line[1..][1..] == "`" + name && line[1..][1..][1..] == name;
    assert FenceRun(name, '`') == 0;
    assert FenceRun(line[1..][1..], '`') == 1 && FenceRun(line[1..], '`') == 2 && FenceRun(line, '`') == 3;
    assert line[..3] == FENCE && line[3..] == name;
  }

  lemma LanguageNamesOpen(language: Option<Language>)
    ensures FenceMarker(FENCE + LanguageName(language)) == Some(FENCE)
    ensures ClosesFence(FENCE, FENCE)
  {
    FenceLineOpens(LanguageName(language));
    FenceLineOpens("");
    assert FENCE + "" == FENCE;
  }

  lemma InfosCons(v: Verdicts, line: string, rest: seq<string>, fence: Option<string>)
    ensures Infos(v, [line] + rest, fence)
         == [InfoOf(v, line, fence.Some? || FenceMarker(line).Some?)] + Infos(v, rest, NextFence(line, fence))
  {
    assert ([line] + rest)[1..] == rest;
  }

  lemma NoSpanBehindOther(v: Verdicts, line: string, rest: seq<string>, fence: Option<string>)
    requires NoSpan(Infos(v, rest, NextFence(line, fence)))
    requires fence.Some? || FenceMarker(line).Some? || v.role(line) != CodeLine
    ensures NoSpan(Infos(v, [line] + rest, fence))
  {
    hide Scan, FenceMarker, ClosesFence, NextFence;
    InfosCons(v, line, rest, fence);
    var s := Infos(v, [line] + rest, fence);
    assert s[1..] == Infos(v, rest, NextFence(line, fence));
  }

  /** Lines without fences inside an added fence hide no span, up to its closing line. */
  lemma {:induction false} NoSpanInsideFence(v: Verdicts, body: seq<string>, rest: seq<string>)
    requires forall l :: l in body ==> FenceMarker(l).None?
    requires NoSpan(Infos(v, rest, None))
    ensures NoSpan(Infos(v, body + [FENCE] + rest, Some(FENCE)))
  {
    hide NoSpan, FenceMarker, Infos, ClosesFence;
    if body == [] {
      LanguageNamesOpen(None);
      NoSpanBehindOther(v, FENCE, rest, Some(FENCE));
      assert body + [FENCE] + rest == [FENCE] + rest;
    } else {
      NoSpanInsideFence(v, body[1..], rest);
      UnfencedStaysInside(body[0]);
      NoSpanBehindOther(v, body[0], body[1..] + [FENCE] + rest, Some(FENCE));
      RegroupBody(body, FENCE, rest);
    }
  }

  lemma UnfencedStaysInside(line: string)
    requires FenceMarker(line).None?
    ensures NextFence(line, Some(FENCE)) == Some(FENCE)
  {
    hide FenceMarker;
  }

  lemma RegroupBody(body: seq<string>, closer: string, rest: seq<string>)
    requires body != []
    ensures body + [closer] + rest == [body[0]] + (body[1..] + [closer] + rest)
  {
  }

  function Opener(v: Verdicts, body: seq<string>): string
  {
    FENCE + LanguageName(v.language(Join("\n", body)))
  }

  lemma TextsOfOne(line: OutLine)
    ensures Texts([line]) == [line.line]
  {
  }

  lemma TextsOfKeepAll(body: seq<string>)
    ensures Texts(KeepAll(body)) == body
  {
  }

  lemma SpanTexts(v: Verdicts, body: seq<string>, open: bool)
    ensures Texts(FenceSpan(v, body, open))
         == (if open then [""] else []) + [Opener(v, body)] + body + [FENCE]
  {
    hide LanguageName, Join, Texts, KeepAll, BlankIf;
    var first := [Added(Opener(v, body))];
    TextsAppend(BlankIf(open) + first + KeepAll(body), [Added(FENCE)]);
    TextsAppend(BlankIf(open) + first, KeepAll(body));
    TextsAppend(BlankIf(open), first);
    TextsOfOne(first[0]);
    TextsOfOne(Added(FENCE));
    TextsOfKeepAll(body);
    TextsOfBlank(open);
  }

  lemma NoSpanBehindFence(v: Detector, body: seq<string>, rest: seq<string>, open: bool)
    requires forall l :: l in body ==> FenceMarker(l).None?
    requires NoSpan(Infos(v, rest, None))
    ensures NoSpan(Infos(v, Texts(FenceSpan(v, body, open)) + rest, None))
  {
    hide NoSpan, FenceMarker, Infos, FenceSpan, Texts, IsBlank, LanguageName, Join;
    LanguageNamesOpen(v.language(Join("\n", body)));
    NoSpanInsideFence(v, body, rest);
    SpanTexts(v, body, open);
    var inner := body + [FENCE] + rest;
    NoSpanBehindOther(v, Opener(v, body), inner, None);
    if open {
      BlankLineIsPlain();
      NoSpanBehindOther(v, "", [Opener(v, body)] + inner, None);
    }
    Regroup(if open then [""] else [], Opener(v, body), body, FENCE, rest);
  }

  lemma Regroup(blank: seq<string>, opener: string, body: seq<string>, closer: string, rest: seq<string>)
    ensures blank + [opener] + body + [closer] + rest
         == if blank == [] then [opener] + (body + [closer] + rest) else blank + ([opener] + (body + [closer] + rest))
  {
  }

  lemma BlankLineIsPlain()
    ensures FenceMarker("") == None && IsBlank("") && NextFence("", None) == None
  {
  }

  /** Lines that are not prose lie outside every fence. */
  lemma {:induction false} OutsideFences(v: Verdicts, lines: seq<string>, n: nat)
    requires n <= |lines|
    requires forall i :: 0 <= i < n ==> Infos(v, lines, None)[i].role != Prose
    ensures forall i :: 0 <= i < n ==> FenceMarker(lines[i]).None?
    ensures Infos(v, lines[n..], None) == Infos(v, lines, None)[n..]
  {
    hide FenceMarker, ClosesFence, LeadingIndent, IsBlank;
    if n == 0 {
      assert lines[0..] == lines;
    } else {
      var infos := Infos(v, lines, None);
      assert infos[0].role != Prose;
      assert forall i :: 0 <= i < n - 1 ==> infos[1..][i] == infos[i + 1];
      OutsideFences(v, lines[1..], n - 1);
      assert lines[1..][n - 1..] == lines[n..] && infos[1..][n - 1..] == infos[n..];
      assert forall i :: 0 < i < n ==> lines[i] == lines[1..][i - 1];
    }
  }

  /** A line that starts no span is carried over as it is. */
  lemma CarriedLine(v: Verdicts, lines: seq<string>, fence: Option<string>, open: bool)
    requires lines != [] && !StartsSpan(Infos(v, lines, fence))
    ensures var infos := Infos(v, lines, fence);
            var next := NextFence(lines[0], fence);
            && infos[1..] == Infos(v, lines[1..], next)
            && Infos(v, Texts(FenceLines(v, lines, infos, open)), fence)
               == [infos[0]] + Infos(v, Texts(FenceLines(v, lines[1..], infos[1..], !IsBlank(lines[0]))), next)
  {
    hide Scan, FenceMarker, ClosesFence, LeadingIndent, IsBlank, FenceSpan, StartsSpan;
    var later := FenceLines(v, lines[1..], Infos(v, lines, fence)[1..], !IsBlank(lines[0]));
    TextsAppend([Kept(lines[0])], later);
    assert Texts([Kept(lines[0])]) == [lines[0]];
    InfosCons(v, lines[0], Texts(later), fence);
  }

  lemma ScanCons(info: Info, s: seq<Info>, t: seq<Info>, blanks: nat)
    requires !Accepts(Scan([info] + s, blanks))
    ensures var next := if info.blank then blanks + 1 else 0;
            && ((!Accepts(Scan(s, next)) ==> Scan(s, next) == Scan(t, next))
                ==> Scan([info] + s, blanks) == Scan([info] + t, blanks))
  {
    assert ([info] + s)[1..] == s && ([info] + t)[1..] == t;
  }

  /** A run that was not accepted amounts to the same in the fenced text. */
  lemma {:induction false} RejectedRunsStay(v: Detector, lines: seq<string>, fence: Option<string>, open: bool, blanks: nat)
    requires !Accepts(Scan(Infos(v, lines, fence), blanks))
    ensures Scan(Infos(v, Texts(FenceLines(v, lines, Infos(v, lines, fence), open)), fence), blanks)
         == Scan(Infos(v, lines, fence), blanks)
    decreases |lines|
  {
    hide FenceMarker, ClosesFence, LeadingIndent, IsBlank, FenceLines, Texts;
    if lines == [] {
      assert FenceLines(v, lines, [], open) == [] by {
        NothingToFence(v, open);
      }
      assert Texts([]) == [];
      return;
    }
    var infos := Infos(v, lines, fence);
    assert infos[0].role == CodeLine ==> !infos[0].blank;
    assert !StartsSpan(infos);
    CarriedLine(v, lines, fence, open);
    var next := NextFence(lines[0], fence);
    var blanks' := if infos[0].blank then blanks + 1 else 0;
    if !Accepts(Scan(infos[1..], blanks')) {
      RejectedRunsStay(v, lines[1..], next, !IsBlank(lines[0]), blanks');
    }
    assert infos == [infos[0]] + infos[1..];
    ScanCons(infos[0], infos[1..],
             Infos(v, Texts(FenceLines(v, lines[1..], infos[1..], !IsBlank(lines[0]))), next), blanks);
  }

  lemma NothingToFence(v: Verdicts, open: bool)
    ensures FenceLines(v, [], [], open) == []
  {
  }

  lemma FencedSpanHasNoSpan(v: Detector, lines: seq<string>, infos: seq<Info>, open: bool, later: seq<OutLine>)
    requires infos == Infos(v, lines, None) && StartsSpan(infos)
    requires var n := Scan(infos, 0).content;
             var spaced := n < |lines| && lines[n] != "";
             later == FenceLines(v, lines[n..], infos[n..], !spaced) && NoSpan(Infos(v, Texts(later), None))
    ensures NoSpan(Infos(v, Texts(FenceLines(v, lines, infos, open)), None))
  {
    hide FenceMarker, Infos, NoSpan, IsBlank, Texts, FenceSpan, BlankIf, Scan;
    var n := Scan(infos, 0).content;
    var spaced := n < |lines| && lines[n] != "";
    OutsideFences(v, lines, n);
    NoSpanBehindBlank(v, later, spaced);
    TextsAppend(FenceSpan(v, lines[..n], open), BlankIf(spaced) + later);
    assert FenceLines(v, lines, infos, open) == FenceSpan(v, lines[..n], open) + (BlankIf(spaced) + later);
    NoSpanBehindFence(v, lines[..n], Texts(BlankIf(spaced) + later), open);
  }

  lemma CarriedLineHasNoSpan(v: Detector, lines: seq<string>, fence: Option<string>, open: bool)
    requires lines != [] && !StartsSpan(Infos(v, lines, fence))
    requires NoSpan(Infos(v, Texts(FenceLines(v, lines[1..], Infos(v, lines, fence)[1..], !IsBlank(lines[0]))),
                          NextFence(lines[0], fence)))
    ensures NoSpan(Infos(v, Texts(FenceLines(v, lines, Infos(v, lines, fence), open)), fence))
  {
    hide Infos, IsBlank, Texts, FenceLines, Scan, Accepts, NextFence;
    var infos := Infos(v, lines, fence);
    CarriedLine(v, lines, fence, open);
    var out := Infos(v, Texts(FenceLines(v, lines, infos, open)), fence);
    assert out[0] == infos[0] && NoSpan(out[1..]);
    if infos[0].role == CodeLine {
      RejectedRunsStay(v, lines, fence, open, 0);
    }
  }

  /** After one pass no line starts a code span any more. */
  lemma {:induction false} FencedTextHasNoSpan(v: Detector, lines: seq<string>, fence: Option<string>, open: bool)
    ensures NoSpan(Infos(v, Texts(FenceLines(v, lines, Infos(v, lines, fence), open)), fence))
    decreases |lines|
  {
    hide FenceMarker, IsBlank, Texts, FenceLines, Scan, StartsSpan, NextFence;
    var infos := Infos(v, lines, fence);
    if lines == [] {
      NothingToFence(v, open);
      assert Texts([]) == [];
    } else if StartsSpan(infos) {
      SpansStartOutside(v, lines, fence);
      var n := Scan(infos, 0).content;
      var spaced := n < |lines| && lines[n] != "";
      FencedTextHasNoSpan(v, lines[n..], None, !spaced);
      FencedSpanHasNoSpan(v, lines, infos, open, FenceLines(v, lines[n..], infos[n..], !spaced));
    } else {
      CarriedLine(v, lines, fence, open);
      FencedTextHasNoSpan(v, lines[1..], NextFence(lines[0], fence), !IsBlank(lines[0]));
      CarriedLineHasNoSpan(v, lines, fence, open);
    }
  }

  lemma SpansStartOutside(v: Verdicts, lines: seq<string>, fence: Option<string>)
    requires StartsSpan(Infos(v, lines, fence))
    ensures fence.None?
    ensures var infos := Infos(v, lines, fence);
            var n := Scan(infos, 0).content;
            0 < n <= |lines| && Infos(v, lines[n..], None) == infos[n..]
  {
    hide Scan, FenceMarker, NextFence;
    OutsideFences(v, lines, Scan(Infos(v, lines, fence), 0).content);
  }

  lemma NoSpanBehindBlank(v: Detector, later: seq<OutLine>, spaced: bool)
    requires NoSpan(Infos(v, Texts(later), None))
    ensures NoSpan(Infos(v, Texts(BlankIf(spaced) + later), None))
  {
    hide NoSpan, FenceMarker, Infos, IsBlank;
    if spaced {
      BlankLineIsPlain();
      NoSpanBehindOther(v, "", Texts(later), None);
      TextsAppend([Added("")], later);
      assert Texts([Added("")]) == [""];
    } else {
      assert BlankIf(spaced) + later == later;
    }
  }

  // ---- Whole texts ------------------------------------------------------------------------

  predicate NoNewlines(lines: seq<string>)
  {
    forall i :: 0 <= i < |lines| ==> '\n' !in lines[i]
  }

  /** What `splitlines` makes of joined lines: an empty last line is lost. */
  function Rejoined(lines: seq<string>): seq<string>
  {
    if lines != [] && lines[|lines| - 1] == "" then lines[..|lines| - 1] else lines
  }

  lemma PlainLine(line: string, rest: string)
    requires '\n' !in line && (line != "" || rest != "") && (rest == "" || rest[0] == '\n')
    ensures PlainLines(line + rest) == [line] + PlainLines(if rest == "" then "" else rest[1..])
  {
    var first := if rest == "" then line else line + "\n";
    var later := if rest == "" then "" else rest[1..];
    assert line + rest == first + later;
    assert first[..|first| - 1] == if rest == "" then line[..|line| - 1] else line;
    FirstLineEnd(first, later);
    assert (first + later)[..|first|] == first && (first + later)[|first|..] == later;
    assert WithoutFinalNewline(first) == line;
  }

  lemma {:induction false} PlainLinesOfJoin(lines: seq<string>)
    requires NoNewlines(lines)
    ensures PlainLines(Join("\n", lines)) == Rejoined(lines)
  {
    hide PlainLines;
    PlainLinesOfNothing();
    if |lines| == 1 {
      if lines[0] != "" {
        PlainLine(lines[0], "");
        assert lines[0] + "" == lines[0];
      }
    } else if |lines| > 1 {
      var tail := Join("\n", lines[1..]);
      PlainLine(lines[0], "\n" + tail);
      assert lines[0] + ("\n" + tail) == lines[0] + "\n" + tail;
      assert ("\n" + tail)[1..] == tail;
      PlainLinesOfJoin(lines[1..]);
      assert [lines[0]] + Rejoined(lines[1..]) == Rejoined(lines);
    }
  }

  lemma PlainLinesOfNothing()
    ensures PlainLines("") == []
  {
  }

  lemma {:induction false} ScanOfPrefix(s: seq<Info>, last: Info, blanks: nat)
    ensures Accepts(Scan(s, blanks)) ==> Accepts(Scan(s + [last], blanks))
    ensures var r, all := Scan(s, blanks), Scan(s + [last], blanks);
            r.strong <= all.strong && r.body <= all.body && (r.definition ==> all.definition) && r.content <= all.content
  {
    if s != [] {
      assert (s + [last])[1..] == s[1..] + [last];
      ScanOfPrefix(s[1..], last, if s[0].blank then blanks + 1 else 0);
    }
  }

  lemma {:induction false} NoSpanOfPrefix(s: seq<Info>, last: Info)
    requires NoSpan(s + [last])
    ensures NoSpan(s)
  {
    if s != [] {
      ScanOfPrefix(s, last, 0);
      assert (s + [last])[1..] == s[1..] + [last];
      NoSpanOfPrefix(s[1..], last);
    }
  }

  lemma {:induction false} InfosOfPrefix(v: Verdicts, lines: seq<string>, last: string, fence: Option<string>)
    ensures exists info :: Infos(v, lines + [last], fence) == Infos(v, lines, fence) + [info]
  {
    hide FenceMarker, ClosesFence, LeadingIndent, IsBlank;
    if lines == [] {
      assert lines + [last] == [last] && [last][1..] == [];
      assert Infos(v, lines + [last], fence) == Infos(v, lines, fence) + [Infos(v, [last], fence)[0]];
    } else {
      assert (lines + [last])[1..] == lines[1..] + [last];
      var next := NextFence(lines[0], fence);
      InfosOfPrefix(v, lines[1..], last, next);
      var info :| Infos(v, lines[1..] + [last], next) == Infos(v, lines[1..], next) + [info];
      assert Infos(v, lines + [last], fence) == Infos(v, lines, fence) + [info];
    }
  }

  lemma NoSpanOfRejoined(v: Verdicts, lines: seq<string>)
    requires NoSpan(Infos(v, lines, None))
    ensures NoSpan(Infos(v, Rejoined(lines), None))
  {
    hide NoSpan, Infos;
    if lines != [] && lines[|lines| - 1] == "" {
      var init := lines[..|lines| - 1];
      assert lines == init + [""];
      InfosOfPrefix(v, init, "", None);
      var info :| Infos(v, lines, None) == Infos(v, init, None) + [info];
      NoSpanOfPrefix(Infos(v, init, None), info);
    }
  }

  lemma NoNewlinesAppend(a: seq<string>, b: seq<string>)
    requires NoNewlines(a) && NoNewlines(b)
    ensures NoNewlines(a + b)
  {
  }

  lemma NoNewlinesSlice(lines: seq<string>, n: nat)
    requires n <= |lines| && NoNewlines(lines)
    ensures NoNewlines(lines[..n]) && NoNewlines(lines[n..])
  {
  }

  lemma SpansAreLines(v: Verdicts, body: seq<string>, open: bool, spaced: bool)
    requires NoNewlines(body)
    ensures NoNewlines(Texts(FenceSpan(v, body, open) + BlankIf(spaced)))
  {
    hide FenceSpan, Texts, BlankIf, LanguageName, Join;
    SpanTexts(v, body, open);
    OpenersAreLines(v.language(Join("\n", body)));
    OpenersAreLines(None);
    assert FENCE + "" == FENCE;
    TextsAppend(FenceSpan(v, body, open), BlankIf(spaced));
    TextsOfBlank(spaced);
  }

  /** No line put in or carried over contains a newline. */
  lemma {:induction false} FencedLinesAreLines(v: Verdicts, lines: seq<string>, infos: seq<Info>, open: bool)
    requires |lines| == |infos| && NoNewlines(lines)
    ensures NoNewlines(Texts(FenceLines(v, lines, infos, open)))
    decreases |lines|
  {
    hide Scan, IsBlank, FenceSpan, Texts, NoNewlines, BlankIf;
    if lines == [] {
      assert Texts([]) == [];
    } else if StartsSpan(infos) {
      var n := Scan(infos, 0).content;
      var spaced := n < |lines| && lines[n] != "";
      var later := FenceLines(v, lines[n..], infos[n..], !spaced);
      NoNewlinesSlice(lines, n);
      FencedLinesAreLines(v, lines[n..], infos[n..], !spaced);
      SpansAreLines(v, lines[..n], open, spaced);
      TextsAppend(FenceSpan(v, lines[..n], open) + BlankIf(spaced), later);
      NoNewlinesAppend(Texts(FenceSpan(v, lines[..n], open) + BlankIf(spaced)), Texts(later));
    } else {
      var later := FenceLines(v, lines[1..], infos[1..], !IsBlank(lines[0]));
      NoNewlinesSlice(lines, 1);
      FencedLinesAreLines(v, lines[1..], infos[1..], !IsBlank(lines[0]));
      TextsAppend([Kept(lines[0])], later);
      TextsOfOne(Kept(lines[0]));
      assert lines[..1] == [lines[0]];
      NoNewlinesAppend([lines[0]], Texts(later));
    }
  }

  lemma OpenersAreLines(language: Option<Language>)
    ensures '\n' !in FENCE + LanguageName(language)
  {
  }

  /** A second pass finds nothing to fence. */
  lemma FencedTextIsClean(v: Detector, text: string)
    ensures Spans(Infos(v, PlainLines(FenceText(v, text)), None), 0) == map[]
  {
    hide Infos, Scan, Texts, Join, PlainLines, FenceLines, Spans;
    var lines := PlainLines(text);
    var infos := Infos(v, lines, None);
    if Spans(infos, 0) != map[] {
      var out := Texts(FencedOutput(v, text));
      FencedLinesAreLines(v, lines, infos, false);
      PlainLinesOfJoin(out);
      FencedTextHasNoSpan(v, lines, None, false);
      NoSpanOfRejoined(v, out);
      var again := Infos(v, Rejoined(out), None);
      assert again[0..] == again;
      NoSpanMeansNoSpans(again, 0);
    }
  }

  /** `fence_unfenced_code` is idempotent. */
  lemma FencingIsIdempotent(v: Detector, text: string)
    ensures FenceText(v, FenceText(v, text)) == FenceText(v, text)
  {
    hide Infos, PlainLines, Spans;
    FencedTextIsClean(v, text);
  }

  /** The lines of the text are the lines of the result that were not put in. */
  lemma FencingLosesNothing(v: Verdicts, text: string)
    ensures Originals(FencedOutput(v, text)) == PlainLines(text)
  {
    FencingKeepsLines(v, PlainLines(text), Infos(v, PlainLines(text), None), false);
  }

  /** `done` is the result for the lines before `index`; `spans` is right from there on. */
  ghost predicate Fencing(v: Verdicts, lines: seq<string>, infos: seq<Info>, spans: map<nat, nat>,
                          whole: seq<OutLine>, index: nat, open: bool, done: seq<OutLine>)
  {
    && |lines| == |infos| && index <= |lines|
    && whole == done + FenceLines(v, lines[index..], infos[index..], open)
    && (forall k: nat :: index <= k ==> (k in spans <==> k in Spans(infos, index)))
    && (forall k: nat :: index <= k && k in spans ==> spans[k] == Spans(infos, index)[k])
  }

  lemma CarryOver(v: Verdicts, lines: seq<string>, infos: seq<Info>, spans: map<nat, nat>,
                  whole: seq<OutLine>, index: nat, open: bool, done: seq<OutLine>)
    requires Fencing(v, lines, infos, spans, whole, index, open, done)
    requires index < |lines| && index !in spans
    ensures Fencing(v, lines, infos, spans, whole, index + 1, !IsBlank(lines[index]), done + [Kept(lines[index])])
  {
    hide Scan, IsBlank, StartsSpan, Spans;
    SpansStep(infos, index);
    assert lines[index..][1..] == lines[index + 1..] && infos[index..][1..] == infos[index + 1..];
    var later := FenceLines(v, lines[index + 1..], infos[index + 1..], !IsBlank(lines[index]));
    assert FenceLines(v, lines[index..], infos[index..], open) == [Kept(lines[index])] + later;
    assert done + ([Kept(lines[index])] + later) == done + [Kept(lines[index])] + later;
  }

  lemma EmitSpan(v: Verdicts, lines: seq<string>, infos: seq<Info>, spans: map<nat, nat>,
                 whole: seq<OutLine>, index: nat, open: bool, done: seq<OutLine>)
    requires Fencing(v, lines, infos, spans, whole, index, open, done)
    requires index < |lines| && index in spans
    ensures index < spans[index] <= |lines|
    ensures var end := spans[index];
            var spaced := (end < |lines| && lines[end] != "");
            Fencing(v, lines, infos, spans, whole, end, !spaced,
                    done + (FenceSpan(v, lines[index..end], open) + BlankIf(spaced)))
  {
    hide Scan, IsBlank, Spans, FenceSpan, BlankIf;
    SpansStep(infos, index);
    var n := Scan(infos[index..], 0).content;
    var end := index + n;
    assert StartsSpan(infos[index..]) && spans[index] == end;
    var spaced := (end < |lines| && lines[end] != "");
    assert lines[index..][..n] == lines[index..end];
    assert lines[index..][n..] == lines[end..] && infos[index..][n..] == infos[end..];
    var later := FenceLines(v, lines[end..], infos[end..], !spaced);
    var piece := FenceSpan(v, lines[index..end], open) + BlankIf(spaced);
    assert FenceLines(v, lines[index..], infos[index..], open) == piece + later;
    assert done + (piece + later) == done + piece + later;
  }

  /** Appends one fenced span, set off by blank lines where the text runs on. */
  method AppendSpan(v: Detector, before: seq<string>, body: seq<string>, spaced: bool) returns (output: seq<string>)
    ensures var open := (before != [] && !IsBlank(before[|before| - 1]));
            output == before + (if open then [""] else []) + [Opener(v, body)] + body + [FENCE]
                      + (if spaced then [""] else [])
  {
    hide IsBlank, Join, LanguageName;
    output := before;
    if output != [] && !IsBlank(output[|output| - 1]) {
      output := output + [""];
    }
    var language := v.language(Join("\n", body));
    output := output + [FENCE + LanguageName(language)] + body + [FENCE];
    if spaced {
      output := output + [""];
    }
  }

  method FenceUnfencedCode(v: Detector, text: string) returns (r: string)
    ensures r == FenceText(v, text)
  {
    hide Infos, IsBlank, Join, PlainLines, Scan, LanguageName, FenceLines, Spans, FenceSpan, Fencing, Texts, Opener, BlankIf;
    var lines := PlainLines(text);
    var spans := DetectCodeSpans(v, lines);
    if spans == map[] {
      return text;
    }
    ghost var infos, whole := Infos(v, lines, None), FencedOutput(v, text);
    var output: seq<string> := [];
    var index := 0;
    ghost var open := false;
    ghost var done: seq<OutLine> := [];
    StartFencing(v, text);
    while index < |lines|
      invariant index <= |lines|
      invariant output == Texts(done)
      invariant open == (output != [] && !IsBlank(output[|output| - 1]))
      invariant Fencing(v, lines, infos, spans, whole, index, open, done)
      decreases |lines| - index
    {
      if index !in spans {
        CarryOver(v, lines, infos, spans, whole, index, open, done);
        TextsOfKept(done, lines[index]);
        done, open := done + [Kept(lines[index])], !IsBlank(lines[index]);
        output := output + [lines[index]];
        index := index + 1;
        continue;
      }
      EmitSpan(v, lines, infos, spans, whole, index, open, done);
      var end := spans[index];
      var body := lines[index..end];
      var spaced := end < |lines| && lines[end] != "";
      TextsOfSpan(v, done, body, open, spaced);
      output := AppendSpan(v, output, body, spaced);
      done := done + (FenceSpan(v, body, open) + BlankIf(spaced));
      open, index := !spaced, end;
      BlankOrNot();
    }
    EndFencing(v, text, spans, open, done);
    return Join("\n", output);
  }

  lemma StartFencing(v: Detector, text: string)
    ensures var lines := PlainLines(text);
            var infos := Infos(v, lines, None);
            Fencing(v, lines, infos, Spans(infos, 0), FencedOutput(v, text), 0, false, []) && Texts([]) == []
  {
    hide Infos, PlainLines, FenceLines, Spans;
    var lines := PlainLines(text);
    assert lines[0..] == lines && Infos(v, lines, None)[0..] == Infos(v, lines, None);
    assert [] + FencedOutput(v, text) == FencedOutput(v, text);
  }

  lemma EndFencing(v: Detector, text: string, spans: map<nat, nat>, open: bool, done: seq<OutLine>)
    requires var lines := PlainLines(text);
             Fencing(v, lines, Infos(v, lines, None), spans, FencedOutput(v, text), |lines|, open, done)
    ensures done == FencedOutput(v, text)
  {
    hide Infos, PlainLines, FenceLines, Spans;
    var lines := PlainLines(text);
    NothingToFence(v, open);
    assert lines[|lines|..] == [] && Infos(v, lines, None)[|lines|..] == [];
    assert done + [] == done;
  }

  lemma TextsOfKept(done: seq<OutLine>, line: string)
    ensures Texts(done + [Kept(line)]) == Texts(done) + [line]
  {
    TextsAppend(done, [Kept(line)]);
    assert Texts([Kept(line)]) == [line];
  }

  lemma TextsOfSpan(v: Verdicts, done: seq<OutLine>, body: seq<string>, open: bool, spaced: bool)
    ensures Texts(done + (FenceSpan(v, body, open) + BlankIf(spaced)))
         == Texts(done) + (if open then [""] else []) + [Opener(v, body)] + body + [FENCE]
            + (if spaced then [""] else [])
  {
    hide FenceSpan, Opener, Texts;
    SpanTexts(v, body, open);
    TextsAppend(done, FenceSpan(v, body, open) + BlankIf(spaced));
    TextsAppend(FenceSpan(v, body, open), BlankIf(spaced));
    TextsOfBlank(spaced);
    var lead := if open then [""] else [];
    var tail := if spaced then [""] else [];
    assert Texts(done) + (lead + [Opener(v, body)] + body + [FENCE] + tail)
        == Texts(done) + lead + [Opener(v, body)] + body + [FENCE] + tail;
  }

  lemma TextsOfBlank(spaced: bool)
    ensures Texts(BlankIf(spaced)) == if spaced then [""] else []
  {
  }

  lemma BlankOrNot()
    ensures IsBlank("") && !IsBlank(FENCE)
  {
    assert !IsSpace(FENCE[0]);
  }
}
