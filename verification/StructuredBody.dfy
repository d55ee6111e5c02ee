/**
 Splitting a reply into code blocks, box tables and plain runs, and each of
 them into pages: `_split_code_block`, `_split_box_table`,
 `_split_structured_body`.
 */
module StructuredBody {
  import opened Wrappers
  import opened TextUnits
  import opened TextSplit
  import opened FenceRules
  import opened PagePacking

  // ---- Code blocks ------------------------------------------------------------

  /** The opening line, its fence closed by the last line. */
  predicate IsClosedCode(lines: seq<string>, style: CodeStyle)
  {
    && |lines| >= 2
    && CodeFenceOpen(lines[0], style).Some?
    && CodeFenceCloses(lines[|lines| - 1], CodeFenceOpen(lines[0], style).value, style)
  }

  function CodeContent(lines: seq<string>): (s: string)
    requires |lines| >= 2
  {
    Concat(lines[1..|lines| - 1])
  }

  function CodeRoom(lines: seq<string>, u: Unit, limit: int): int
    requires |lines| >= 2
  {
    limit - Measure(u, RightTrimNewlines(lines[0]) + "\n")
    - Measure(u, RightTrimNewlines(lines[|lines| - 1])) - Measure(u, "\n")
  }

  function Wrap(opener: string, body: string, closer: string): string
  {
    opener + "\n" + body + "\n" + closer
  }

  function WrapAll(opener: string, bodies: seq<string>, closer: string): (pages: seq<string>)
    ensures |pages| == |bodies|
    ensures forall i :: 0 <= i < |pages| ==> pages[i] == Wrap(opener, bodies[i], closer)
  {
    if bodies == [] then [] else [Wrap(opener, bodies[0], closer)] + WrapAll(opener, bodies[1..], closer)
  }

  function SplitClosedCode(inl: Inline, u: Unit, lines: seq<string>, limit: int): (r: Pages)
    requires |lines| >= 2
  {
    if CodeRoom(lines, u, limit) <= 0 then Err(FenceTooLarge)
    else
      match Split(inl, u, CodeContent(lines), CodeRoom(lines, u, limit))
      case Err(e) => Err(e)
      case Ok(bodies) =>
        Ok(WrapAll(RightTrimNewlines(lines[0]), bodies, RightTrimNewlines(lines[|lines| - 1])))
  }

  function SplitCode(inl: Inline, u: Unit, style: CodeStyle, block: string, limit: int): (r: Pages)
  {
    if IsClosedCode(Lines(block), style) then SplitClosedCode(inl, u, Lines(block), limit)
    else Split(inl, u, block, limit)
  }

  method SplitCodeBlock(inl: Inline, u: Unit, style: CodeStyle, block: string, limit: int) returns (r: Pages)
    ensures r == SplitCode(inl, u, style, block, limit)
  {
    var lines := Lines(block);
    if |lines| < 2 {
      r := SplitTextPreserving(inl, u, block, limit);
      return;
    }
    var opening := CodeFenceOpen(lines[0], style);
    if opening.None? || !CodeFenceCloses(lines[|lines| - 1], opening.value, style) {
      r := SplitTextPreserving(inl, u, block, limit);
      return;
    }
    r := WrapPages(inl, u, lines, limit);
  }

  /** The rest of `_split_code_block`, once the fence is known to be closed. */
  method WrapPages(inl: Inline, u: Unit, lines: seq<string>, limit: int) returns (r: Pages)
    requires |lines| >= 2
    ensures r == SplitClosedCode(inl, u, lines, limit)
  {
    hide Measure, RightTrimNewlines, SplitFrom;
    var opener := RightTrimNewlines(lines[0]);
    var closer := RightTrimNewlines(lines[|lines| - 1]);
    var content := Concat(lines[1..|lines| - 1]);
    var available := limit - Measure(u, opener + "\n") - Measure(u, closer) - Measure(u, "\n");
    if available <= 0 {
      return Err(FenceTooLarge);
    }
    var parts: Pages := Ok([""]);
    if content != "" {
      parts := SplitTextPreserving(inl, u, content, available);
    }
    if parts.Err? {
      return parts;
    }
    var result := WrapParts(opener, parts.value, closer);
    return Ok(result);
  }

  method WrapParts(opener: string, parts: seq<string>, closer: string) returns (result: seq<string>)
    ensures result == WrapAll(opener, parts, closer)
  {
    var prefix := opener + "\n";
    result := [];
    for i := 0 to |parts|
      invariant result == WrapAll(opener, parts, closer)[..i]
    {
      result := result + [prefix + parts[i] + "\n" + closer];
    }
  }

  /**
   Every page of a closed code block starts with the original opener, ends
   with the original closer and fits; the bodies joined are the code exactly.
   */
  lemma CodePagesKeepTheCode(inl: Inline, u: Unit, style: CodeStyle, block: string, limit: int)
    returns (bodies: seq<string>)
    requires IsClosedCode(Lines(block), style)
    ensures var lines := Lines(block);
            var opener := RightTrimNewlines(lines[0]);
            var closer := RightTrimNewlines(lines[|lines| - 1]);
            var r := SplitCode(inl, u, style, block, limit);
            && (r.Ok? <==> CodeRoom(lines, u, limit) > 0
                           && EveryCharFits(u, CodeContent(lines), CodeRoom(lines, u, limit)))
            && (r.Ok? ==>
                  && r.value == WrapAll(opener, bodies, closer)
                  && bodies != []
                  && lines[0] + Concat(bodies) + lines[|lines| - 1] == block
                  && AllFit(u, r.value, limit))
  {
    hide Measure, RightTrimNewlines, CodeFenceOpen, CodeFenceCloses, Lines, EveryCharFits;
    var lines := Lines(block);
    var room := CodeRoom(lines, u, limit);
    SplitIsLosslessAndBounded(inl, u, CodeContent(lines), room);
    bodies := match Split(inl, u, CodeContent(lines), room) case Ok(b) => b case Err(_) => [];
    CodeIsItsParts(block);
    if room > 0 {
      WrappedPagesFit(u, RightTrimNewlines(lines[0]), bodies, RightTrimNewlines(lines[|lines| - 1]), room, limit);
    }
  }

  lemma CodeIsItsParts(block: string)
    requires |Lines(block)| >= 2
    ensures var lines := Lines(block); lines[0] + CodeContent(lines) + lines[|lines| - 1] == block
  {
    LinesOfText(block);
    var lines := Lines(block);
    assert lines == [lines[0]] + lines[1..|lines| - 1] + [lines[|lines| - 1]];
    ConcatAppend([lines[0]] + lines[1..|lines| - 1], [lines[|lines| - 1]]);
    ConcatAppend([lines[0]], lines[1..|lines| - 1]);
    ConcatOne(lines[0]);
    ConcatOne(lines[|lines| - 1]);
  }

  lemma WrappedPagesFit(u: Unit, opener: string, bodies: seq<string>, closer: string, room: int, limit: int)
    requires AllFit(u, bodies, room)
    requires room == limit - Measure(u, opener + "\n") - Measure(u, closer) - Measure(u, "\n")
    ensures AllFit(u, WrapAll(opener, bodies, closer), limit)
  {
    var pages := WrapAll(opener, bodies, closer);
    forall i | 0 <= i < |pages| ensures Measure(u, pages[i]) <= limit {
      MeasureWrap(u, opener, bodies[i], closer);
    }
  }

  lemma MeasureWrap(u: Unit, opener: string, body: string, closer: string)
    ensures Measure(u, Wrap(opener, body, closer))
         == Measure(u, opener + "\n") + Measure(u, body) + Measure(u, "\n") + Measure(u, closer)
  {
    MeasureAppend(u, opener + "\n", body);
    MeasureAppend(u, opener + "\n" + body, "\n");
    MeasureAppend(u, opener + "\n" + body + "\n", closer);
  }

  lemma ConcatOne(s: string)
    ensures Concat([s]) == s
  {
    assert [s][1..] == [] && s + "" == s;
  }

  // ---- Box tables ----------------------------------------------------------------

  const FOLD_NOTE := "表格行（单元格过长，已折行）：\n"

  /** A table page holding some rows, or one row too long for any table page. */
  datatype Segment = Rows(rows: seq<string>) | Folded(row: string)

  datatype BoxTable = BoxTable(header: seq<string>, footer: string)

  function TablePage(t: BoxTable, rows: seq<string>): string
  {
    Join("\n", t.header + rows + [t.footer])
  }

  predicate RowsFit(t: BoxTable, rows: seq<string>, u: Unit, limit: int)
  {
    Measure(u, TablePage(t, rows)) <= limit
  }

  /** The greedy layout of `rows` behind a page that already holds `current`. */
  function Segments(t: BoxTable, current: seq<string>, rows: seq<string>, u: Unit, limit: int): (s: seq<Segment>)
    decreases |rows|
  {
    if rows == [] then CloseRows(current)
    else if RowsFit(t, current + [rows[0]], u, limit) then
      Segments(t, current + [rows[0]], rows[1..], u, limit)
    else if RowsFit(t, [rows[0]], u, limit) then
      CloseRows(current) + Segments(t, [rows[0]], rows[1..], u, limit)
    else
      CloseRows(current) + [Folded(rows[0])] + Segments(t, [], rows[1..], u, limit)
  }

  function CloseRows(current: seq<string>): seq<Segment>
  {
    if current == [] then [] else [Rows(current)]
  }

  function SegmentRows(segments: seq<Segment>): (rows: seq<string>)
  {
    if segments == [] then []
    else (match segments[0] case Rows(rows) => rows case Folded(row) => [row]) + SegmentRows(segments[1..])
  }

  function SegmentPages(inl: Inline, t: BoxTable, s: Segment, u: Unit, limit: int): Pages
  {
    match s
    case Rows(rows) => Ok([TablePage(t, rows)])
    case Folded(row) => Split(inl, u, FOLD_NOTE + row, limit)
  }

  function AllSegmentPages(inl: Inline, t: BoxTable, segments: seq<Segment>, u: Unit, limit: int): Pages
  {
    if segments == [] then Ok([])
    else Then(SegmentPages(inl, t, segments[0], u, limit), AllSegmentPages(inl, t, segments[1..], u, limit))
  }

  function SplitTable(inl: Inline, u: Unit, lines: seq<string>, limit: int): (r: Pages)
  {
    if |lines| < 4 then Split(inl, u, Join("\n", lines), limit)
    else
      var t := BoxTable(lines[..3], lines[|lines| - 1]);
      var rows := lines[3..|lines| - 1];
      if !RowsFit(t, [], u, limit) then Err(TableTooLarge)
      else
        match AllSegmentPages(inl, t, Segments(t, [], rows, u, limit), u, limit)
        case Err(e) => Err(e)
        case Ok(pages) => Ok(if pages == [] then [TablePage(t, [])] else pages)
  }

  /** `pages` are out, `held` rows wait for their page, and `rows` are still to come. */
  ghost predicate AtRow(inl: Inline, t: BoxTable, u: Unit, limit: int, whole: Pages,
                        pages: seq<string>, held: seq<string>, rows: seq<string>)
  {
    whole == Prepend(pages, AllSegmentPages(inl, t, Segments(t, held, rows, u, limit), u, limit))
  }

  lemma HoldRow(inl: Inline, t: BoxTable, u: Unit, limit: int, whole: Pages, pages: seq<string>, held: seq<string>,
                rows: seq<string>)
    requires AtRow(inl, t, u, limit, whole, pages, held, rows)
    requires rows != [] && RowsFit(t, held + [rows[0]], u, limit)
    ensures AtRow(inl, t, u, limit, whole, pages, held + [rows[0]], rows[1..])
  {
    hide RowsFit;
  }

  lemma CloseHeld(inl: Inline, t: BoxTable, u: Unit, limit: int, whole: Pages, pages: seq<string>, held: seq<string>,
                  rows: seq<string>)
    requires AtRow(inl, t, u, limit, whole, pages, held, rows)
    requires held != [] && rows != [] && !RowsFit(t, held + [rows[0]], u, limit)
    ensures AtRow(inl, t, u, limit, whole, pages + [TablePage(t, held)], [], rows)
  {
    hide RowsFit, AllSegmentPages, Segments;
    var row, later := rows[0], rows[1..];
    assert rows == [row] + later;
    ClosedPageFirst(inl, t, held, row, later, u, limit);
    PrependTwice(pages, [TablePage(t, held)], AllSegmentPages(inl, t, Segments(t, [], rows, u, limit), u, limit));
  }

  lemma FoldRow(inl: Inline, t: BoxTable, u: Unit, limit: int, whole: Pages, pages: seq<string>, rows: seq<string>)
    requires AtRow(inl, t, u, limit, whole, pages, [], rows)
    requires rows != [] && !RowsFit(t, [rows[0]], u, limit)
    ensures var folded := Split(inl, u, FOLD_NOTE + rows[0], limit);
            if folded.Err? then whole == folded
            else AtRow(inl, t, u, limit, whole, pages + folded.value, [], rows[1..])
  {
    hide RowsFit, AllSegmentPages, Segments, Split;
    var row, later := rows[0], rows[1..];
    assert rows == [row] + later;
    FoldedFirst(inl, t, row, later, u, limit);
    var folded := Split(inl, u, FOLD_NOTE + row, limit);
    if folded.Ok? {
      PrependTwice(pages, folded.value, AllSegmentPages(inl, t, Segments(t, [], later, u, limit), u, limit));
    }
  }

  lemma NoRowsLeft(inl: Inline, t: BoxTable, u: Unit, limit: int, whole: Pages, pages: seq<string>, held: seq<string>)
    requires AtRow(inl, t, u, limit, whole, pages, held, [])
    ensures whole == Ok(if held == [] then pages else pages + [TablePage(t, held)])
  {
    OnePage(inl, t, held, u, limit);
    assert pages + [] == pages;
  }

  lemma FirstRow(inl: Inline, u: Unit, lines: seq<string>, limit: int)
    requires 4 <= |lines|
    ensures var t := BoxTable(lines[..3], lines[|lines| - 1]);
            var rows := lines[3..|lines| - 1];
            var whole := AllSegmentPages(inl, t, Segments(t, [], rows, u, limit), u, limit);
            && AtRow(inl, t, u, limit, whole, [], [], rows)
            && SplitTable(inl, u, lines, limit) ==
                 if !RowsFit(t, [], u, limit) then Err(TableTooLarge)
                 else if whole == Ok([]) then Ok([TablePage(t, [])]) else whole
  {
    hide RowsFit, AllSegmentPages, Segments, TablePage;
    var t := BoxTable(lines[..3], lines[|lines| - 1]);
    PrependNothing(AllSegmentPages(inl, t, Segments(t, [], lines[3..|lines| - 1], u, limit), u, limit));
  }

  /** The current page with further rows and the footer is a table page. */
  lemma PageText(t: BoxTable, held: seq<string>, more: seq<string>)
    ensures Join("\n", t.header + held + (more + [t.footer])) == TablePage(t, held + more)
  {
    assert t.header + held + (more + [t.footer]) == t.header + (held + more) + [t.footer];
  }

  method SplitBoxTable(inl: Inline, u: Unit, lines: seq<string>, limit: int) returns (r: Pages)
    ensures r == SplitTable(inl, u, lines, limit)
  {
    hide Measure, Join, Split, AtRow, AllSegmentPages, Segments, TablePage;
    if |lines| < 4 {
      r := SplitTextPreserving(inl, u, Join("\n", lines), limit);
      return;
    }
    hide SplitTable;
    FirstRow(inl, u, lines, limit);
    var header, footer := lines[..3], lines[|lines| - 1];
    var dataRows := lines[3..|lines| - 1];
    ghost var t := BoxTable(header, footer);
    PageText(t, [], []);
    assert header + [] + ([] + [footer]) == header + [footer];
    assert t.header + [] == t.header;
    var none: seq<string> := [];
    assert none + none == none;
    if Measure(u, Join("\n", header + [footer])) > limit {
      return Err(TableTooLarge);
    }
    assert RowsFit(t, [], u, limit);
    ghost var whole := AllSegmentPages(inl, t, Segments(t, [], dataRows, u, limit), u, limit);
    var pages: seq<string> := [];
    var current := header;
    ghost var held: seq<string> := [];
    assert dataRows[0..] == dataRows;
    for i := 0 to |dataRows|
      invariant current == header + held
      invariant AtRow(inl, t, u, limit, whole, pages, held, dataRows[i..])
    {
      var row := dataRows[i];
      assert dataRows[i..][0] == row && dataRows[i..][1..] == dataRows[i + 1..];
      PageText(t, held, [row]);
      assert current + [row, footer] == header + held + ([row] + [footer]);
      if Measure(u, Join("\n", current + [row, footer])) <= limit {
        HoldRow(inl, t, u, limit, whole, pages, held, dataRows[i..]);
        current, held := current + [row], held + [row];
        continue;
      }
      if |current| > |header| {
        CloseHeld(inl, t, u, limit, whole, pages, held, dataRows[i..]);
        PageText(t, held, []);
        assert current + [footer] == header + held + ([] + [footer]) && held + [] == held;
        pages := pages + [Join("\n", current + [footer])];
        current, held := header, [];
      }
      PageText(t, [], [row]);
      assert current + [row, footer] == header + [] + ([row] + [footer]) && [] + [row] == [row];
      if Measure(u, Join("\n", current + [row, footer])) <= limit {
        HoldRow(inl, t, u, limit, whole, pages, [], dataRows[i..]);
        current, held := current + [row], [row];
      } else {
        FoldRow(inl, t, u, limit, whole, pages, dataRows[i..]);
        var folded := SplitTextPreserving(inl, u, FOLD_NOTE + row, limit);
        if folded.Err? {
          return folded;
        }
        pages := pages + folded.value;
      }
    }
    assert dataRows[|dataRows|..] == [];
    NoRowsLeft(inl, t, u, limit, whole, pages, held);
    PageText(t, held, []);
    assert current + [footer] == header + held + ([] + [footer]) && held + [] == held;
    assert Join("\n", current + [footer]) == TablePage(t, held);
    assert pages == [] ==> pages + [TablePage(t, [])] == [TablePage(t, [])];
    if |current| > |header| || pages == [] {
      pages := pages + [Join("\n", current + [footer])];
    }
    return Ok(pages);
  }

  lemma PrependTwice(a: seq<string>, b: seq<string>, r: Pages)
    ensures Prepend(a, Prepend(b, r)) == Prepend(a + b, r)
  {
    if r.Ok? {
      assert a + (b + r.value) == a + b + r.value;
    }
  }

  lemma OnePage(inl: Inline, t: BoxTable, held: seq<string>, u: Unit, limit: int)
    ensures AllSegmentPages(inl, t, CloseRows(held), u, limit)
         == Ok(if held == [] then [] else [TablePage(t, held)])
  {
    if held != [] {
      assert CloseRows(held)[1..] == [];
      assert [TablePage(t, held)] + [] == [TablePage(t, held)];
    }
  }

  /** A row that does not fit behind `held` closes the page first. */
  lemma ClosedPageFirst(inl: Inline, t: BoxTable, held: seq<string>, row: string, later: seq<string>, u: Unit, limit: int)
    requires held != [] && !RowsFit(t, held + [row], u, limit)
    ensures AllSegmentPages(inl, t, Segments(t, held, [row] + later, u, limit), u, limit)
         == Prepend([TablePage(t, held)], AllSegmentPages(inl, t, Segments(t, [], [row] + later, u, limit), u, limit))
  {
    var rows := [row] + later;
    assert rows[1..] == later && [] + [row] == [row];
    var after := Segments(t, [], rows, u, limit);
    assert Segments(t, held, rows, u, limit) == [Rows(held)] + after by {
      if !RowsFit(t, [row], u, limit) {
        var tail := Segments(t, [], later, u, limit);
        assert after == CloseRows([]) + [Folded(row)] + tail == [Folded(row)] + tail;
        assert [Rows(held)] + [Folded(row)] + tail == [Rows(held)] + ([Folded(row)] + tail);
      }
    }
    assert ([Rows(held)] + after)[1..] == after;
  }

  lemma FoldedFirst(inl: Inline, t: BoxTable, row: string, later: seq<string>, u: Unit, limit: int)
    requires !RowsFit(t, [row], u, limit)
    ensures AllSegmentPages(inl, t, Segments(t, [], [row] + later, u, limit), u, limit)
         == Then(Split(inl, u, FOLD_NOTE + row, limit),
                 AllSegmentPages(inl, t, Segments(t, [], later, u, limit), u, limit))
  {
    var rows := [row] + later;
    assert rows[1..] == later && [] + [row] == [row];
    var tail := Segments(t, [], later, u, limit);
    assert Segments(t, [], rows, u, limit) == [Folded(row)] + tail by {
      assert CloseRows([]) + [Folded(row)] == [Folded(row)];
    }
    assert ([Folded(row)] + tail)[1..] == tail;
  }

  /** What a layout of `rows` must satisfy. */
  ghost predicate GoodLayout(t: BoxTable, segments: seq<Segment>, rows: seq<string>, u: Unit, limit: int)
  {
    && SegmentRows(segments) == rows
    && forall s :: s in segments ==>
         match s
         case Rows(held) => held != [] && RowsFit(t, held, u, limit)
         case Folded(row) => !RowsFit(t, [row], u, limit)
  }

  /** Every data row is laid out once, in order; a row is folded only when no table page can hold it. */
  lemma {:induction false} LayoutKeepsRows(t: BoxTable, current: seq<string>, rows: seq<string>, u: Unit, limit: int)
    requires current != [] ==> RowsFit(t, current, u, limit)
    ensures GoodLayout(t, Segments(t, current, rows, u, limit), current + rows, u, limit)
    decreases |rows|
  {
    LayoutOfClosed(t, current, u, limit);
    if rows == [] {
      assert current + [] == current;
    } else {
      var row, later := rows[0], rows[1..];
      if RowsFit(t, current + [row], u, limit) {
        LayoutKeepsRows(t, current + [row], later, u, limit);
        assert current + [row] + later == current + rows;
      } else if RowsFit(t, [row], u, limit) {
        LayoutKeepsRows(t, [row], later, u, limit);
        LayoutAppend(t, CloseRows(current), Segments(t, [row], later, u, limit), current, [row] + later, u, limit);
        assert [row] + later == rows;
      } else {
        LayoutKeepsRows(t, [], later, u, limit);
        assert [] + later == later;
        var folded := [Folded(row)];
        assert folded[1..] == [] && SegmentRows(folded) == [row];
        LayoutAppend(t, CloseRows(current), folded, current, [row], u, limit);
        LayoutAppend(t, CloseRows(current) + folded, Segments(t, [], later, u, limit), current + [row], later, u, limit);
        assert current + [row] + later == current + rows;
      }
    }
  }

  lemma LayoutOfClosed(t: BoxTable, current: seq<string>, u: Unit, limit: int)
    requires current != [] ==> RowsFit(t, current, u, limit)
    ensures GoodLayout(t, CloseRows(current), current, u, limit)
  {
    if current != [] {
      assert CloseRows(current)[1..] == [];
      assert current + [] == current;
    }
  }

  lemma LayoutAppend(t: BoxTable, a: seq<Segment>, b: seq<Segment>, rowsA: seq<string>, rowsB: seq<string>, u: Unit,
                     limit: int)
    requires GoodLayout(t, a, rowsA, u, limit) && GoodLayout(t, b, rowsB, u, limit)
    ensures GoodLayout(t, a + b, rowsA + rowsB, u, limit)
  {
    SegmentRowsAppend(a, b);
  }

  lemma {:induction false} SegmentRowsAppend(a: seq<Segment>, b: seq<Segment>)
    ensures SegmentRows(a + b) == SegmentRows(a) + SegmentRows(b)
  {
    if a == [] {
      assert a + b == b;
    } else {
      assert (a + b)[1..] == a[1..] + b;
      SegmentRowsAppend(a[1..], b);
    }
  }

  lemma {:induction false} SegmentPagesFit(inl: Inline, t: BoxTable, segments: seq<Segment>, rows: seq<string>,
                                           u: Unit, limit: int)
    requires 0 <= limit && GoodLayout(t, segments, rows, u, limit)
    ensures var r := AllSegmentPages(inl, t, segments, u, limit);
            && (r.Ok? ==> AllFit(u, r.value, limit) && (segments != [] ==> r.value != []))
            && (r.Ok? <==> forall s :: s in segments && s.Folded? ==> EveryCharFits(u, FOLD_NOTE + s.row, limit))
  {
    if segments != [] {
      var s := segments[0];
      assert s in segments && forall x :: x in segments[1..] ==> x in segments;
      SegmentPagesFit(inl, t, segments[1..], SegmentRows(segments[1..]), u, limit);
      assert forall x :: x in segments <==> x == s || x in segments[1..];
      if s.Folded? {
        SplitIsLosslessAndBounded(inl, u, FOLD_NOTE + s.row, limit);
      }
      var first := SegmentPages(inl, t, s, u, limit);
      var later := AllSegmentPages(inl, t, segments[1..], u, limit);
      if first.Ok? && later.Ok? {
        AllFitAppend(u, first.value, later.value, limit);
      }
    }
  }

  /** A row on a fitting table page would fit on one alone. */
  lemma RowAloneFits(t: BoxTable, held: seq<string>, i: nat, u: Unit, limit: int)
    requires t.header != [] && i < |held| && RowsFit(t, held, u, limit)
    ensures RowsFit(t, [held[i]], u, limit)
  {
    hide Measure, Join;
    var row, before, after := [held[i]], held[..i], held[i + 1..];
    var foot := after + [t.footer];
    assert held == before + row + after;
    assert t.header + held + [t.footer] == t.header + before + (row + foot);
    MeasureJoinAppend(u, "\n", t.header + before, row + foot);
    MeasureJoinAppend(u, "\n", row, foot);
    MeasureJoinAppend(u, "\n", t.header, row + [t.footer]);
    MeasureJoinAppend(u, "\n", row, [t.footer]);
    assert t.header + row + [t.footer] == t.header + (row + [t.footer]);
    if before != [] {
      MeasureJoinAppend(u, "\n", t.header, before);
    } else {
      assert t.header + before == t.header;
    }
    if after != [] {
      MeasureJoinAppend(u, "\n", after, [t.footer]);
    } else {
      assert foot == [t.footer];
    }
  }

  lemma {:induction false} RowIsLaidOut(segments: seq<Segment>, row: string)
    requires row in SegmentRows(segments)
    ensures Folded(row) in segments || exists s :: s in segments && s.Rows? && row in s.rows
  {
    if segments[0].Folded? && segments[0].row == row {
    } else if segments[0].Rows? && row in segments[0].rows {
      assert segments[0] in segments;
    } else {
      RowIsLaidOut(segments[1..], row);
      assert forall s :: s in segments[1..] ==> s in segments;
    }
  }

  lemma {:induction false} FoldedRowIsARow(segments: seq<Segment>, row: string)
    requires Folded(row) in segments
    ensures row in SegmentRows(segments)
  {
    if segments[0] != Folded(row) {
      FoldedRowIsARow(segments[1..], row);
    }
  }

  /** The folded rows are exactly those that no table page can hold. */
  lemma FoldedIff(t: BoxTable, segments: seq<Segment>, rows: seq<string>, u: Unit, limit: int, row: string)
    requires t.header != [] && GoodLayout(t, segments, rows, u, limit)
    ensures Folded(row) in segments <==> row in rows && !RowsFit(t, [row], u, limit)
  {
    hide RowsFit;
    if Folded(row) in segments {
      FoldedRowIsARow(segments, row);
    } else if row in rows {
      RowIsLaidOut(segments, row);
      var s :| s in segments && s.Rows? && row in s.rows;
      var i :| 0 <= i < |s.rows| && s.rows[i] == row;
      RowAloneFits(t, s.rows, i, u, limit);
    }
  }

  /** Folding `row` meets no character too large for a page. */
  predicate CanFold(row: string, u: Unit, limit: int)
  {
    EveryCharFits(u, FOLD_NOTE + row, limit)
  }

  /** Header and footer fit, and so does every row, on a table page or folded. */
  predicate TableFits(t: BoxTable, rows: seq<string>, u: Unit, limit: int)
  {
    RowsFit(t, [], u, limit) && forall row :: row in rows ==> RowsFit(t, [row], u, limit) || CanFold(row, u, limit)
  }

  lemma TableFitsIff(t: BoxTable, segments: seq<Segment>, rows: seq<string>, u: Unit, limit: int)
    requires t.header != [] && GoodLayout(t, segments, rows, u, limit) && RowsFit(t, [], u, limit)
    ensures TableFits(t, rows, u, limit) <==> forall s :: s in segments && s.Folded? ==> CanFold(s.row, u, limit)
  {
    hide RowsFit, CanFold, SegmentRows;
    if TableFits(t, rows, u, limit) {
      forall s | s in segments && s.Folded? ensures CanFold(s.row, u, limit) {
        FoldedIff(t, segments, rows, u, limit, s.row);
      }
    }
    if forall s :: s in segments && s.Folded? ==> CanFold(s.row, u, limit) {
      forall row | row in rows ensures RowsFit(t, [row], u, limit) || CanFold(row, u, limit) {
        FoldedIff(t, segments, rows, u, limit, row);
      }
    }
  }

  /** The pages one segment is sent on. */
  ghost predicate Shows(t: BoxTable, s: Segment, pages: seq<string>)
  {
    match s
    case Rows(held) => pages == [TablePage(t, held)]
    case Folded(row) => Concat(pages) == FOLD_NOTE + row
  }

  ghost predicate ShowsAll(t: BoxTable, segments: seq<Segment>, parts: seq<seq<string>>)
  {
    |parts| == |segments| && forall i :: 0 <= i < |parts| ==> Shows(t, segments[i], parts[i])
  }

  lemma {:induction false} SegmentsAreShown(inl: Inline, t: BoxTable, segments: seq<Segment>, u: Unit, limit: int)
    returns (parts: seq<seq<string>>)
    requires AllSegmentPages(inl, t, segments, u, limit).Ok?
    ensures ShowsAll(t, segments, parts) && Flatten(parts) == AllSegmentPages(inl, t, segments, u, limit).value
  {
    hide TablePage, Split, EveryCharFits;
    if segments == [] {
      parts := [];
    } else {
      var later := SegmentsAreShown(inl, t, segments[1..], u, limit);
      var first := SegmentPages(inl, t, segments[0], u, limit).value;
      if segments[0].Folded? {
        SplitIsLosslessAndBounded(inl, u, FOLD_NOTE + segments[0].row, limit);
      }
      parts := [first] + later;
      assert parts[1..] == later;
    }
  }

  /**
   A box table: every page fits, and its data rows appear once and in order,
   each on a page that repeats header and footer or folded on pages of its own.
   The layout is `segments`, its pages are `parts`.
   */
  lemma TablePagesKeepTheRows(inl: Inline, u: Unit, lines: seq<string>, limit: int)
    returns (segments: seq<Segment>, parts: seq<seq<string>>)
    requires 4 <= |lines| && 0 <= limit
    ensures var t := BoxTable(lines[..3], lines[|lines| - 1]);
            var rows := lines[3..|lines| - 1];
            var r := SplitTable(inl, u, lines, limit);
            && GoodLayout(t, segments, rows, u, limit)
            && (r.Ok? <==> TableFits(t, rows, u, limit))
            && (r.Ok? ==> AllFit(u, r.value, limit) && r.value != [])
            && (r.Ok? && rows == [] ==> r.value == [TablePage(t, [])])
            && (r.Ok? && rows != [] ==> ShowsAll(t, segments, parts) && Flatten(parts) == r.value)
            && (r.Err? ==> r.error == if RowsFit(t, [], u, limit) then CharTooLarge else TableTooLarge)
  {
    hide Split, TablePage, EveryCharFits, Measure;
    var t := BoxTable(lines[..3], lines[|lines| - 1]);
    var rows := lines[3..|lines| - 1];
    segments, parts := Segments(t, [], rows, u, limit), [];
    LayoutKeepsRows(t, [], rows, u, limit);
    assert [] + rows == rows;
    if RowsFit(t, [], u, limit) {
      TableFitsIff(t, segments, rows, u, limit);
      SegmentPagesFit(inl, t, segments, rows, u, limit);
      AllSegmentErrors(inl, t, segments, u, limit);
      if AllSegmentPages(inl, t, segments, u, limit).Ok? {
        parts := SegmentsAreShown(inl, t, segments, u, limit);
      }
    }
  }

  /** The page starts with the table's header. */
  predicate ShowsHeader(t: BoxTable, page: string)
  {
    Join("\n", t.header) <= page
  }

  predicate IsUnbroken(line: string) { '\n' !in line }

  lemma TablePageShowsHeader(t: BoxTable, rows: seq<string>)
    requires t.header != []
    ensures ShowsHeader(t, TablePage(t, rows))
  {
    assert t.header + rows + [t.footer] == t.header + (rows + [t.footer]);
    JoinAppend("\n", t.header, rows + [t.footer]);
  }

  lemma {:induction false} PartLiesInWhole(parts: seq<string>, k: nat) returns (before: string, after: string)
    requires k < |parts|
    ensures Concat(parts) == before + parts[k] + after
  {
    if k == 0 {
      before, after := "", Concat(parts[1..]);
    } else {
      before, after := PartLiesInWhole(parts[1..], k - 1);
      before := parts[0] + before;
      assert parts[0] + (before[|parts[0]|..] + parts[k] + after) == before + parts[k] + after;
    }
  }

  lemma HeaderBreaksTwice(t: BoxTable, page: string) returns (i: nat, j: nat)
    requires |t.header| == 3 && ShowsHeader(t, page)
    ensures i < j < |page| && page[i] == '\n' && page[j] == '\n'
  {
    var first, second := t.header[0], t.header[1];
    assert t.header == [first, second, t.header[2]];
    ThreeLines(first, second, t.header[2]);
    i, j := |first|, |first| + 1 + |second|;
    var head := Join("\n", t.header);
    assert head[i] == '\n' && head[j] == '\n';
  }

  /** The header has two line breaks, a folded row only the one of its note. */
  lemma FoldedPageHasNoHeader(t: BoxTable, row: string, pages: seq<string>, k: nat)
    requires |t.header| == 3 && IsUnbroken(row) && k < |pages| && Concat(pages) == FOLD_NOTE + row
    ensures !ShowsHeader(t, pages[k])
  {
    hide Concat, IsUnbroken, ShowsHeader;
    var whole := FOLD_NOTE + row;
    OnlyTheNoteBreaks(row);
    var before, after := PartLiesInWhole(pages, k);
    assert forall i :: 0 <= i < |pages[k]| ==> pages[k][i] == whole[|before| + i];
    if ShowsHeader(t, pages[k]) {
      var _, _ := HeaderBreaksTwice(t, pages[k]);
    }
  }

  lemma OnlyTheNoteBreaks(row: string)
    requires IsUnbroken(row)
    ensures forall i :: 0 <= i < |FOLD_NOTE + row| && i != 15 ==> (FOLD_NOTE + row)[i] != '\n'
  {
    forall i | 0 <= i < |FOLD_NOTE + row| && i != 15 ensures (FOLD_NOTE + row)[i] != '\n' {
      if i > 15 {
        assert (FOLD_NOTE + row)[i] == row[i - 16];
      }
    }
  }

  /**
   A table shows its header exactly when it has no rows or some row fits on a
   table page; when every row has to be folded, header and footer are never sent.
   */
  lemma HeaderIsShownIff(inl: Inline, u: Unit, lines: seq<string>, limit: int)
    requires 4 <= |lines| && 0 <= limit && forall l :: l in lines ==> IsUnbroken(l)
    ensures var t := BoxTable(lines[..3], lines[|lines| - 1]);
            var rows := lines[3..|lines| - 1];
            var r := SplitTable(inl, u, lines, limit);
            r.Ok? ==> ((exists page :: page in r.value && ShowsHeader(t, page))
                       <==> rows == [] || exists row :: row in rows && RowsFit(t, [row], u, limit))
  {
    hide SplitTable, ShowsHeader, TablePage, RowsFit, Segments;
    var t := BoxTable(lines[..3], lines[|lines| - 1]);
    var rows := lines[3..|lines| - 1];
    var r := SplitTable(inl, u, lines, limit);
    var segments, parts := TablePagesKeepTheRows(inl, u, lines, limit);
    if r.Ok? && rows == [] {
      TablePageShowsHeader(t, []);
      assert TablePage(t, []) in r.value;
    } else if r.Ok? {
      HeaderOnParts(t, segments, parts, rows, u, limit);
    }
  }

  lemma HeaderOnParts(t: BoxTable, segments: seq<Segment>, parts: seq<seq<string>>, rows: seq<string>,
                      u: Unit, limit: int)
    requires |t.header| == 3 && GoodLayout(t, segments, rows, u, limit) && ShowsAll(t, segments, parts)
    requires forall row :: row in rows ==> IsUnbroken(row)
    ensures (exists page :: page in Flatten(parts) && ShowsHeader(t, page))
            <==> exists row :: row in rows && RowsFit(t, [row], u, limit)
  {
    hide ShowsHeader, TablePage, RowsFit, Concat, SegmentRows, Flatten, IsUnbroken;
    if page :| page in Flatten(parts) && ShowsHeader(t, page) {
      var i, k := PartOf(parts, page);
      var s := segments[i];
      assert s in segments && Shows(t, s, parts[i]);
      if s.Folded? {
        FoldedIff(t, segments, rows, u, limit, s.row);
        FoldedPageHasNoHeader(t, s.row, parts[i], k);
        assert false;
      } else {
        RowAloneFits(t, s.rows, 0, u, limit);
        HeldRowIsARow(segments, i, 0);
      }
    }
    if row :| row in rows && RowsFit(t, [row], u, limit) {
      FoldedIff(t, segments, rows, u, limit, row);
      RowIsLaidOut(segments, row);
      var s :| s in segments && s.Rows? && row in s.rows;
      var i :| 0 <= i < |segments| && segments[i] == s;
      assert Shows(t, s, parts[i]);
      TablePageShowsHeader(t, s.rows);
      InFlatten(parts, i, 0);
    }
  }

  lemma {:induction false} PartOf(parts: seq<seq<string>>, page: string) returns (i: nat, k: nat)
    requires page in Flatten(parts)
    ensures i < |parts| && k < |parts[i]| && parts[i][k] == page
  {
    if page in parts[0] {
      i := 0;
      k :| k < |parts[0]| && parts[0][k] == page;
    } else {
      i, k := PartOf(parts[1..], page);
      i := i + 1;
    }
  }

  lemma {:induction false} InFlatten(parts: seq<seq<string>>, i: nat, k: nat)
    requires i < |parts| && k < |parts[i]|
    ensures parts[i][k] in Flatten(parts)
  {
    if i == 0 {
      assert parts[0][k] in parts[0];
    } else {
      InFlatten(parts[1..], i - 1, k);
    }
  }

  lemma {:induction false} HeldRowIsARow(segments: seq<Segment>, i: nat, k: nat)
    requires i < |segments| && segments[i].Rows? && k < |segments[i].rows|
    ensures segments[i].rows[k] in SegmentRows(segments)
  {
    if i == 0 {
      assert segments[0].rows[k] in segments[0].rows;
    } else {
      HeldRowIsARow(segments[1..], i - 1, k);
    }
  }

  /** A table whose one row fits folded but not behind the header: neither header nor footer is sent. */
  lemma HeaderCanBeLost(inl: Inline)
    ensures var lines := ["┌──┐", "│ a│", "├──┤", "│12│", "└──┘"];
            && SplitTable(inl, Chars, lines, 20) == Ok([FOLD_NOTE + "│12│"])
            && RowsFit(BoxTable(lines[..3], "└──┘"), [], Chars, 20)
            && !ShowsHeader(BoxTable(lines[..3], "└──┘"), FOLD_NOTE + "│12│")
  {
    hide Measure;
    var lines := ["┌──┐", "│ a│", "├──┤", "│12│", "└──┘"];
    var t := BoxTable(lines[..3], "└──┘");
    assert t.header == ["┌──┐", "│ a│", "├──┤"] && lines[3..4] == ["│12│"];
    FourLines("┌──┐", "│ a│", "├──┤", "└──┘");
    FiveLines("┌──┐", "│ a│", "├──┤", "│12│", "└──┘");
    assert t.header + [] + [t.footer] == ["┌──┐", "│ a│", "├──┤", "└──┘"];
    assert t.header + ["│12│"] + [t.footer] == ["┌──┐", "│ a│", "├──┤", "│12│", "└──┘"];
    MeasureAtLeastLength(Chars, TablePage(t, []));
    MeasureAtLeastLength(Chars, TablePage(t, ["│12│"]));
    MeasureAtLeastLength(Chars, FOLD_NOTE + "│12│");
    assert Split(inl, Chars, FOLD_NOTE + "│12│", 20) == Ok([FOLD_NOTE + "│12│"]);
    FoldedFirst(inl, t, "│12│", [], Chars, 20);
    assert ["│12│"] + [] == ["│12│"] && [FOLD_NOTE + "│12│"] + [] == [FOLD_NOTE + "│12│"];
    assert AllSegmentPages(inl, t, Segments(t, [], [], Chars, 20), Chars, 20) == Ok([]);
    assert lines[3..|lines| - 1] == ["│12│"];
    assert (FOLD_NOTE + "│12│")[0] == '表' && Join("\n", t.header)[0] == '┌';
  }

  lemma ThreeLines(a: string, b: string, c: string)
    ensures Join("\n", [a, b, c]) == a + "\n" + (b + "\n" + c)
  {
    assert [a, b, c][1..] == [b, c] && [b, c][1..] == [c];
    assert Join("\n", [b, c]) == b + "\n" + c;
  }

  lemma FourLines(a: string, b: string, c: string, d: string)
    ensures Join("\n", [a, b, c, d]) == a + "\n" + (b + "\n" + (c + "\n" + d))
  {
    assert [a, b, c, d][1..] == [b, c, d];
    ThreeLines(b, c, d);
  }

  lemma FiveLines(a: string, b: string, c: string, d: string, e: string)
    ensures Join("\n", [a, b, c, d, e]) == a + "\n" + (b + "\n" + (c + "\n" + (d + "\n" + e)))
  {
    assert [a, b, c, d, e][1..] == [b, c, d, e];
    FourLines(b, c, d, e);
  }

  lemma {:induction false} AllSegmentErrors(inl: Inline, t: BoxTable, segments: seq<Segment>, u: Unit, limit: int)
    ensures var r := AllSegmentPages(inl, t, segments, u, limit); r.Err? ==> r.error == CharTooLarge
  {
    if segments != [] {
      AllSegmentErrors(inl, t, segments[1..], u, limit);
      if segments[0].Folded? {
        SplitIsLosslessAndBounded(inl, u, FOLD_NOTE + segments[0].row, limit);
      }
    }
  }

  // ---- A whole body -----------------------------------------------------------------

  /** Consecutive lines handled as one piece. */
  datatype Block = Plain(lines: seq<string>) | Code(lines: seq<string>) | Table(lines: seq<string>)

  const TABLE_TOP := "┌"
  const TABLE_BOTTOM := "└"

  predicate StartsTable(line: string) { TABLE_TOP <= RightTrimNewlines(line) }

  predicate EndsTable(line: string) { TABLE_BOTTOM <= RightTrimNewlines(line) }

  /** How many of the lines behind an opener belong to its block. */
  function CodeTail(lines: seq<string>, opening: string, style: CodeStyle): (n: nat)
    ensures n <= |lines|
  {
    if lines == [] then 0
    else if CodeFenceCloses(lines[0], opening, style) then 1
    else 1 + CodeTail(lines[1..], opening, style)
  }

  lemma {:induction false} CodeTailStops(lines: seq<string>, opening: string, style: CodeStyle)
    ensures var n := CodeTail(lines, opening, style);
            && (forall i :: 0 <= i < n - 1 ==> !CodeFenceCloses(lines[i], opening, style))
            && (n < |lines| ==> n > 0 && CodeFenceCloses(lines[n - 1], opening, style))
  {
    hide CodeFenceCloses;
    if lines != [] {
      CodeTailStops(lines[1..], opening, style);
    }
  }

  lemma {:induction false} TailPassesContent(body: seq<string>, closer: string, rest: seq<string>,
                                             opening: string, style: CodeStyle)
    requires forall l :: l in body ==> !CodeFenceCloses(l, opening, style)
    requires CodeFenceCloses(closer, opening, style)
    ensures CodeTail(body + ([closer] + rest), opening, style) == |body| + 1
  {
    hide CodeFenceCloses;
    if body == [] {
      assert body + ([closer] + rest) == [closer] + rest;
    } else {
      assert (body + ([closer] + rest))[1..] == body[1..] + ([closer] + rest);
      TailPassesContent(body[1..], closer, rest, opening, style);
    }
  }

  function TableTail(lines: seq<string>): (n: nat)
    ensures n <= |lines|
  {
    if lines == [] then 0
    else if EndsTable(lines[0]) then 1
    else 1 + TableTail(lines[1..])
  }

  lemma {:induction false} TableTailStops(lines: seq<string>)
    ensures forall i :: 0 <= i < TableTail(lines) - 1 ==> !EndsTable(lines[i])
    ensures TableTail(lines) < |lines| ==> TableTail(lines) > 0 && EndsTable(lines[TableTail(lines) - 1])
  {
    hide EndsTable;
    if lines != [] {
      TableTailStops(lines[1..]);
    }
  }

  function PlainRun(regular: seq<string>): seq<Block>
  {
    if regular == [] then [] else [Plain(regular)]
  }

  /** The block that starts at the first line, if that line opens one. */
  function OpenBlock(lines: seq<string>, style: CodeStyle): (r: Option<Block>)
    ensures r.Some? ==> r.value.lines != [] && r.value.lines <= lines && !r.value.Plain?
  {
    if lines == [] then None
    else
      match CodeFenceOpen(lines[0], style)
      case Some(opening) => Some(Code(lines[..1 + CodeTail(lines[1..], opening, style)]))
      case None => if StartsTable(lines[0]) then Some(Table(lines[..1 + TableTail(lines[1..])])) else None
  }

  function Blocks(regular: seq<string>, lines: seq<string>, style: CodeStyle): (blocks: seq<Block>)
    decreases |lines|
  {
    if lines == [] then PlainRun(regular)
    else
      match OpenBlock(lines, style)
      case Some(b) => PlainRun(regular) + ([b] + Blocks([], lines[|b.lines|..], style))
      case None => Blocks(regular + [lines[0]], lines[1..], style)
  }

  /** A line that is no fence, or one too short, of the other character, or with a language. */
  predicate IsNested(line: string, opening: string)
  {
    match FenceMarker(line)
    case None => true
    case Some(fence) => opening == "" || |fence| < |opening| || fence[0] != opening[0] || !HasNoLanguage(line)
  }

  /**
   A fenced block may hold whole fenced blocks with shorter or other fences:
   they are content, and the block ends at its own closer.
   */
  lemma NestedFencesStayInside(opener: string, body: seq<string>, closer: string, rest: seq<string>)
    requires FenceMarker(opener).Some?
    requires forall l :: l in body ==> IsNested(l, FenceMarker(opener).value)
    requires ClosesFence(closer, FenceMarker(opener).value)
    ensures var block := [opener] + body + [closer];
            Blocks([], block + rest, Markdown) == [Code(block)] + Blocks([], rest, Markdown)
  {
    hide FenceMarker, HasNoLanguage;
    var opening := FenceMarker(opener).value;
    var block := [opener] + body + [closer];
    var lines := block + rest;
    assert lines[1..] == body + ([closer] + rest);
    TailPassesContent(body, closer, rest, opening, Markdown);
    assert lines[..|body| + 2] == block && lines[|body| + 2..] == rest;
    assert OpenBlock(lines, Markdown) == Some(Code(block));
    assert PlainRun([]) + ([Code(block)] + Blocks([], rest, Markdown)) == [Code(block)] + Blocks([], rest, Markdown);
  }

  function TrimAll(lines: seq<string>): (r: seq<string>)
    ensures |r| == |lines| && forall i :: 0 <= i < |r| ==> r[i] == RightTrimNewlines(lines[i])
  {
    if lines == [] then [] else [RightTrimNewlines(lines[0])] + TrimAll(lines[1..])
  }

  function BlockPages(inl: Inline, u: Unit, style: CodeStyle, b: Block, limit: int): Pages
  {
    match b
    case Plain(lines) => Split(inl, u, Concat(lines), limit)
    case Code(lines) => SplitCode(inl, u, style, Concat(lines), limit)
    case Table(lines) => SplitTable(inl, u, TrimAll(lines), limit)
  }

  function Chunks(inl: Inline, u: Unit, style: CodeStyle, blocks: seq<Block>, limit: int): (r: Pages)
  {
    if blocks == [] then Ok([])
    else Then(BlockPages(inl, u, style, blocks[0], limit), Chunks(inl, u, style, blocks[1..], limit))
  }

  function BodyPages(inl: Inline, u: Unit, style: CodeStyle, text: string, limit: int): (r: Pages)
  {
    if Lines(text) == [] then Ok([text])
    else
      match Chunks(inl, u, style, Blocks([], Lines(text), style), limit)
      case Err(e) => Err(e)
      case Ok(chunks) => Ok(if chunks == [] then [""] else PagesOf(Greedy(chunks, u, limit)))
  }

  lemma ChunksFirst(inl: Inline, u: Unit, style: CodeStyle, done: seq<string>, b: Block, later: seq<Block>, limit: int)
    ensures var first := BlockPages(inl, u, style, b, limit);
            var whole := Prepend(done, Chunks(inl, u, style, [b] + later, limit));
            if first.Ok? then whole == Prepend(done + first.value, Chunks(inl, u, style, later, limit))
            else whole == first
  {
    assert ([b] + later)[1..] == later;
    var first := BlockPages(inl, u, style, b, limit);
    if first.Ok? {
      PrependTwice(done, first.value, Chunks(inl, u, style, later, limit));
    }
  }

  method FlushRegular(inl: Inline, u: Unit, style: CodeStyle, chunks: seq<string>, regular: seq<string>,
                      ghost later: seq<Block>, limit: int) returns (r: Pages)
    ensures var whole := Prepend(chunks, Chunks(inl, u, style, PlainRun(regular) + later, limit));
            if r.Ok? then whole == Prepend(r.value, Chunks(inl, u, style, later, limit)) else whole == r
  {
    if regular == [] {
      assert PlainRun(regular) + later == later;
      return Ok(chunks);
    }
    ChunksFirst(inl, u, style, chunks, Plain(regular), later, limit);
    var pages := SplitTextPreserving(inl, u, Concat(regular), limit);
    if pages.Err? {
      return pages;
    }
    return Ok(chunks + pages.value);
  }

  method FindCodeEnd(lines: seq<string>, start: nat, opening: string, style: CodeStyle) returns (end: nat)
    requires start <= |lines|
    ensures end == start + CodeTail(lines[start..], opening, style)
  {
    hide CodeFenceCloses;
    end := start;
    while end < |lines|
      invariant start <= end <= |lines|
      invariant CodeTail(lines[start..], opening, style) == end - start + CodeTail(lines[end..], opening, style)
    {
      assert lines[end..][1..] == lines[end + 1..];
      var closes := CodeFenceCloses(lines[end], opening, style);
      end := end + 1;
      if closes {
        return;
      }
    }
  }

  method FindTableEnd(lines: seq<string>, start: nat) returns (end: nat)
    requires start <= |lines|
    ensures end == start + TableTail(lines[start..])
  {
    hide EndsTable;
    end := start;
    while end < |lines|
      invariant start <= end <= |lines|
      invariant TableTail(lines[start..]) == end - start + TableTail(lines[end..])
    {
      assert lines[end..][1..] == lines[end + 1..];
      end := end + 1;
      if EndsTable(lines[end - 1]) {
        return;
      }
    }
  }

  /** The block that starts at `index`, if its line opens one. */
  method TakeBlock(lines: seq<string>, index: nat, style: CodeStyle) returns (r: Option<Block>)
    requires index < |lines|
    ensures r == OpenBlock(lines[index..], style)
  {
    hide CodeFenceOpen, CodeFenceCloses, RightTrimNewlines, StartsTable, EndsTable;
    assert lines[index..][1..] == lines[index + 1..];
    var opening := CodeFenceOpen(lines[index], style);
    if opening.Some? {
      var end := FindCodeEnd(lines, index + 1, opening.value, style);
      assert lines[index..end] == lines[index..][..end - index];
      return Some(Code(lines[index..end]));
    }
    if StartsTable(lines[index]) {
      var end := FindTableEnd(lines, index + 1);
      assert lines[index..end] == lines[index..][..end - index];
      return Some(Table(lines[index..end]));
    }
    return None;
  }

  /** Appends the pages of the pending plain run, then those of the block behind it. */
  method EmitBlock(inl: Inline, u: Unit, style: CodeStyle, chunks: seq<string>, regular: seq<string>,
                   block: Block, ghost later: seq<Block>, limit: int) returns (r: Pages)
    requires !block.Plain?
    ensures var whole := Prepend(chunks, Chunks(inl, u, style, PlainRun(regular) + ([block] + later), limit));
            if r.Ok? then whole == Prepend(r.value, Chunks(inl, u, style, later, limit)) else whole == r
  {
    r := FlushRegular(inl, u, style, chunks, regular, [block] + later, limit);
    if r.Err? {
      return;
    }
    ChunksFirst(inl, u, style, r.value, block, later, limit);
    var pages: Pages;
    match block {
      case Code(part) => pages := SplitCodeBlock(inl, u, style, Concat(part), limit);
      case Table(part) => pages := SplitBoxTable(inl, u, TrimAll(part), limit);
    }
    if pages.Err? {
      return pages;
    }
    r := Ok(r.value + pages.value);
  }

  method CollectChunks(inl: Inline, u: Unit, style: CodeStyle, lines: seq<string>, limit: int) returns (r: Pages)
    ensures r == Chunks(inl, u, style, Blocks([], lines, style), limit)
  {
    hide BlockPages, OpenBlock;
    var chunks: seq<string> := [];
    var regular: seq<string> := [];
    var index := 0;
    ghost var whole := Chunks(inl, u, style, Blocks([], lines, style), limit);
    PrependNothing(whole);
    assert lines[0..] == lines;
    while index < |lines|
      invariant index <= |lines|
      invariant whole == Prepend(chunks, Chunks(inl, u, style, Blocks(regular, lines[index..], style), limit))
      decreases |lines| - index
    {
      var block := TakeBlock(lines, index, style);
      if block.None? {
        assert lines[index..][1..] == lines[index + 1..];
        regular := regular + [lines[index]];
        index := index + 1;
        continue;
      }
      var end := index + |block.value.lines|;
      assert lines[index..][|block.value.lines|..] == lines[end..];
      r := EmitBlock(inl, u, style, chunks, regular, block.value, Blocks([], lines[end..], style), limit);
      if r.Err? {
        return;
      }
      chunks, regular, index := r.value, [], end;
    }
    assert lines[index..] == [] && PlainRun(regular) + [] == PlainRun(regular);
    r := FlushRegular(inl, u, style, chunks, regular, [], limit);
    if r.Ok? {
      assert r.value + [] == r.value;
    }
  }

  method SplitStructuredBody(inl: Inline, u: Unit, style: CodeStyle, text: string, limit: int) returns (r: Pages)
    ensures r == BodyPages(inl, u, style, text, limit)
  {
    var lines := Lines(text);
    if lines == [] {
      return Ok([text]);
    }
    var chunks := CollectChunks(inl, u, style, lines, limit);
    if chunks.Err? {
      return chunks;
    }
    if chunks.value == [] {
      return Ok([""]);
    }
    var merged := BackfillChunks(chunks.value, limit, u);
    return Ok(merged);
  }

  // ---- What the body splitter promises ----------------------------------------------

  function BlockLines(blocks: seq<Block>): (lines: seq<string>)
  {
    if blocks == [] then [] else blocks[0].lines + BlockLines(blocks[1..])
  }

  /** A block of code or a table runs to its first closing line, or to the end of the text. */
  ghost predicate GoodBlock(b: Block, style: CodeStyle)
  {
    && b.lines != []
    && match b
       case Plain(lines) => forall l :: l in lines ==> CodeFenceOpen(l, style).None? && !StartsTable(l)
       case Code(lines) =>
         && CodeFenceOpen(lines[0], style).Some?
         && forall i :: 0 < i < |lines| - 1 ==>
              !CodeFenceCloses(lines[i], CodeFenceOpen(lines[0], style).value, style)
       case Table(lines) => StartsTable(lines[0]) && forall i :: 0 < i < |lines| - 1 ==> !EndsTable(lines[i])
  }

  predicate IsTerminated(b: Block, style: CodeStyle)
  {
    match b
    case Plain(_) => true
    case Code(lines) => IsClosedCode(lines, style)
    case Table(lines) => |lines| >= 2 && EndsTable(lines[|lines| - 1])
  }

  lemma OpenBlockIsGood(lines: seq<string>, style: CodeStyle)
    requires OpenBlock(lines, style).Some?
    ensures var b := OpenBlock(lines, style).value;
            GoodBlock(b, style) && (|b.lines| < |lines| ==> IsTerminated(b, style))
  {
    hide CodeFenceOpen, CodeFenceCloses, RightTrimNewlines, StartsTable, EndsTable;
    var b := OpenBlock(lines, style).value;
    var rest := lines[1..];
    if b.Code? {
      CodeTailStops(rest, CodeFenceOpen(lines[0], style).value, style);
    } else {
      TableTailStops(rest);
    }
    assert forall i :: 0 < i < |b.lines| ==> b.lines[i] == rest[i - 1];
  }

  /** `blocks` carry `lines`, each in one block, in order; only the last can be unterminated. */
  ghost predicate Cover(blocks: seq<Block>, lines: seq<string>, style: CodeStyle)
  {
    && BlockLines(blocks) == lines
    && (forall i :: 0 <= i < |blocks| ==> GoodBlock(blocks[i], style))
    && (forall i :: 0 <= i < |blocks| - 1 ==> IsTerminated(blocks[i], style))
  }

  lemma CoverCons(b: Block, later: seq<Block>, lines: seq<string>, style: CodeStyle)
    requires GoodBlock(b, style) && Cover(later, lines, style)
    requires later != [] ==> IsTerminated(b, style)
    ensures Cover([b] + later, b.lines + lines, style)
  {
    var blocks := [b] + later;
    assert blocks[1..] == later;
    assert forall i :: 0 < i < |blocks| ==> blocks[i] == later[i - 1];
  }

  lemma CoverBehindPlain(regular: seq<string>, b: Block, later: seq<Block>, after: seq<string>, style: CodeStyle)
    requires forall l :: l in regular ==> CodeFenceOpen(l, style).None? && !StartsTable(l)
    requires GoodBlock(b, style) && Cover(later, after, style) && (later != [] ==> IsTerminated(b, style))
    ensures Cover(PlainRun(regular) + ([b] + later), regular + (b.lines + after), style)
  {
    CoverCons(b, later, after, style);
    if regular == [] {
      assert PlainRun(regular) + ([b] + later) == [b] + later;
      assert regular + (b.lines + after) == b.lines + after;
    } else {
      CoverCons(Plain(regular), [b] + later, b.lines + after, style);
    }
  }

  lemma PlainRunCovers(regular: seq<string>, style: CodeStyle)
    requires forall l :: l in regular ==> CodeFenceOpen(l, style).None? && !StartsTable(l)
    ensures Cover(PlainRun(regular), regular, style)
  {
    hide CodeFenceOpen, StartsTable;
    if regular != [] {
      CoverCons(Plain(regular), [], [], style);
      assert [Plain(regular)] + [] == [Plain(regular)] && regular + [] == regular;
    }
  }

  lemma NothingOpens(lines: seq<string>, style: CodeStyle)
    requires lines != [] && OpenBlock(lines, style).None?
    ensures CodeFenceOpen(lines[0], style).None? && !StartsTable(lines[0])
  {
    hide CodeFenceOpen, StartsTable;
  }

  lemma {:induction false} BlocksCoverLines(regular: seq<string>, lines: seq<string>, style: CodeStyle)
    requires forall l :: l in regular ==> CodeFenceOpen(l, style).None? && !StartsTable(l)
    ensures Cover(Blocks(regular, lines, style), regular + lines, style)
    decreases |lines|
  {
    hide CodeFenceOpen, StartsTable, Cover, GoodBlock, IsTerminated, OpenBlock, PlainRun;
    if lines == [] {
      PlainRunCovers(regular, style);
      assert regular + lines == regular;
    } else if OpenBlock(lines, style).None? {
      NothingOpens(lines, style);
      BlocksCoverLines(regular + [lines[0]], lines[1..], style);
      assert regular + [lines[0]] + lines[1..] == regular + lines;
    } else {
      var b := OpenBlock(lines, style).value;
      var after := lines[|b.lines|..];
      var later := Blocks([], after, style);
      BlocksCoverLines([], after, style);
      OpenBlockIsGood(lines, style);
      assert [] + after == after && b.lines + after == lines;
      if after == [] {
        NoBlocks(style);
      }
      CoverBehindPlain(regular, b, later, after, style);
    }
  }

  lemma NoBlocks(style: CodeStyle)
    ensures Blocks([], [], style) == []
  {
  }

  lemma BlockPagesFit(inl: Inline, u: Unit, style: CodeStyle, b: Block, limit: int)
    requires 0 <= limit
    ensures var r := BlockPages(inl, u, style, b, limit);
            r.Ok? ==> r.value != [] && AllFit(u, r.value, limit)
  {
    hide Measure, Split, IsClosedCode, Lines, Concat;
    match b
    case Plain(lines) => SplitIsLosslessAndBounded(inl, u, Concat(lines), limit);
    case Code(lines) =>
      if IsClosedCode(Lines(Concat(lines)), style) {
        var _ := CodePagesKeepTheCode(inl, u, style, Concat(lines), limit);
      } else {
        SplitIsLosslessAndBounded(inl, u, Concat(lines), limit);
      }
    case Table(lines) =>
      if |lines| < 4 {
        SplitIsLosslessAndBounded(inl, u, Join("\n", TrimAll(lines)), limit);
      } else {
        var _, _ := TablePagesKeepTheRows(inl, u, TrimAll(lines), limit);
      }
  }

  lemma {:induction false} ChunksFit(inl: Inline, u: Unit, style: CodeStyle, blocks: seq<Block>, limit: int)
    requires 0 <= limit
    ensures var r := Chunks(inl, u, style, blocks, limit);
            r.Ok? ==> AllFit(u, r.value, limit) && (blocks != [] ==> r.value != [])
  {
    if blocks != [] {
      BlockPagesFit(inl, u, style, blocks[0], limit);
      ChunksFit(inl, u, style, blocks[1..], limit);
      var first := BlockPages(inl, u, style, blocks[0], limit);
      var later := Chunks(inl, u, style, blocks[1..], limit);
      if first.Ok? && later.Ok? {
        AllFitAppend(u, first.value, later.value, limit);
      }
    }
  }

  /**
   A body's pages all fit, there is at least one, and they are a packing of the
   blocks' pages with as few pages as any packing needs.
   An empty text is one empty page.
   */
  lemma BodyPagesFitAndPack(inl: Inline, u: Unit, style: CodeStyle, text: string, limit: int,
                            other: seq<seq<string>>)
    requires 0 <= limit
    ensures var r := BodyPages(inl, u, style, text, limit);
            && (r.Ok? ==> r.value != [] && AllFit(u, r.value, limit))
            && (r.Ok? && text != "" ==>
                  var chunks := Chunks(inl, u, style, Blocks([], Lines(text), style), limit);
                  && chunks.Ok?
                  && r.value == PagesOf(Greedy(chunks.value, u, limit))
                  && Packs(Greedy(chunks.value, u, limit), chunks.value, u, limit)
                  && (Packs(other, chunks.value, u, limit) ==> |r.value| <= |other|))
  {
    LinesOfText(text);
    var r := BodyPages(inl, u, style, text, limit);
    if text != "" && r.Ok? {
      var blocks := Blocks([], Lines(text), style);
      var chunks := Chunks(inl, u, style, blocks, limit).value;
      BlocksCoverLines([], Lines(text), style);
      assert blocks != [];
      ChunksFit(inl, u, style, blocks, limit);
      GreedyPacks(chunks, u, limit);
      if Packs(other, chunks, u, limit) {
        GreedyIsOptimal(chunks, other, u, limit);
      }
    }
  }

  // ---- Nothing of a body is lost ---------------------------------------------------------

  lemma LinesOfAppend(a: seq<string>, b: seq<string>)
    requires AreLines(a + b)
    ensures AreLines(a) && AreLines(b)
  {
    var all := a + b;
    assert forall i :: 0 <= i < |a| ==> all[i] == a[i];
    assert forall i :: 0 <= i < |b| ==> all[|a| + i] == b[i];
  }

  lemma {:induction false} BlocksHoldLines(blocks: seq<Block>, k: nat)
    requires AreLines(BlockLines(blocks)) && k < |blocks|
    ensures AreLines(blocks[k].lines)
  {
    hide AreLines;
    LinesOfAppend(blocks[0].lines, BlockLines(blocks[1..]));
    if k > 0 {
      BlocksHoldLines(blocks[1..], k - 1);
    }
  }

  lemma TrimmedLineIsUnbroken(line: string)
    requires IsLine(line)
    ensures IsUnbroken(RightTrimNewlines(line))
  {
    var t := RightTrimNewlines(line);
    forall i | 0 <= i < |t| ensures t[i] != '\n' {
      if i < |line| - 1 {
        assert line[..|line| - 1][i] == t[i];
      }
    }
  }

  lemma TableLinesAreUnbroken(lines: seq<string>)
    requires AreLines(lines)
    ensures forall l :: l in TrimAll(lines) ==> IsUnbroken(l)
  {
    hide IsLine, IsUnbroken;
    forall l | l in TrimAll(lines) ensures IsUnbroken(l) {
      var i :| 0 <= i < |lines| && TrimAll(lines)[i] == l;
      TrimmedLineIsUnbroken(lines[i]);
    }
  }

  /** The same fence around every body, and the bodies joined are the code. */
  ghost predicate KeepsCode(lines: seq<string>, pages: seq<string>)
    requires |lines| >= 2
  {
    exists bodies: seq<string> ::
      && pages == WrapAll(RightTrimNewlines(lines[0]), bodies, RightTrimNewlines(lines[|lines| - 1]))
      && bodies != [] && Concat(bodies) == CodeContent(lines)
  }

  /** Every row once and in order, and the header unless every row had to be folded. */
  ghost predicate KeepsTable(lines: seq<string>, pages: seq<string>, u: Unit, limit: int)
    requires |lines| >= 4
  {
    var t := BoxTable(lines[..3], lines[|lines| - 1]);
    var rows := lines[3..|lines| - 1];
    && ((exists page :: page in pages && ShowsHeader(t, page))
        <==> rows == [] || exists row :: row in rows && RowsFit(t, [row], u, limit))
    && if rows == [] then pages == [TablePage(t, [])]
       else exists segments, parts ::
              GoodLayout(t, segments, rows, u, limit) && ShowsAll(t, segments, parts) && Flatten(parts) == pages
  }

  /** What the pages of a block hold. */
  ghost predicate KeepsBlock(b: Block, pages: seq<string>, u: Unit, style: CodeStyle, limit: int)
  {
    match b
    case Plain(lines) => Concat(pages) == Concat(lines)
    case Code(lines) => if IsClosedCode(lines, style) then KeepsCode(lines, pages) else Concat(pages) == Concat(lines)
    case Table(lines) =>
      if |lines| < 4 then Concat(pages) == Join("\n", TrimAll(lines))
      else KeepsTable(TrimAll(lines), pages, u, limit)
  }

  /** When a block can be sent: no single character, fence or table frame is too large for a page. */
  predicate BlockFits(b: Block, u: Unit, style: CodeStyle, limit: int)
  {
    match b
    case Plain(lines) => EveryCharFits(u, Concat(lines), limit)
    case Code(lines) =>
      if IsClosedCode(lines, style) then
        CodeRoom(lines, u, limit) > 0 && EveryCharFits(u, CodeContent(lines), CodeRoom(lines, u, limit))
      else EveryCharFits(u, Concat(lines), limit)
    case Table(lines) =>
      var rows := TrimAll(lines);
      if |lines| < 4 then EveryCharFits(u, Join("\n", rows), limit)
      else TableFits(BoxTable(rows[..3], rows[|rows| - 1]), rows[3..|rows| - 1], u, limit)
  }

  lemma TableIsKept(inl: Inline, u: Unit, lines: seq<string>, limit: int)
    requires |lines| >= 4 && 0 <= limit && forall l :: l in lines ==> IsUnbroken(l)
    ensures var r := SplitTable(inl, u, lines, limit);
            && (r.Ok? <==> TableFits(BoxTable(lines[..3], lines[|lines| - 1]), lines[3..|lines| - 1], u, limit))
            && (r.Ok? ==> KeepsTable(lines, r.value, u, limit))
  {
    hide SplitTable, GoodLayout, ShowsAll, ShowsHeader, RowsFit, TableFits, TablePage, Flatten, AllFit;
    HeaderIsShownIff(inl, u, lines, limit);
    var _, _ := TablePagesKeepTheRows(inl, u, lines, limit);
  }

  /** The block is sent exactly when it fits, and then its pages keep it. */
  ghost predicate IsKept(inl: Inline, u: Unit, style: CodeStyle, b: Block, limit: int)
  {
    var r := BlockPages(inl, u, style, b, limit);
    && (r.Ok? <==> BlockFits(b, u, style, limit))
    && (r.Ok? ==> KeepsBlock(b, r.value, u, style, limit))
  }

  lemma PlainIsKept(inl: Inline, u: Unit, style: CodeStyle, lines: seq<string>, limit: int)
    ensures IsKept(inl, u, style, Plain(lines), limit)
  {
    hide Split, EveryCharFits, AllFit;
    SplitIsLosslessAndBounded(inl, u, Concat(lines), limit);
  }

  lemma ClosedCodeIsKept(inl: Inline, u: Unit, style: CodeStyle, lines: seq<string>, limit: int)
    requires AreLines(lines) && IsClosedCode(lines, style)
    ensures IsKept(inl, u, style, Code(lines), limit)
  {
    hide Split, EveryCharFits, CodeFenceOpen, CodeFenceCloses, CodeRoom, CodeContent, Lines, AllFit;
    LinesOfConcat(lines);
    SplitIsLosslessAndBounded(inl, u, CodeContent(lines), CodeRoom(lines, u, limit));
  }

  lemma OpenCodeIsKept(inl: Inline, u: Unit, style: CodeStyle, lines: seq<string>, limit: int)
    requires AreLines(lines) && !IsClosedCode(lines, style)
    ensures IsKept(inl, u, style, Code(lines), limit)
  {
    hide Split, EveryCharFits, IsClosedCode, CodeRoom, CodeContent, Lines, AllFit;
    LinesOfConcat(lines);
    SplitIsLosslessAndBounded(inl, u, Concat(lines), limit);
  }

  lemma ShortTableIsKept(inl: Inline, u: Unit, style: CodeStyle, lines: seq<string>, limit: int)
    requires |lines| < 4
    ensures IsKept(inl, u, style, Table(lines), limit)
  {
    hide Split, EveryCharFits, AllFit;
    SplitIsLosslessAndBounded(inl, u, Join("\n", TrimAll(lines)), limit);
  }

  lemma LongTableIsKept(inl: Inline, u: Unit, style: CodeStyle, lines: seq<string>, limit: int)
    requires AreLines(lines) && |lines| >= 4 && 0 <= limit
    ensures IsKept(inl, u, style, Table(lines), limit)
  {
    hide SplitTable, KeepsTable, TableFits, AreLines;
    TableLinesAreUnbroken(lines);
    TableIsKept(inl, u, TrimAll(lines), limit);
  }

  lemma BlockIsKept(inl: Inline, u: Unit, style: CodeStyle, b: Block, limit: int)
    requires 0 <= limit && AreLines(b.lines)
    ensures IsKept(inl, u, style, b, limit)
  {
    hide IsKept, IsClosedCode, AreLines;
    match b
    case Plain(lines) => PlainIsKept(inl, u, style, lines, limit);
    case Code(lines) =>
      if IsClosedCode(lines, style) {
        ClosedCodeIsKept(inl, u, style, lines, limit);
      } else {
        OpenCodeIsKept(inl, u, style, lines, limit);
      }
    case Table(lines) =>
      if |lines| < 4 {
        ShortTableIsKept(inl, u, style, lines, limit);
      } else {
        LongTableIsKept(inl, u, style, lines, limit);
      }
  }

  ghost predicate KeepsAll(blocks: seq<Block>, groups: seq<seq<string>>, u: Unit, style: CodeStyle, limit: int)
  {
    |groups| == |blocks| && forall i :: 0 <= i < |blocks| ==> KeepsBlock(blocks[i], groups[i], u, style, limit)
  }

  lemma {:induction false} ChunksAreKept(inl: Inline, u: Unit, style: CodeStyle, blocks: seq<Block>, limit: int)
    returns (groups: seq<seq<string>>)
    requires 0 <= limit && forall i :: 0 <= i < |blocks| ==> AreLines(blocks[i].lines)
    ensures var r := Chunks(inl, u, style, blocks, limit);
            && (r.Ok? <==> forall i :: 0 <= i < |blocks| ==> BlockFits(blocks[i], u, style, limit))
            && (r.Ok? ==> KeepsAll(blocks, groups, u, style, limit) && Flatten(groups) == r.value)
  {
    hide BlockPages, KeepsBlock, BlockFits, AreLines;
    groups := [];
    if blocks != [] {
      BlockIsKept(inl, u, style, blocks[0], limit);
      var tail := ChunksAreKept(inl, u, style, blocks[1..], limit);
      assert forall i :: 0 < i < |blocks| ==> blocks[i] == blocks[1..][i - 1];
      assert forall i :: 0 <= i < |blocks| - 1 ==> blocks[1..][i] == blocks[i + 1];
      var first := BlockPages(inl, u, style, blocks[0], limit);
      if first.Ok? {
        groups := [first.value] + tail;
        assert groups[1..] == tail;
      }
    }
  }

  /**
   Nothing of a text is lost or reordered.  The text is its blocks' lines; the
   pages are `packing` of the blocks' pages `groups`; and each group gives its
   block back: plain runs and open fences by joining the pages, closed fences by
   joining the bodies, tables row by row.  Splitting fails exactly when some
   block does not fit.
   */
  lemma BodyKeepsEverything(inl: Inline, u: Unit, style: CodeStyle, text: string, limit: int)
    returns (blocks: seq<Block>, groups: seq<seq<string>>, packing: seq<seq<string>>)
    requires 0 <= limit
    ensures var r := BodyPages(inl, u, style, text, limit);
            && Concat(BlockLines(blocks)) == text
            && Cover(blocks, Lines(text), style)
            && (r.Ok? <==> forall i :: 0 <= i < |blocks| ==> BlockFits(blocks[i], u, style, limit))
            && (r.Ok? && text == "" ==> r.value == [""])
            && (r.Ok? && text != "" ==>
                  && KeepsAll(blocks, groups, u, style, limit)
                  && r.value == PagesOf(packing)
                  && Packs(packing, Flatten(groups), u, limit))
  {
    hide AreLines, KeepsBlock, BlockFits, GoodBlock, IsTerminated, AllFit;
    LinesOfText(text);
    blocks, groups, packing := Blocks([], Lines(text), style), [], [];
    BlocksCoverLines([], Lines(text), style);
    assert [] + Lines(text) == Lines(text);
    forall i | 0 <= i < |blocks| ensures AreLines(blocks[i].lines) {
      BlocksHoldLines(blocks, i);
    }
    groups := ChunksAreKept(inl, u, style, blocks, limit);
    var chunks := Chunks(inl, u, style, blocks, limit);
    if text != "" && chunks.Ok? {
      ChunksFit(inl, u, style, blocks, limit);
      GreedyPacks(chunks.value, u, limit);
      packing := Greedy(chunks.value, u, limit);
    }
  }
}
