/**
 Fenced code blocks (CommonMark 0.30, section 4.5) as `fence_marker` and
 `closes_fence` decide them, and the one-marker variant used for WeCom.
 */
module FenceRules {
  import opened Wrappers
  import opened TextUnits

  datatype CodeStyle = Markdown | WeCom

  const WECOM_OPEN := "［代码"
  const WECOM_CLOSE := "［/代码］"

  /** Number of leading characters equal to `c`. */
  function FenceRun(s: string, c: char): (n: nat)
    ensures n <= |s|
    ensures forall i :: 0 <= i < n ==> s[i] == c
    ensures n < |s| ==> s[n] != c
  {
    if s == "" || s[0] != c then 0 else 1 + FenceRun(s[1..], c)
  }

  /** `$` also matches before one final newline. */
  function WithoutFinalNewline(s: string): (t: string)
    ensures t == s || t + "\n" == s
  {
    if s != "" && s[|s| - 1] == '\n' then s[..|s| - 1] else s
  }

  predicate IsInfoString(s: string)
  {
    '`' !in s && '\n' !in s
  }

  /** The fence that a line without its indentation starts with. */
  function LeadingFence(body: string): (r: Option<string>)
    ensures r.Some? ==> |r.value| >= 3 && (r.value[0] == '`' || r.value[0] == '~')
    ensures r.Some? ==> forall i :: 0 <= i < |r.value| ==> r.value[i] == r.value[0]
  {
    if body == "" || (body[0] != '`' && body[0] != '~') then None
    else
      var n := FenceRun(body, body[0]);
      if n >= 3 && IsInfoString(body[n..]) then Some(body[..n]) else None
  }

  function FenceMarker(line: string): (r: Option<string>)
    ensures r.Some? ==> |r.value| >= 3 && (r.value[0] == '`' || r.value[0] == '~')
    ensures r.Some? ==> forall i :: 0 <= i < |r.value| ==> r.value[i] == r.value[0]
  {
    LeadingFence(WithoutFinalNewline(StripLeft(line)))
  }

  /** The pattern as a whole: an indentation, the fence, an info string, and perhaps one newline. */
  ghost predicate IsFenceLine(line: string, fence: string)
  {
    exists indent, info, end :: IsFenceLineWith(line, indent, fence, info, end)
  }

  ghost predicate IsFenceLineWith(line: string, indent: string, fence: string, info: string, end: string)
  {
    && line == indent + (fence + (info + end)) && IsBlank(indent) && (end == "" || end == "\n")
    && |fence| >= 3 && (fence[0] == '`' || fence[0] == '~') && (forall i :: 0 <= i < |fence| ==> fence[i] == fence[0])
    && IsInfoString(info) && (info != "" ==> info[0] != fence[0])
  }

  /** A line has exactly the fence that the pattern matches in it. */
  lemma FenceMarkerIff(line: string, fence: string)
    ensures FenceMarker(line) == Some(fence) <==> IsFenceLine(line, fence)
  {
    hide FenceMarker;
    if FenceMarker(line) == Some(fence) {
      MarkedIsFenceLine(line, fence);
    } else if IsFenceLine(line, fence) {
      FenceLineIsMarked(line, fence);
    }
  }

  lemma MarkedIsFenceLine(line: string, fence: string)
    requires FenceMarker(line) == Some(fence)
    ensures IsFenceLine(line, fence)
  {
    hide IsBlank, FenceRun, IsInfoString, IsSpace, LeadingFence, WithoutFinalNewline, StripLeft;
    var left := StripLeft(line);
    var body := WithoutFinalNewline(left);
    StripLeftCuts(line);
    LeadingFenceIs(body, fence);
    ThreeParts(line, left, body, fence);
    assert IsFenceLineWith(line, line[..|line| - |left|], fence, body[|fence|..], left[|body|..]);
  }

  lemma LeadingFenceIs(body: string, fence: string)
    requires LeadingFence(body) == Some(fence)
    ensures |fence| <= |body| && fence == body[..|fence|] && IsInfoString(body[|fence|..])
    ensures |body| > |fence| ==> body[|fence|] != fence[0]
  {
    hide IsInfoString;
  }

  lemma ThreeParts(line: string, left: string, body: string, fence: string)
    requires |left| <= |line| && left == line[|line| - |left|..] && (left == body || left == body + "\n")
    requires |fence| <= |body| && fence == body[..|fence|]
    ensures line == line[..|line| - |left|] + (fence + (body[|fence|..] + left[|body|..]))
    ensures left[|body|..] == "" || left[|body|..] == "\n"
  {
    assert line == line[..|line| - |left|] + left;
    assert left == fence + (body[|fence|..] + left[|body|..]);
  }

  lemma FenceLineIsMarked(line: string, fence: string)
    requires IsFenceLine(line, fence)
    ensures FenceMarker(line) == Some(fence)
  {
    var indent, info, end :| IsFenceLineWith(line, indent, fence, info, end);
    var left := fence + (info + end);
    BlankIsStripped(indent, left);
    var body := fence + info;
    BodyIs(fence, info, end);
    FenceRunIs(fence, info);
    assert body[..|fence|] == fence && body[|fence|..] == info;
  }

  lemma BodyIs(fence: string, info: string, end: string)
    requires fence != "" && '\n' != fence[|fence| - 1] && '\n' !in info && (end == "" || end == "\n")
    ensures WithoutFinalNewline(fence + (info + end)) == fence + info
  {
    var s := fence + (info + end);
    if end == "\n" {
      assert s[..|s| - 1] == fence + info;
    } else {
      assert s == fence + info;
      assert s[|s| - 1] == if info == "" then fence[|fence| - 1] else info[|info| - 1];
    }
  }

  lemma {:induction false} FenceRunIs(fence: string, info: string)
    requires fence != "" && (forall i :: 0 <= i < |fence| ==> fence[i] == fence[0]) && (info != "" ==> info[0] != fence[0])
    ensures FenceRun(fence + info, fence[0]) == |fence|
  {
    var s := fence + info;
    assert forall i :: 0 <= i < |fence| ==> s[i] == fence[i];
    assert info != "" ==> s[|fence|] == info[0];
  }

  lemma {:induction false} BlankIsStripped(indent: string, left: string)
    requires IsBlank(indent) && left != "" && !IsSpace(left[0])
    ensures StripLeft(indent + left) == left
  {
    hide IsSpace;
    if indent == "" {
      assert indent + left == left;
    } else {
      assert (indent + left)[1..] == indent[1..] + left;
      BlankIsStripped(indent[1..], left);
    }
  }

  /** The line declares no language: only blanks and tabs follow the fence. */
  predicate HasNoLanguage(line: string)
    requires FenceMarker(line).Some?
  {
    var body := WithoutFinalNewline(StripLeft(line));
    var rest := body[FenceRun(body, body[0])..];
    forall i :: 0 <= i < |rest| ==> rest[i] == ' ' || rest[i] == '\t'
  }

  /** Same character, not shorter, no language. */
  predicate ClosesFence(line: string, opening: string)
  {
    match FenceMarker(line)
    case None => false
    case Some(fence) =>
      opening != "" && fence[0] == opening[0] && |fence| >= |opening| && HasNoLanguage(line)
  }

  function RightTrimNewlines(s: string): (t: string)
    ensures |t| <= |s| && t == s[..|t|]
    ensures t != "" ==> t[|t| - 1] != '\n' && t[|t| - 1] != '\r'
  {
    if s != "" && (s[|s| - 1] == '\n' || s[|s| - 1] == '\r') then RightTrimNewlines(s[..|s| - 1]) else s
  }

  /** Only line ends are cut. */
  lemma {:induction false} TrimCutsNewlinesOnly(s: string)
    ensures forall i :: |RightTrimNewlines(s)| <= i < |s| ==> s[i] == '\n' || s[i] == '\r'
  {
    if s != "" && (s[|s| - 1] == '\n' || s[|s| - 1] == '\r') {
      TrimCutsNewlinesOnly(s[..|s| - 1]);
    }
  }

  function CodeFenceOpen(line: string, style: CodeStyle): (r: Option<string>)
  {
    match style
    case Markdown => FenceMarker(line)
    case WeCom => if WECOM_OPEN <= RightTrimNewlines(line) then Some(WECOM_OPEN) else None
  }

  predicate CodeFenceCloses(line: string, opening: string, style: CodeStyle)
  {
    match style
    case Markdown => ClosesFence(line, opening)
    case WeCom => RightTrimNewlines(line) == WECOM_CLOSE
  }
}
