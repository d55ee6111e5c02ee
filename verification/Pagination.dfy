/**
 Numbered pages: the fixed point of `split_structured_text`, whose page labels
 take room from the pages they count, and the truncating fallback
 `paginate_with_truncation_notice`.
 */
module Pagination {
  import opened Wrappers
  import opened TextUnits
  import opened TextSplit
  import opened FenceRules
  import opened StructuredBody

  const ROUNDS := 12

  /** Everything a call of `split_structured_text` fixes besides the text. */
  datatype Request = Request(
    inl: Inline, unit: Unit, style: CodeStyle, limit: int, maxPages: int, maxTotal: Option<int>)

  function PageLabel(page: nat, total: nat): (s: string)
  {
    "第 " + Decimal(page) + " 页 / 共 " + Decimal(total) + " 页\n"
  }

  /** The largest of the first `n` labels. */
  function LabelRoom(u: Unit, n: nat, total: nat): (size: nat)
    ensures forall page :: 1 <= page <= n ==> Measure(u, PageLabel(page, total)) <= size
  {
    if n == 0 then 0
    else
      var rest := LabelRoom(u, n - 1, total);
      var last := Measure(u, PageLabel(n, total));
      if rest < last then last else rest
  }

  method FindLabelRoom(u: Unit, total: nat) returns (size: nat)
    ensures size == LabelRoom(u, total, total)
  {
    size := 0;
    for page := 1 to total + 1
      invariant size == LabelRoom(u, page - 1, total)
    {
      var own := Measure(u, PageLabel(page, total));
      if size < own {
        size := own;
      }
    }
  }

  function Labelled(chunks: seq<string>, total: nat): (pages: seq<string>)
    ensures |pages| == |chunks|
    ensures forall i :: 0 <= i < |pages| ==> pages[i] == PageLabel(i + 1, total) + chunks[i]
  {
    if chunks == [] then []
    else Labelled(chunks[..|chunks| - 1], total) + [PageLabel(|chunks|, total) + chunks[|chunks| - 1]]
  }

  /** The argument errors, in the order they are checked. */
  function Refusal(q: Request, text: string): Option<SplitError>
  {
    if q.limit <= 0 || q.maxPages <= 0 || (q.maxTotal.Some? && q.maxTotal.value <= 0) then Some(BadArgument)
    else if q.maxTotal.Some? && Measure(Bytes, text) > q.maxTotal.value then Some(TooManyBytes)
    else None
  }

  /** `chunks` are the body's pages when `total` labels are reserved for. */
  function Attempt(q: Request, text: string, total: nat): Pages
  {
    var available := q.limit - LabelRoom(q.unit, total, total);
    if available <= 0 then Err(LabelTooLarge)
    else
      match BodyPages(q.inl, q.unit, q.style, text, available)
      case Err(e) => Err(e)
      case Ok(chunks) => if |chunks| > q.maxPages then Err(TooManyPages) else Ok(chunks)
  }

  /** Re-paginate with the count just found until the count stays the same. */
  function Settle(q: Request, text: string, total: nat, rounds: nat): (r: Pages)
    decreases rounds
  {
    if rounds == 0 then Err(Unstable)
    else
      match Attempt(q, text, total)
      case Err(e) => Err(e)
      case Ok(chunks) =>
        if |chunks| == total then Ok(chunks) else Settle(q, text, |chunks|, rounds - 1)
  }

  function Paginate(q: Request, text: string): (r: Pages)
  {
    if Refusal(q, text).Some? then Err(Refusal(q, text).value)
    else if Measure(q.unit, text) <= q.limit then Ok([text])
    else
      match Settle(q, text, 1, ROUNDS)
      case Err(e) => Err(e)
      case Ok(chunks) =>
        var pages := Labelled(chunks, |chunks|);
        if q.maxTotal.Some? && Total(Bytes, pages) > q.maxTotal.value then Err(PagesTooManyBytes) else Ok(pages)
  }

  /** When the count settles, the labels were sized for exactly the pages delivered. */
  lemma {:induction false} SettledCount(q: Request, text: string, total: nat, rounds: nat)
    ensures var r := Settle(q, text, total, rounds);
            r.Ok? ==>
              && r == BodyPages(q.inl, q.unit, q.style, text,
                                q.limit - LabelRoom(q.unit, |r.value|, |r.value|))
              && r == Attempt(q, text, |r.value|)
              && 1 <= |r.value| <= q.maxPages
              && AllFit(q.unit, r.value, q.limit - LabelRoom(q.unit, |r.value|, |r.value|))
    decreases rounds
  {
    hide BodyPages, LabelRoom, Measure;
    if rounds > 0 {
      var chunks := Attempt(q, text, total);
      if chunks.Ok? {
        if |chunks.value| == total {
          var available := q.limit - LabelRoom(q.unit, total, total);
          BodyPagesFitAndPack(q.inl, q.unit, q.style, text, available, []);
        } else {
          SettledCount(q, text, |chunks.value|, rounds - 1);
        }
      }
    }
  }

  /** Pages whose labels were sized for their own count never outgrow the limit. */
  lemma LabelledPagesFit(q: Request, chunks: seq<string>)
    requires AllFit(q.unit, chunks, q.limit - LabelRoom(q.unit, |chunks|, |chunks|))
    ensures AllFit(q.unit, Labelled(chunks, |chunks|), q.limit)
  {
    var total := |chunks|;
    var pages := Labelled(chunks, total);
    forall i | 0 <= i < |pages| ensures Measure(q.unit, pages[i]) <= q.limit {
      MeasureAppend(q.unit, PageLabel(i + 1, total), chunks[i]);
      assert Measure(q.unit, PageLabel(i + 1, total)) <= LabelRoom(q.unit, total, total);
    }
  }

  /**
   Whatever is returned: one unlabelled page that is the text, or n labelled
   pages "i of n" around the body's pages, sized for exactly those labels;
   1 <= n <= max_pages, every page fits, and the total stays in the budget.
   */
  lemma PaginateIsSound(q: Request, text: string) returns (chunks: seq<string>)
    ensures var r := Paginate(q, text);
            r.Ok? ==>
              && AllFit(q.unit, r.value, q.limit)
              && 1 <= |r.value| <= q.maxPages
              && (q.maxTotal.Some? ==> Total(Bytes, r.value) <= q.maxTotal.value)
              && (if Measure(q.unit, text) <= q.limit then r.value == [text]
                  else IsNumbered(q, text, r.value, chunks))
  {
    hide BodyPages, LabelRoom, Measure, Settle, PageLabel, Total;
    chunks := [];
    if Refusal(q, text).None? {
      if Measure(q.unit, text) <= q.limit {
        OnlyPageFits(q, text);
      } else {
        SettledCount(q, text, 1, ROUNDS);
        var settled := Settle(q, text, 1, ROUNDS);
        if settled.Ok? {
          chunks := settled.value;
          LabelledPagesFit(q, chunks);
        }
      }
    }
  }

  /** `pages` are "i of n" labels around the body's pages, made small enough for n labels. */
  ghost predicate IsNumbered(q: Request, text: string, pages: seq<string>, chunks: seq<string>)
  {
    && Ok(chunks) == BodyPages(q.inl, q.unit, q.style, text, q.limit - LabelRoom(q.unit, |chunks|, |chunks|))
    && pages == Labelled(chunks, |chunks|)
  }

  lemma OnlyPageFits(q: Request, text: string)
    requires Refusal(q, text).None? && Measure(q.unit, text) <= q.limit
    ensures AllFit(q.unit, [text], q.limit) && Total(Bytes, [text]) == Measure(Bytes, text)
  {
    assert [text][1..] == [];
  }

  lemma NothingSettles(q: Request, text: string, total: nat)
    ensures Settle(q, text, total, 0) == Err(Unstable)
  {
  }

  lemma SettleRound(q: Request, text: string, total: nat, rounds: nat)
    requires rounds > 0
    ensures Settle(q, text, total, rounds)
         == match Attempt(q, text, total)
            case Err(e) => Err(e)
            case Ok(chunks) => if |chunks| == total then Ok(chunks) else Settle(q, text, |chunks|, rounds - 1)
  {
  }

  method SplitStructuredText(q: Request, text: string) returns (r: Pages)
    ensures r == Paginate(q, text)
  {
    hide BodyPages, LabelRoom, Measure, PageLabel, Total, Settle;
    if q.limit <= 0 {
      return Err(BadArgument);
    }
    if q.maxPages <= 0 {
      return Err(BadArgument);
    }
    if q.maxTotal.Some? && q.maxTotal.value <= 0 {
      return Err(BadArgument);
    }
    if q.maxTotal.Some? && Measure(Bytes, text) > q.maxTotal.value {
      return Err(TooManyBytes);
    }
    if Measure(q.unit, text) <= q.limit {
      return Ok([text]);
    }
    var total: nat := 1;
    var chunks: seq<string> := [];
    var round: nat := 0;
    var stable := false;
    while round < ROUNDS && !stable
      invariant round <= ROUNDS
      invariant !stable ==> Settle(q, text, 1, ROUNDS) == Settle(q, text, total, ROUNDS - round)
      invariant stable ==> Settle(q, text, 1, ROUNDS) == Ok(chunks)
      decreases ROUNDS - round, !stable
    {
      SettleRound(q, text, total, ROUNDS - round);
      var labelSize := FindLabelRoom(q.unit, total);
      var available := q.limit - labelSize;
      if available <= 0 {
        return Err(LabelTooLarge);
      }
      var body := SplitStructuredBody(q.inl, q.unit, q.style, text, available);
      if body.Err? {
        return body;
      }
      chunks := body.value;
      if |chunks| > q.maxPages {
        return Err(TooManyPages);
      }
      if |chunks| == total {
        stable := true;
      }
      total := |chunks|;
      round := round + 1;
    }
    assert Settle(q, text, total, 0) == Err(Unstable) by { NothingSettles(q, text, total); }
    if !stable {
      return Err(Unstable);
    }
    total := |chunks|;
    var result := Labelled(chunks, total);
    SettledCount(q, text, 1, ROUNDS);
    LabelledPagesFit(q, chunks);
    if !AllFit(q.unit, result, q.limit) {
      assert false;  // the source re-splits here; the labels were sized for this very count
    }
    if q.maxTotal.Some? && Total(Bytes, result) > q.maxTotal.value {
      return Err(PagesTooManyBytes);
    }
    return Ok(result);
  }

  // ---- Truncation ------------------------------------------------------------------

  function NoticeSentence(): string
  {
    "（内容过长，已截断；请缩小提问范围或分次获取剩余部分。）"
  }

  function TruncationNotice(): string { "\n\n" + NoticeSentence() }

  /** The errors that mean "too much content" rather than "bad limits". */
  predicate IsOverBudget(e: SplitError)
  {
    e == TooManyPages || e == TooManyBytes || e == PagesTooManyBytes || e == Unstable
  }

  /** The texts an error can carry; `n` is the limit they quote. */
  ghost predicate IsTextOf(e: SplitError, text: string, n: nat)
  {
    match e
    case CharTooLarge => text == "消息上限太小，无法容纳一个完整字符"
    case FenceTooLarge => text == "消息上限太小，无法保留完整代码围栏"
    case TableTooLarge => text == "消息上限太小，无法保留完整表格边框"
    case LabelTooLarge => text == "消息上限太小，无法容纳页码和正文"
    case TooManyPages => text == "回复内容超过页数上限（" + Decimal(n) + " 页）"
    case TooManyBytes => text == "回复内容超过总字节上限（" + Decimal(n) + " bytes）"
    case PagesTooManyBytes => text == "分页后的回复超过总字节上限（" + Decimal(n) + " bytes）"
    case Unstable => text == "无法在指定消息上限内稳定计算页数"
    case BadArgument =>
      text == "消息上限必须大于 0" || text == "max_pages 必须大于 0" || text == "max_total_bytes 必须大于 0"
  }

  ghost predicate Mentions(text: string, word: string)
  {
    exists end: nat :: EndsAt(text, word, end)
  }

  /** The call truncates on exactly the errors whose text names a limit that is neither too small nor ill-formed. */
  lemma WhatTruncates(e: SplitError, text: string, n: nat)
    requires IsTextOf(e, text, n)
    ensures IsOverBudget(e) <==> Mentions(text, "上限") && !Mentions(text, "太小") && !Mentions(text, "必须")
  {
    hide Mentions, Decimal;
    match e
    case CharTooLarge => LimitsAreTooSmall(text);
    case FenceTooLarge => LimitsAreTooSmall(text);
    case TableTooLarge => LimitsAreTooSmall(text);
    case LabelTooLarge => LimitsAreTooSmall(text);
    case TooManyPages => PagesAreLimited(text, n);
    case TooManyBytes => BytesAreLimited(text, n);
    case PagesTooManyBytes => AllBytesAreLimited(text, n);
    case Unstable => CountingIsLimited(text);
    case BadArgument => BadArgumentsSayMust(text);
  }

  lemma LimitsAreTooSmall(text: string)
    requires "消息上限太小" <= text
    ensures Mentions(text, "太小")
  {
    hide Mentions;
    assert text == "消息上限" + "太小" + text[6..];
    MentionsInside(text, "消息上限", "太小", text[6..]);
  }

  lemma PagesAreLimited(text: string, n: nat)
    requires text == "回复内容超过页数上限（" + Decimal(n) + " 页）"
    ensures Mentions(text, "上限") && !Mentions(text, "太小") && !Mentions(text, "必须")
  {
    hide Mentions, Decimal;
    QuotesALimit(text, "回复内容超过页数上限（", "回复内容超过页数", n, " 页）");
  }

  lemma BytesAreLimited(text: string, n: nat)
    requires text == "回复内容超过总字节上限（" + Decimal(n) + " bytes）"
    ensures Mentions(text, "上限") && !Mentions(text, "太小") && !Mentions(text, "必须")
  {
    hide Mentions, Decimal;
    QuotesALimit(text, "回复内容超过总字节上限（", "回复内容超过总字节", n, " bytes）");
  }

  lemma AllBytesAreLimited(text: string, n: nat)
    requires text == "分页后的回复超过总字节上限（" + Decimal(n) + " bytes）"
    ensures Mentions(text, "上限") && !Mentions(text, "太小") && !Mentions(text, "必须")
  {
    hide Mentions, Decimal;
    QuotesALimit(text, "分页后的回复超过总字节上限（", "分页后的回复超过总字节", n, " bytes）");
  }

  lemma CountingIsLimited(text: string)
    requires text == "无法在指定消息上限内稳定计算页数"
    ensures Mentions(text, "上限") && !Mentions(text, "太小") && !Mentions(text, "必须")
  {
    hide Mentions;
    MentionsInside(text, "无法在指定消息", "上限", "内稳定计算页数");
    NeverMentions(text, "太小");
    NeverMentions(text, "必须");
  }

  lemma BadArgumentsSayMust(text: string)
    requires text == "消息上限必须大于 0" || text == "max_pages 必须大于 0" || text == "max_total_bytes 必须大于 0"
    ensures Mentions(text, "必须")
  {
    hide Mentions;
    if text == "消息上限必须大于 0" {
      MentionsInside(text, "消息上限", "必须", "大于 0");
    } else if text == "max_pages 必须大于 0" {
      MentionsInside(text, "max_pages ", "必须", "大于 0");
    } else {
      MentionsInside(text, "max_total_bytes ", "必须", "大于 0");
    }
  }

  lemma MentionsInside(text: string, before: string, word: string, behind: string)
    requires text == before + word + behind
    ensures Mentions(text, word)
  {
    assert EndsAt(text, word, |before| + |word|);
  }

  lemma NeverMentions(text: string, word: string)
    requires word != "" && word[0] !in text
    ensures !Mentions(text, word)
  {
    if Mentions(text, word) {
      MentionedIsInside(text, word);
    }
  }

  lemma MentionedIsInside(text: string, word: string)
    requires word != "" && Mentions(text, word)
    ensures word[0] in text
  {
    var end: nat :| EndsAt(text, word, end);
    assert text[end - |word|] == text[end - |word|..end][0];
  }

  lemma QuotesALimit(text: string, opening: string, before: string, n: nat, behind: string)
    requires opening == before + "上限" + "（" && text == opening + Decimal(n) + behind
    requires '太' !in before + behind && '必' !in before + behind
    ensures Mentions(text, "上限") && !Mentions(text, "太小") && !Mentions(text, "必须")
  {
    hide Mentions;
    var number := Decimal(n);
    assert text == before + "上限" + ("（" + number + behind);
    MentionsInside(text, before, "上限", "（" + number + behind);
    assert forall c :: c in text ==> c in before + behind || c in "上限（" || IsDigit(c);
    NeverMentions(text, "太小");
    NeverMentions(text, "必须");
  }

  /** `notice = notice[:-1]` until it fits. */
  function FittingPrefix(u: Unit, s: string, limit: int): (t: string)
    ensures t <= s
    ensures t != "" ==> Measure(u, t) <= limit
    ensures |t| < |s| ==> Measure(u, s[..|t| + 1]) > limit
  {
    if s != "" && Measure(u, s) > limit then
      var t := FittingPrefix(u, s[..|s| - 1], limit);
      assert |t| + 1 < |s| ==> s[..|s| - 1][..|t| + 1] == s[..|t| + 1];
      assert s[..|s|] == s;
      t
    else s
  }

  function NoticeText(): string { Strip(TruncationNotice()) }

  function NoticePages(q: Request): (pages: seq<string>)
  {
    var notice := FittingPrefix(q.unit, NoticeText(), q.limit);
    if notice == "" then [] else [notice]
  }

  /** What the call hands back, when it does not raise. */
  datatype Delivery = Delivery(pages: seq<string>, truncated: bool)

  /** `k` characters of the text with the notice, and one character more cannot be paginated. */
  ghost predicate IsCutAt(q: Request, text: string, k: nat)
    requires k <= |text|
  {
    k < |text| ==> Paginate(q, text[..k + 1] + TruncationNotice()).Err?
  }

  /** What the search settles on: a prefix of `k` characters, or, for none, the bare notice. */
  ghost predicate IsTruncation(q: Request, text: string, k: nat, pages: seq<string>)
    requires k <= |text|
  {
    && IsCutAt(q, text, k)
    && if k == 0 then pages == NoticePages(q) else Ok(pages) == Paginate(q, text[..k] + TruncationNotice())
  }

  /** The cut notice is larger than the whole budget. */
  predicate NoticeExceedsBudget(q: Request)
  {
    q.maxTotal.Some? && Measure(Bytes, FittingPrefix(q.unit, NoticeText(), q.limit)) > q.maxTotal.value
  }

  predicate ExceedsBudget(q: Request, pages: seq<string>)
  {
    q.maxTotal.Some? && Total(Bytes, pages) > q.maxTotal.value
  }

  method PaginateWithTruncationNotice(q: Request, text: string) returns (r: Result<Delivery, SplitError>)
    // it raises exactly the errors that are not about the amount of content
    ensures r.Err? <==> Paginate(q, text).Err? && !IsOverBudget(Paginate(q, text).error)
    ensures r.Err? ==> r.error == Paginate(q, text).error
    ensures r.Ok? ==> (r.value.truncated <==> Paginate(q, text).Err?)
    ensures r.Ok? && !r.value.truncated ==> Ok(r.value.pages) == Paginate(q, text)
    // a truncated reply is a pagination of a prefix that cannot be one character longer, with the notice
    ensures r.Ok? && r.value.truncated ==> exists k: nat :: k <= |text| && IsTruncation(q, text, k, r.value.pages)
    // both limits are promised; this is what is kept of the promise
    ensures r.Ok? ==> AllFit(q.unit, r.value.pages, q.limit) && |r.value.pages| <= q.maxPages
    ensures r.Ok? ==> (ExceedsBudget(q, r.value.pages) <==> r.value.truncated && NoticeExceedsBudget(q))
  {
    hide Paginate, Measure, TruncationNotice, NoticeText, NoticePages, ExceedsBudget, NoticeExceedsBudget;
    var first := SplitStructuredText(q, text);
    if first.Ok? {
      PagesKeepTheBudget(q, text, first.value);
      return Ok(Delivery(first.value, false));
    }
    if !IsOverBudget(first.error) {
      return Err(first.error);
    }
    OverBudgetIsNoRefusal(q, text);
    var low, high := 0, |text|;
    var best: Option<seq<string>> := None;
    while low < high
      invariant 0 <= low <= high <= |text|
      invariant high < |text| ==> Paginate(q, text[..high + 1] + TruncationNotice()).Err?
      invariant best.None? <==> low == 0
      invariant best.Some? ==> Ok(best.value) == Paginate(q, text[..low] + TruncationNotice())
      decreases high - low
    {
      var middle := (low + high + 1) / 2;
      var pages := SplitStructuredText(q, text[..middle] + TruncationNotice());
      if pages.Err? {
        high := middle - 1;
        continue;
      }
      best := Some(pages.value);
      low := middle;
    }
    assert IsCutAt(q, text, low);
    if best.Some? {
      assert IsTruncation(q, text, low, best.value);
      TruncatedPagesKeepTheBudget(q, text[..low], best.value);
      return Ok(Delivery(best.value, true));
    }
    var notice := NoticeText();
    ghost var whole := notice;
    while notice != "" && Measure(q.unit, notice) > q.limit
      decreases |notice|
      invariant notice <= whole
      invariant FittingPrefix(q.unit, notice, q.limit) == FittingPrefix(q.unit, whole, q.limit)
    {
      notice := notice[..|notice| - 1];
    }
    var bare := if notice != "" then [notice] else [];
    assert bare == NoticePages(q) by { NoticePagesAre(q, notice); }
    assert IsTruncation(q, text, 0, bare);
    NoticeAgainstBudget(q);
    return Ok(Delivery(bare, true));
  }

  lemma NoticePagesAre(q: Request, notice: string)
    requires notice == FittingPrefix(q.unit, NoticeText(), q.limit)
    ensures NoticePages(q) == if notice != "" then [notice] else []
  {
  }

  lemma OverBudgetIsNoRefusal(q: Request, text: string)
    requires Paginate(q, text).Err? && IsOverBudget(Paginate(q, text).error)
    ensures q.limit > 0 && q.maxPages > 0 && (q.maxTotal.Some? ==> q.maxTotal.value > 0)
  {
  }

  /** A pagination keeps all limits. */
  lemma PagesKeepTheBudget(q: Request, text: string, pages: seq<string>)
    requires Ok(pages) == Paginate(q, text)
    ensures AllFit(q.unit, pages, q.limit) && |pages| <= q.maxPages && !ExceedsBudget(q, pages)
  {
    hide Paginate, Total;
    var _ := PaginateIsSound(q, text);
  }

  lemma MeasureOfParts(u: Unit, s: string, i: nat, j: nat)
    requires i <= j <= |s|
    ensures Measure(u, s[i..j]) <= Measure(u, s)
  {
    hide Measure;
    MeasureAppend(u, s[..i], s[i..j]);
    MeasureAppend(u, s[..i] + s[i..j], s[j..]);
    assert s == s[..i] + s[i..j] + s[j..];
  }

  lemma StripShrinks(u: Unit, s: string)
    ensures Measure(u, Strip(s)) <= Measure(u, s)
  {
    hide Measure;
    var left := StripLeft(s);
    MeasureOfParts(u, left, 0, |StripRight(left)|);
    assert left[0..|StripRight(left)|] == StripRight(left);
    MeasureOfParts(u, s, |s| - |left|, |s|);
    assert s[|s| - |left|..|s|] == left;
  }

  /** Where a prefix with the notice can be paginated, the notice alone is within the budget. */
  lemma TruncatedPagesKeepTheBudget(q: Request, prefix: string, pages: seq<string>)
    requires Ok(pages) == Paginate(q, prefix + TruncationNotice())
    ensures AllFit(q.unit, pages, q.limit) && |pages| <= q.maxPages
    ensures !ExceedsBudget(q, pages) && !NoticeExceedsBudget(q)
  {
    hide Measure, TruncationNotice, Settle, FittingPrefix, ExceedsBudget;
    PagesKeepTheBudget(q, prefix + TruncationNotice(), pages);
    if q.maxTotal.Some? {
      MeasureAppend(Bytes, prefix, TruncationNotice());
      StripShrinks(Bytes, TruncationNotice());
      var notice := FittingPrefix(q.unit, NoticeText(), q.limit);
      MeasureOfParts(Bytes, NoticeText(), 0, |notice|);
      assert NoticeText()[0..|notice|] == notice;
    }
  }

  /** The bare notice keeps the page limit; the byte budget exactly when the cut notice does. */
  lemma NoticeAgainstBudget(q: Request)
    requires q.limit > 0 && q.maxPages > 0
    ensures AllFit(q.unit, NoticePages(q), q.limit) && |NoticePages(q)| <= q.maxPages
    ensures (q.maxTotal.Some? ==> q.maxTotal.value > 0) ==> (ExceedsBudget(q, NoticePages(q)) <==> NoticeExceedsBudget(q))
  {
    hide TruncationNotice, NoticeText, Measure, FittingPrefix;
    var notice := FittingPrefix(q.unit, NoticeText(), q.limit);
    TotalOfFew(Bytes, notice);
    MeasureAtLeastLength(Bytes, "");
  }

  lemma TotalOfFew(u: Unit, page: string)
    ensures Total(u, []) == 0 && Total(u, [page]) == Measure(u, page)
  {
    assert [page][1..] == [];
  }

  /** Every truncation keeps both limits but one: the bare notice the budget, exactly when it is the larger. */
  lemma DeliveredPagesAreBounded(q: Request, text: string, k: nat, pages: seq<string>)
    requires q.limit > 0 && q.maxPages > 0 && (q.maxTotal.Some? ==> q.maxTotal.value > 0)
    requires k <= |text| && IsTruncation(q, text, k, pages)
    ensures AllFit(q.unit, pages, q.limit) && |pages| <= q.maxPages
    ensures ExceedsBudget(q, pages) <==> NoticeExceedsBudget(q)
    ensures NoticeExceedsBudget(q) ==> k == 0 && pages == NoticePages(q)
  {
    hide Paginate, NoticePages, ExceedsBudget, NoticeExceedsBudget, TruncationNotice, Measure;
    if k == 0 {
      NoticeAgainstBudget(q);
    } else {
      TruncatedPagesKeepTheBudget(q, text[..k], pages);
    }
  }

  /** The prefix with the notice cannot be paginated. */
  predicate IsTooLong(q: Request, text: string, k: nat)
    requires k <= |text|
  {
    Paginate(q, text[..k] + TruncationNotice()).Err?
  }

  /** One character more does not make a prefix fit that does not. */
  predicate StaysTooLong(q: Request, text: string, k: nat)
    requires k < |text|
  {
    IsTooLong(q, text, k) ==> IsTooLong(q, text, k + 1)
  }

  lemma CutIsNext(q: Request, text: string, k: nat)
    requires k < |text| && IsCutAt(q, text, k)
    ensures IsTooLong(q, text, k + 1)
  {
    hide Paginate, TruncationNotice;
  }

  /** Where a longer prefix never fits when a shorter one does not, the search finds the longest that fits. */
  lemma {:induction false} CutIsLongest(q: Request, text: string, k: nat, pages: seq<string>, j: nat)
    requires k < j <= |text| && IsTruncation(q, text, k, pages)
    requires forall i :: k < i < |text| ==> StaysTooLong(q, text, i)
    ensures IsTooLong(q, text, j)
  {
    hide Paginate, TruncationNotice, NoticePages, IsTooLong, IsCutAt;
    if j > k + 1 {
      CutIsLongest(q, text, k, pages, j - 1);
      assert StaysTooLong(q, text, j - 1);
    } else {
      CutIsNext(q, text, k);
    }
  }

  /** Under a budget smaller than the notice no prefix can be paginated, so only the bare notice is left. */
  lemma BareNoticeIgnoresBudget(q: Request, text: string, k: nat, pages: seq<string>)
    requires q.limit > 0 && q.maxPages > 0 && q.maxTotal.Some? && q.maxTotal.value > 0
    requires Measure(Bytes, TruncationNotice()) > q.maxTotal.value
    requires k <= |text| && IsTruncation(q, text, k, pages)
    ensures k == 0 && pages == NoticePages(q)
  {
    hide TruncationNotice, Measure, Settle, NoticePages;
    MeasureAppend(Bytes, text[..k], TruncationNotice());
  }

  lemma StripRightOfTrimmed(body: string)
    requires body != "" && !IsSpace(body[|body| - 1])
    ensures StripRight(body) == body
  {
  }

  lemma NewlineIsSpace()
    ensures IsSpace('\n')
  {
  }

  lemma StripOfTail(s: string, body: string)
    requires s == "\n\n" + body && body != "" && !IsSpace(body[0]) && !IsSpace(body[|body| - 1])
    ensures Strip(s) == body
  {
    hide StripRight, IsSpace;
    NewlineIsSpace();
    assert s[1..] == "\n" + body && s[1..][1..] == body;
    assert StripLeft(body) == body;
    assert StripLeft(s[1..]) == body;
    assert StripLeft(s) == body;
    StripRightOfTrimmed(body);
  }

  lemma SentenceIsTrimmed()
    ensures |NoticeSentence()| == 28
    ensures !IsSpace(NoticeSentence()[0]) && !IsSpace(NoticeSentence()[27])
  {
    assert NoticeSentence()[0] == '（' && NoticeSentence()[27] == '）';
  }

  lemma NoticeIsLong()
    ensures |NoticeText()| == 28
  {
    hide NoticeSentence, Strip, IsSpace;
    SentenceIsTrimmed();
    StripOfTail(TruncationNotice(), NoticeSentence());
  }

  /** A delivery that breaks the total budget: eleven characters, ten bytes allowed. */
  lemma BareNoticeBreaksTheBudget(inl: Inline)
    ensures var q := Request(inl, Chars, Markdown, 1000, 10, Some(10));
            && Paginate(q, "abcdefghijk") == Err(TooManyBytes)
            && IsOverBudget(TooManyBytes)
            && NoticeExceedsBudget(q)
  {
    hide Settle, TruncationNotice, NoticeText, Measure, FittingPrefix;
    MeasureAtLeastLength(Bytes, "abcdefghijk");
    NoticeIsLong();
    MeasureAtLeastLength(Bytes, NoticeText());
    MeasureAtLeastLength(Chars, NoticeText());
    FittingIsWhole(Chars, NoticeText(), 1000);
  }

  lemma FittingIsWhole(u: Unit, s: string, limit: int)
    requires Measure(u, s) <= limit
    ensures FittingPrefix(u, s, limit) == s
  {
  }
}
