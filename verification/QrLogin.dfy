/**
 Folding a OneBot log into one QR login snapshot: `kirara_ai/im/qr_login.py`.
 Times are seconds; hot-update times are their own clock.
 */
module QrLogin {
  import opened Wrappers

  datatype State =
    | Unknown | Pending | WaitingScan | AgeUnknown | Scanned
    | Expired | Succeeded | Failed | Unavailable | QuickLogin

  datatype Reason = CodeUnavailable | NoSavedCredential | LoginFailed | ExpiredWithoutScan

  datatype HotState = Checking | UpToDate | Downloading | Downloaded | ReadyToInstall | UpdateFailed

  datatype HotStatus = StatusDownloading | StatusReady | StatusIdle | StatusOther

  /** What the patterns report of one log line. */
  datatype Line = Line(
    empty: bool, hot: bool,
    stamp: Option<int>, picture: Option<nat>, saved: Option<string>,
    succeeded: bool, scanned: bool, loginFailed: bool, unavailable: bool,
    noCredential: bool, quickLogin: bool, requested: bool,
    clock: Option<int>, version: Option<string>, updateFailed: bool, status: Option<HotStatus>,
    downloaded: bool, noUpdate: bool, updateStart: bool)

  /** The scan fields of the accumulator. */
  datatype Qr = Qr(
    state: State, generated: Option<int>, validity: Option<nat>, path: Option<string>, pictures: nat,
    failure: Option<Reason>, last: Option<int>, generatedReal: bool, lastReal: bool)

  /** Its hot-update fields. */
  datatype Hot = Hot(state: Option<HotState>, version: Option<string>, started: Option<int>, completed: Option<int>)

  const NO_QR := Qr(Unknown, None, None, None, 0, None, None, false, false)
  const NO_HOT := Hot(None, None, None, None)
  const DEFAULT_VALIDITY: nat := 120

  function LineTime(q: Qr, line: Line, now: int): int
  {
    if line.stamp.Some? then line.stamp.value else if q.last.Some? then q.last.value else now
  }

  function Noted(q: Qr, line: Line, now: int): Qr
  {
    q.(last := Some(LineTime(q, line, now)), lastReal := line.stamp.Some? || q.lastReal)
  }

  /** What one line that is not about hot updates does to the scan fields. */
  function ApplyQr(q: Qr, line: Line, now: int): Qr
  {
    var time := Some(LineTime(q, line, now));
    var isReal := line.stamp.Some? || q.lastReal;
    var noted := Noted(q, line, now);
    var early := q.state.Unknown? || q.state.Pending? || q.state.Unavailable?;
    if line.picture.Some? then
      noted.(pictures := q.pictures + 1, generated := time, generatedReal := isReal,
             validity := line.picture, state := WaitingScan, failure := None)
    else if line.saved.Some? then
      var saved := noted.(path := line.saved);
      if !early then saved
      else if q.generated.Some? then saved.(state := WaitingScan)
      else saved.(state := WaitingScan, generated := time, generatedReal := isReal)
    else if line.succeeded then noted.(state := Succeeded, failure := None)
    else if line.scanned then noted.(state := Scanned)
    else if line.loginFailed then noted.(state := Failed, failure := Some(LoginFailed))
    else if line.unavailable then
      if q.state.Unknown? || q.state.Pending? then noted.(state := Unavailable, failure := Some(CodeUnavailable))
      else noted
    else if line.noCredential then
      noted.(state := if early then Pending else q.state, failure := Some(NoSavedCredential))
    else if line.quickLogin then noted.(state := if early then QuickLogin else q.state)
    else if line.requested then
      noted.(state := if q.state.Unknown? || q.state.Unavailable? then Pending else q.state)
    else q
  }

  /** What a hot-update line does to the hot-update fields. */
  function ApplyHot(h: Hot, line: Line): Hot
  {
    if line.updateFailed then h.(state := Some(UpdateFailed))
    else if line.status == Some(StatusDownloading) then
      h.(state := Some(Downloading), started := line.clock, completed := None)
    else if line.status == Some(StatusReady) then h.(state := Some(ReadyToInstall))
    else if line.status == Some(StatusIdle) then h
    else if line.downloaded then
      h.(state := if h.state == Some(ReadyToInstall) then h.state else Some(Downloaded),
         completed := if h.completed.None? then line.clock else h.completed,
         version := if line.version.Some? then line.version else h.version)
    else if line.noUpdate then h.(state := Some(UpToDate))
    else if line.updateStart then Hot(Some(Checking), None, line.clock, None)
    else
      h.(version := if line.version.Some? && h.version.None? then line.version else h.version,
         state := if h.state.None? then Some(Checking) else h.state)
  }

  function FoldQr(lines: seq<Line>, now: int): Qr
  {
    if lines == [] then NO_QR
    else
      var last := lines[|lines| - 1];
      var before := FoldQr(lines[..|lines| - 1], now);
      if last.empty || last.hot then before else ApplyQr(before, last, now)
  }

  function FoldHot(lines: seq<Line>): Hot
  {
    if lines == [] then NO_HOT
    else
      var last := lines[|lines| - 1];
      var before := FoldHot(lines[..|lines| - 1]);
      if last.empty || !last.hot then before else ApplyHot(before, last)
  }

  datatype HotView = HotView(
    state: HotState, version: Option<string>, started: Option<int>, completed: Option<int>, duration: Option<int>)

  datatype QrView = QrView(
    state: State, generated: Option<int>, expires: Option<int>, validity: Option<nat>, remaining: Option<int>,
    path: Option<string>, refreshes: nat, failure: Option<Reason>, last: Option<int>)

  datatype Snapshot = Snapshot(qr: QrView, hot: Option<HotView>)

  function ViewHot(h: Hot): Option<HotView>
  {
    if h.state.None? then None
    else
      var span := if h.started.Some? && h.completed.Some? then Some(h.completed.value - h.started.value) else None;
      Some(HotView(h.state.value, h.version, h.started, h.completed,
                   if span.Some? && span.value >= 0 then span else None))
  }

  function ViewQr(q: Qr, now: int): QrView
  {
    var validity := if q.generated.Some? && q.validity.None? then Some(DEFAULT_VALIDITY) else q.validity;
    var last := if q.lastReal then q.last else None;
    var refreshes := if q.pictures == 0 then 0 else q.pictures - 1;
    if q.generated.Some? && !q.generatedReal then
      QrView(if q.state.WaitingScan? then AgeUnknown else q.state, None, None, validity, None,
             q.path, refreshes, q.failure, last)
    else
      var expires := if q.generated.Some? && validity.Some? then Some(q.generated.value + validity.value) else None;
      var remaining := if expires.None? then None else Some(if expires.value <= now then 0 else expires.value - now);
      var over := remaining == Some(0) && q.state.WaitingScan?;
      QrView(if over then Expired else q.state, q.generated, expires, validity, remaining,
             q.path, refreshes, if over then Some(ExpiredWithoutScan) else q.failure, last)
  }

  // ---- The accumulator -----------------------------------------------------------------

  class Accumulator {
    var qr: Qr
    var hot: Hot

    constructor ()
      ensures qr == NO_QR && hot == NO_HOT
    {
      qr, hot := NO_QR, NO_HOT;
    }

    method NoteEvent(time: int, isReal: bool)
      modifies `qr
      ensures qr == old(qr).(last := Some(time), lastReal := isReal)
    {
      qr := qr.(last := Some(time), lastReal := isReal);
    }

    method ApplyHotUpdate(line: Line)
      modifies `hot
      ensures hot == ApplyHot(old(hot), line)
    {
      if line.updateFailed {
        hot := hot.(state := Some(UpdateFailed));
        return;
      }
      if line.status.Some? {
        match line.status.value {
          case StatusDownloading =>
            hot := hot.(state := Some(Downloading), started := line.clock, completed := None);
            return;
          case StatusReady =>
            hot := hot.(state := Some(ReadyToInstall));
            return;
          case StatusIdle =>
            return;
          case StatusOther =>
        }
      }
      if line.downloaded {
        if hot.state != Some(ReadyToInstall) {
          hot := hot.(state := Some(Downloaded));
        }
        if hot.completed.None? {
          hot := hot.(completed := line.clock);
        }
        if line.version.Some? {
          hot := hot.(version := line.version);
        }
        return;
      }
      if line.noUpdate {
        hot := hot.(state := Some(UpToDate));
        return;
      }
      if line.updateStart {
        hot := Hot(Some(Checking), None, line.clock, None);
        return;
      }
      if line.version.Some? && hot.version.None? {
        hot := hot.(version := line.version);
      }
      if hot.state.None? {
        hot := hot.(state := Some(Checking));
      }
    }

    /** `_apply`: hot-update lines never reach the scan fields, and the other way round. */
    method Apply(line: Line, now: int)
      modifies this
      ensures line.hot ==> qr == old(qr) && hot == ApplyHot(old(hot), line)
      ensures !line.hot ==> hot == old(hot) && qr == ApplyQr(old(qr), line, now)
    {
      if line.hot {
        ApplyHotUpdate(line);
        return;
      }
      ApplyScan(line, now);
    }

    /** The rest of `_apply`, for a line about the scan. */
    method ApplyScan(line: Line, now: int)
      modifies `qr
      ensures qr == ApplyQr(old(qr), line, now)
    {
      var time := if line.stamp.Some? then line.stamp.value else if qr.last.Some? then qr.last.value else now;
      var isReal := line.stamp.Some? || qr.lastReal;
      var early := qr.state.Unknown? || qr.state.Pending? || qr.state.Unavailable?;
      if line.picture.Some? {
        qr := qr.(pictures := qr.pictures + 1, generated := Some(time), generatedReal := isReal);
        qr := qr.(validity := line.picture, state := WaitingScan, failure := None);
        NoteEvent(time, isReal);
        return;
      }
      if line.saved.Some? {
        qr := qr.(path := line.saved);
        NoteEvent(time, isReal);
        if early {
          qr := qr.(state := WaitingScan);
          if qr.generated.None? {
            qr := qr.(generated := Some(time), generatedReal := isReal);
          }
        }
        return;
      }
      if line.succeeded {
        qr := qr.(state := Succeeded, failure := None);
      } else if line.scanned {
        qr := qr.(state := Scanned);
      } else if line.loginFailed {
        qr := qr.(state := Failed, failure := Some(LoginFailed));
      } else if line.unavailable {
        if qr.state.Unknown? || qr.state.Pending? {
          qr := qr.(state := Unavailable, failure := Some(CodeUnavailable));
        }
      } else if line.noCredential {
        if early {
          qr := qr.(state := Pending);
        }
        qr := qr.(failure := Some(NoSavedCredential));
      } else if line.quickLogin {
        if early {
          qr := qr.(state := QuickLogin);
        }
      } else if line.requested {
        if qr.state.Unknown? || qr.state.Unavailable? {
          qr := qr.(state := Pending);
        }
      } else {
        return;
      }
      NoteEvent(time, isReal);
    }
  }

  method ParseQrLoginLog(lines: seq<Line>, now: int) returns (r: Snapshot)
    ensures r == Snapshot(ViewQr(FoldQr(lines, now), now), ViewHot(FoldHot(lines)))
  {
    var a := new Accumulator();
    for i := 0 to |lines|
      invariant a.qr == FoldQr(lines[..i], now) && a.hot == FoldHot(lines[..i])
    {
      assert lines[..i + 1][..i] == lines[..i];
      if !lines[i].empty {
        a.Apply(lines[i], now);
      }
    }
    assert lines[..|lines|] == lines;
    return Snapshot(ViewQr(a.qr, now), ViewHot(a.hot));
  }

  // ---- What the state comes from ---------------------------------------------------------------

  /** What a line that is about the scan stands for; the first pattern that matches counts. */
  datatype Sign = Decision(state: State) | Start(state: State) | Hint(state: State) | NoSign

  function SignOf(line: Line): Sign
  {
    if line.empty || line.hot then NoSign
    else if line.picture.Some? then Decision(WaitingScan)
    else if line.saved.Some? then Start(WaitingScan)
    else if line.succeeded then Decision(Succeeded)
    else if line.scanned then Decision(Scanned)
    else if line.loginFailed then Decision(Failed)
    else if line.unavailable then Hint(Unavailable)
    else if line.noCredential then Hint(Pending)
    else if line.quickLogin then Start(QuickLogin)
    else if line.requested then Hint(Pending)
    else NoSign
  }

  /** The last picture, success, scan or failure in the log. */
  function LastDecision(lines: seq<Line>): Option<State>
  {
    if lines == [] then None
    else
      var sign := SignOf(lines[|lines| - 1]);
      if sign.Decision? then Some(sign.state) else LastDecision(lines[..|lines| - 1])
  }

  /** The first saved code or quick login in the log. */
  function FirstStart(lines: seq<Line>): Option<State>
  {
    if lines == [] then None
    else
      var earlier := FirstStart(lines[..|lines| - 1]);
      var sign := SignOf(lines[|lines| - 1]);
      if earlier.Some? then earlier else if sign.Start? then Some(sign.state) else None
  }

  /** The last sign of a request, of a missing credential or of a missing code. */
  function LastHint(lines: seq<Line>): Option<State>
  {
    if lines == [] then None
    else
      var sign := SignOf(lines[|lines| - 1]);
      if sign.Hint? then Some(sign.state) else LastHint(lines[..|lines| - 1])
  }

  lemma SignsAreStates(lines: seq<Line>)
    ensures LastDecision(lines).Some? ==> LastDecision(lines).value in {WaitingScan, Succeeded, Scanned, Failed}
    ensures FirstStart(lines).Some? ==> FirstStart(lines).value in {WaitingScan, QuickLogin}
    ensures LastHint(lines).Some? ==> LastHint(lines).value in {Unavailable, Pending}
  {
  }

  /**
   The state behind a log: its last decision; without one its first start;
   without that its last hint; and unknown when there is no sign at all.
   */
  lemma {:induction false} StateIsOfTheLog(lines: seq<Line>, now: int)
    ensures FoldQr(lines, now).state
         == if LastDecision(lines).Some? then LastDecision(lines).value
            else if FirstStart(lines).Some? then FirstStart(lines).value
            else if LastHint(lines).Some? then LastHint(lines).value
            else Unknown
  {
    if lines != [] {
      StateIsOfTheLog(lines[..|lines| - 1], now);
      SignsAreStates(lines[..|lines| - 1]);
    }
  }

  /** A success, a scan or a failure is shown exactly when it is the last decision of the log. */
  lemma DecisionsAreShown(lines: seq<Line>, now: int, state: State)
    requires state.Succeeded? || state.Scanned? || state.Failed?
    ensures ViewQr(FoldQr(lines, now), now).state == state <==> LastDecision(lines) == Some(state)
  {
    StateIsOfTheLog(lines, now);
    SignsAreStates(lines);
  }

  /** Every picture counts, and each but the first is a refresh; the last one's validity is the code's. */
  lemma {:induction false} PicturesAreCounted(lines: seq<Line>, now: int)
    ensures FoldQr(lines, now).pictures == |Pictures(lines)|
    ensures FoldQr(lines, now).validity == if Pictures(lines) == [] then None else Some(Pictures(lines)[|Pictures(lines)| - 1])
  {
    if lines != [] {
      PicturesAreCounted(lines[..|lines| - 1], now);
    }
  }

  /** All pictures but the first are refreshes. */
  lemma RefreshesAreLaterPictures(lines: seq<Line>, now: int)
    ensures var r := ViewQr(FoldQr(lines, now), now).refreshes;
            if Pictures(lines) == [] then r == 0 else r + 1 == |Pictures(lines)|
  {
    PicturesAreCounted(lines, now);
  }

  /**
   A code that waits is shown as waiting, as expired, or as of unknown age: by the
   time it was generated, when the log says so, and its validity, 120 seconds when
   the log does not say.
   */
  lemma WaitingIsJudged(lines: seq<Line>, now: int)
    ensures var q := FoldQr(lines, now);
            var v := ViewQr(q, now);
            var validity := if Pictures(lines) == [] then 120 else Pictures(lines)[|Pictures(lines)| - 1];
            && (v.state.Expired? <==>
                  q.state.WaitingScan? && q.generatedReal && q.generated.Some? && q.generated.value + validity <= now)
            && (v.state.AgeUnknown? <==> q.state.WaitingScan? && q.generated.Some? && !q.generatedReal)
            && (v.state.Expired? ==> v.failure == Some(ExpiredWithoutScan))
            && (!v.state.Expired? && !v.state.AgeUnknown? ==> v.state == q.state)
            && (!v.state.Expired? ==> v.failure == q.failure)
  {
    PicturesAreCounted(lines, now);
    StateIsOfTheLog(lines, now);
    SignsAreStates(lines);
  }

  function Pictures(lines: seq<Line>): seq<nat>
  {
    if lines == [] then []
    else
      var last := lines[|lines| - 1];
      Pictures(lines[..|lines| - 1]) + if !last.empty && !last.hot && last.picture.Some? then [last.picture.value] else []
  }

  // ---- What the snapshot promises -------------------------------------------------------------

  /** A line that is not empty and not about hot updates carries this timestamp. */
  ghost predicate IsStamped(lines: seq<Line>, time: int)
  {
    exists i :: 0 <= i < |lines| && !lines[i].empty && !lines[i].hot && lines[i].stamp == Some(time)
  }

  lemma StampedStays(lines: seq<Line>, n: nat, time: int)
    requires n <= |lines| && IsStamped(lines[..n], time)
    ensures IsStamped(lines, time)
  {
    var i :| 0 <= i < n && !lines[..n][i].empty && !lines[..n][i].hot && lines[..n][i].stamp == Some(time);
    assert lines[i] == lines[..n][i];
  }

  /** A time stored as real was stored before or is this line's own; waiting needs a generation time. */
  lemma ApplyKeepsTimes(q: Qr, line: Line, now: int)
    requires q.lastReal ==> q.last.Some?
    requires q.state.WaitingScan? ==> q.generated.Some?
    ensures var r := ApplyQr(q, line, now);
            && (r.lastReal ==> r.last.Some? && (r.last == line.stamp || (q.lastReal && r.last == q.last)))
            && (r.generated.Some? && r.generatedReal ==>
                  || r.generated == line.stamp
                  || (q.lastReal && r.generated == q.last)
                  || (q.generated.Some? && q.generatedReal && r.generated == q.generated))
            && (r.state.WaitingScan? ==> r.generated.Some?)
  {
  }

  lemma {:induction false} RealTimesAreStamped(lines: seq<Line>, now: int)
    ensures var q := FoldQr(lines, now);
            && (q.lastReal ==> q.last.Some? && IsStamped(lines, q.last.value))
            && (q.generated.Some? && q.generatedReal ==> IsStamped(lines, q.generated.value))
            && (q.state.WaitingScan? ==> q.generated.Some?)
  {
    hide ApplyQr;
    if lines != [] {
      var n := |lines| - 1;
      var line := lines[n];
      var before := FoldQr(lines[..n], now);
      RealTimesAreStamped(lines[..n], now);
      ApplyKeepsTimes(before, line, now);
      if before.lastReal {
        StampedStays(lines, n, before.last.value);
      }
      if before.generated.Some? && before.generatedReal {
        StampedStays(lines, n, before.generated.value);
      }
      if !line.empty && !line.hot && line.stamp.Some? {
        assert IsStamped(lines, line.stamp.value);
      }
    }
  }

  /**
   "Waiting for a scan" is never a guess: the generation time stands in the
   log, and the code has not expired yet.
   */
  lemma WaitingMeansScannable(lines: seq<Line>, now: int)
    ensures var v := ViewQr(FoldQr(lines, now), now);
            v.state.WaitingScan? ==>
              && v.generated.Some? && IsStamped(lines, v.generated.value)
              && v.expires.Some? && v.expires.value > now
              && v.remaining == Some(v.expires.value - now)
  {
    RealTimesAreStamped(lines, now);
  }

  /** Any generation time that is shown was in the log. */
  lemma ShownTimesAreReal(lines: seq<Line>, now: int)
    ensures var v := ViewQr(FoldQr(lines, now), now);
            && (v.generated.Some? ==> IsStamped(lines, v.generated.value))
            && (v.last.Some? ==> IsStamped(lines, v.last.value))
  {
    RealTimesAreStamped(lines, now);
  }

  function OnlyHot(lines: seq<Line>, hot: bool): (r: seq<Line>)
  {
    if lines == [] then []
    else OnlyHot(lines[..|lines| - 1], hot) + if lines[|lines| - 1].hot == hot then [lines[|lines| - 1]] else []
  }

  lemma {:induction false} FoldsSeeTheirOwnLines(lines: seq<Line>, now: int)
    ensures FoldQr(lines, now) == FoldQr(OnlyHot(lines, false), now)
    ensures FoldHot(lines) == FoldHot(OnlyHot(lines, true))
  {
    hide ApplyQr, ApplyHot;
    if lines != [] {
      var n := |lines| - 1;
      FoldsSeeTheirOwnLines(lines[..n], now);
      var own, other := OnlyHot(lines[..n], lines[n].hot), OnlyHot(lines[..n], !lines[n].hot);
      assert (own + [lines[n]])[..|own|] == own;
      assert other + [] == other;
      assert OnlyHot(lines, lines[n].hot) == own + [lines[n]];
      assert OnlyHot(lines, !lines[n].hot) == other;
    }
  }

  /**
   Inserting or deleting hot-update lines anywhere changes no scan field, and
   inserting or deleting any other lines changes no hot-update field.
   */
  lemma HotUpdatesAreSeparate(a: seq<Line>, b: seq<Line>, now: int)
    ensures OnlyHot(a, false) == OnlyHot(b, false) ==>
              ViewQr(FoldQr(a, now), now) == ViewQr(FoldQr(b, now), now)
    ensures OnlyHot(a, true) == OnlyHot(b, true) ==> ViewHot(FoldHot(a)) == ViewHot(FoldHot(b))
  {
    FoldsSeeTheirOwnLines(a, now);
    FoldsSeeTheirOwnLines(b, now);
  }
}
