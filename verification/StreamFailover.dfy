/**
 One streamed model request over a queue of providers:
 `LLMManager._execute_stream_iterator`.
 */
module StreamFailover {
  import opened Wrappers

  type Chunk = string

  datatype Category =
    | Network | Timeout | RateLimit | Upstream
    | Authentication | InvalidRequest | PolicyRejection | Unknown
    | CancelledByCaller | CircuitOpen

  predicate Retryable(c: Category)
  {
    c.Network? || c.Timeout? || c.RateLimit? || c.Upstream?
  }

  /** How one upstream call ends, after `delivered` of the chunks it would produce. */
  datatype Ending = Complete | Failure(category: Category) | CallCancelled

  datatype Call = Call(output: seq<Chunk>, delivered: nat, ending: Ending)

  predicate IsCall(c: Call)
  {
    && c.delivered <= |c.output|
    && (c.ending.Complete? ==> c.delivered == |c.output|)
    && (c.ending.Failure? ==> !c.ending.category.CancelledByCaller? && !c.ending.category.CircuitOpen?)
  }

  type UpstreamCall = c: Call | IsCall(c) witness Call([], 0, Complete)

  /** `retries` is the configured number; a negative one counts as none. */
  datatype Provider = Provider(name: string, retries: int)

  function Retries(p: Provider): nat { if p.retries < 0 then 0 else p.retries }

  /** What the surroundings answer, question by question. */
  datatype World = World(
    acquired: nat -> bool, cancelled: nat -> bool, now: nat -> real, call: nat -> UpstreamCall)

  /**
   One entry of the attempt log; `call` is absent when the circuit was open,
   and otherwise what the surroundings answered to question `at`.
   */
  datatype Attempt = Attempt(
    number: nat, provider: nat, retry: nat, success: bool, category: Option<Category>,
    partial: bool, started: real, call: Option<UpstreamCall>, at: nat)

  datatype Outcome = Completed | Interrupted | Cancelled | Exhausted | ClosedByConsumer

  function Delivered(a: Attempt): seq<Chunk>
  {
    match a.call
    case None => []
    case Some(c) => c.output[..c.delivered]
  }

  // ---- What a log may look like ---------------------------------------------------------

  predicate IsAttempt(a: Attempt, candidates: seq<Provider>, deadline: real)
  {
    && a.provider < |candidates| && a.retry <= Retries(candidates[a.provider])
    && (a.category == Some(CircuitOpen) <==> a.call.None?)
    && (a.call.None? ==> a.retry == 0 && !a.success && !a.partial)
    && (a.call.Some? ==>
          && a.started < deadline
          && (a.success <==> a.call.value.ending.Complete?)
          && (a.partial <==> !a.success && a.call.value.delivered > 0)
          && (a.success <==> a.category.None?))
  }

  /** Nothing was delivered and the category allows another try. */
  predicate MayReplay(a: Attempt)
  {
    !a.success && !a.partial && a.category.Some? && Retryable(a.category.value)
  }

  /** The queue moves on: the circuit was open, or the retries are used up. */
  predicate MayMoveOn(a: Attempt, candidates: seq<Provider>)
    requires a.provider < |candidates|
  {
    a.category == Some(CircuitOpen) || (MayReplay(a) && a.retry == Retries(candidates[a.provider]))
  }

  predicate Follows(a: Attempt, b: Attempt, candidates: seq<Provider>)
    requires a.provider < |candidates|
  {
    && b.number == a.number + 1
    && (|| (b.provider == a.provider && b.retry == a.retry + 1 && b.call.Some? && MayReplay(a))
        || (b.provider == a.provider + 1 && b.retry == 0 && MayMoveOn(a, candidates)))
  }

  ghost predicate IsLog(log: seq<Attempt>, candidates: seq<Provider>, deadline: real)
  {
    && (forall i :: 0 <= i < |log| ==> IsAttempt(log[i], candidates, deadline))
    && (log != [] ==> log[0].number == 1 && log[0].provider == 0 && log[0].retry == 0)
    && (forall i :: 0 <= i < |log| - 1 ==> Follows(log[i], log[i + 1], candidates))
  }

  /** The first question behind the first `i` entries. */
  function Since(log: seq<Attempt>, i: nat): nat
    requires i <= |log|
  {
    if i == 0 then 0 else log[i - 1].at + 1
  }

  /**
   What was asked, from question `since` on, before a provider is called: a first
   call needs a caller who has not cancelled and a circuit that lets it through; a
   further one comes after a wait that neither the deadline nor the caller ended.
   */
  predicate IsClear(w: World, deadline: real, since: nat, retry: nat)
  {
    if retry == 0 then !w.cancelled(since) && w.acquired(since + 1)
    else w.now(since) < deadline && !w.cancelled(since + 1)
  }

  predicate MayCall(w: World, deadline: real, since: nat, retry: nat)
  {
    IsClear(w, deadline, since, retry) && w.now(since + 2) < deadline
  }

  /** The entry was not made up: the call was allowed and is an answer of `w`, or the circuit refused it. */
  predicate IsAnswered(a: Attempt, w: World, deadline: real, since: nat)
  {
    match a.call
    case Some(call) =>
      && MayCall(w, deadline, since, a.retry) && a.started == w.now(since + 2)
      && a.at == since + 3 && call == w.call(a.at)
    case None => !w.cancelled(since) && !w.acquired(since + 1) && a.at == since + 1
  }

  predicate IsAnsweredAt(log: seq<Attempt>, i: nat, w: World, deadline: real)
    requires i < |log|
  {
    IsAnswered(log[i], w, deadline, Since(log, i))
  }

  /** Every entry stands for questions of its own, asked in log order and before `clock`. */
  ghost predicate IsObserved(log: seq<Attempt>, w: World, deadline: real, clock: nat)
  {
    && (forall i :: 0 <= i < |log| ==> IsAnsweredAt(log, i, w, deadline))
    && (forall i :: 0 <= i < |log| ==> log[i].at < clock)
    && (forall i, j :: 0 <= i < j < |log| ==> log[i].at < log[j].at)
  }

  lemma ObservedGrows(log: seq<Attempt>, a: Attempt, w: World, deadline: real, later: nat)
    requires IsObserved(log, w, deadline, a.at) && IsAnswered(a, w, deadline, Since(log, |log|)) && a.at < later
    ensures IsObserved(log + [a], w, deadline, later)
  {
    var grown := log + [a];
    forall i | 0 <= i < |grown| ensures IsAnsweredAt(grown, i, w, deadline) {
      assert Since(grown, i) == Since(log, i);
      assert i < |log| ==> grown[i] == log[i] && IsAnsweredAt(log, i, w, deadline);
    }
  }

  /** The consumer closed the stream in the middle of a call that is not in the log, but was allowed like those. */
  ghost predicate IsClosedCall(w: World, candidates: seq<Provider>, deadline: real, log: seq<Attempt>,
                               patience: Option<nat>, yielded: seq<Chunk>)
  {
    && patience.Some?
    && (exists p: nat, k: nat :: p < |candidates| && k <= Retries(candidates[p]) && IsNext(w, candidates, deadline, log, p, k))
    && var call: Call := w.call(Since(log, |log|) + 3);
       patience.value <= call.delivered && yielded == call.output[..patience.value]
  }

  /** Retry `k` of provider `p` is next, and was allowed. */
  predicate IsNext(w: World, candidates: seq<Provider>, deadline: real, log: seq<Attempt>, p: nat, k: nat)
  {
    Ready(log, candidates, p, k) && MayCall(w, deadline, Since(log, |log|), k)
  }

  /** The next attempt may be retry `k` of provider `p`. */
  predicate Ready(log: seq<Attempt>, candidates: seq<Provider>, p: nat, k: nat)
  {
    if log == [] then p == 0 && k == 0
    else
      var last := log[|log| - 1];
      && last.provider < |candidates|
      && if k > 0 then last.provider == p && last.retry == k - 1 && MayReplay(last)
         else last.provider + 1 == p && MayMoveOn(last, candidates)
  }

  lemma LogGrows(log: seq<Attempt>, a: Attempt, candidates: seq<Provider>, deadline: real)
    requires IsLog(log, candidates, deadline) && IsAttempt(a, candidates, deadline)
    requires a.number == |log| + 1 && Ready(log, candidates, a.provider, a.retry)
    requires a.retry > 0 ==> a.call.Some?
    ensures IsLog(log + [a], candidates, deadline)
  {
    LogIsNumbered(log, candidates, deadline);
    var grown := log + [a];
    forall i | 0 <= i < |grown| - 1 ensures Follows(grown[i], grown[i + 1], candidates) {
      assert i == |log| - 1 ==> grown[i + 1] == a;
    }
  }

  lemma PrefixIsLog(log: seq<Attempt>, candidates: seq<Provider>, deadline: real)
    requires IsLog(log, candidates, deadline) && log != []
    ensures IsLog(log[..|log| - 1], candidates, deadline)
  {
    var init := log[..|log| - 1];
    forall i | 0 <= i < |init| - 1 ensures Follows(init[i], init[i + 1], candidates) {
      assert Follows(log[i], log[i + 1], candidates);
    }
  }

  // ---- What follows for every log -------------------------------------------------------

  /** Attempts are numbered 1..n. */
  lemma {:induction false} LogIsNumbered(log: seq<Attempt>, candidates: seq<Provider>, deadline: real)
    requires IsLog(log, candidates, deadline)
    ensures forall i :: 0 <= i < |log| ==> log[i].number == i + 1
  {
    if log != [] {
      var init := log[..|log| - 1];
      PrefixIsLog(log, candidates, deadline);
      LogIsNumbered(init, candidates, deadline);
      if |log| > 1 {
        assert Follows(log[|log| - 2], log[|log| - 2 + 1], candidates);
        assert init[|log| - 2].number == |log| - 1;
      }
    }
  }

  /** Only the last attempt can have succeeded or delivered anything; providers come in order. */
  lemma OnlyLastDelivers(log: seq<Attempt>, candidates: seq<Provider>, deadline: real, i: nat)
    requires IsLog(log, candidates, deadline) && i + 1 < |log|
    ensures !log[i].success && !log[i].partial && Delivered(log[i]) == []
    ensures log[i].provider <= log[i + 1].provider <= log[i].provider + 1
  {
    assert Follows(log[i], log[i + 1], candidates);
  }

  /** Attempts that the queue allows for its first `n` providers. */
  function Budget(candidates: seq<Provider>, n: nat): (b: nat)
    requires n <= |candidates|
  {
    if n == 0 then 0 else Budget(candidates, n - 1) + Retries(candidates[n - 1]) + 1
  }

  lemma {:induction false} BudgetGrows(candidates: seq<Provider>, m: nat, n: nat)
    requires m <= n <= |candidates|
    ensures Budget(candidates, m) <= Budget(candidates, n)
  {
    if m < n {
      BudgetGrows(candidates, m, n - 1);
    }
  }

  lemma {:induction false} AttemptsAreCounted(log: seq<Attempt>, candidates: seq<Provider>, deadline: real, i: nat)
    requires IsLog(log, candidates, deadline) && i < |log|
    ensures i + 1 <= Budget(candidates, log[i].provider) + log[i].retry + 1
  {
    if i > 0 {
      AttemptsAreCounted(log, candidates, deadline, i - 1);
      assert Follows(log[i - 1], log[i - 1 + 1], candidates);
    }
  }

  /** A log is never longer than the sum over the candidates of retries plus one. */
  lemma LogIsBounded(log: seq<Attempt>, candidates: seq<Provider>, deadline: real)
    requires IsLog(log, candidates, deadline)
    ensures |log| <= Budget(candidates, |candidates|)
  {
    if log != [] {
      var last := log[|log| - 1];
      AttemptsAreCounted(log, candidates, deadline, |log| - 1);
      BudgetGrows(candidates, last.provider + 1, |candidates|);
    }
  }

  function AllDelivered(log: seq<Attempt>): seq<Chunk>
  {
    if log == [] then [] else AllDelivered(log[..|log| - 1]) + Delivered(log[|log| - 1])
  }

  /** Everything all attempts delivered is what the last one delivered: streams are never joined. */
  lemma {:induction false} StreamsAreNotJoined(log: seq<Attempt>, candidates: seq<Provider>, deadline: real)
    requires IsLog(log, candidates, deadline) && log != []
    ensures AllDelivered(log) == Delivered(log[|log| - 1])
    decreases |log|
  {
    var init := log[..|log| - 1];
    if init != [] {
      OnlyLastDelivers(log, candidates, deadline, |log| - 2);
      PrefixIsLog(log, candidates, deadline);
      StreamsAreNotJoined(init, candidates, deadline);
    }
  }

  /** Question `t` was asked after all that is logged. */
  ghost predicate IsBehind(log: seq<Attempt>, t: nat, clock: nat)
  {
    t < clock && forall i :: 0 <= i < |log| ==> log[i].at < t
  }

  /** Behind the last entry the deadline was seen to have passed. */
  ghost predicate IsLate(w: World, log: seq<Attempt>, deadline: real, clock: nat)
  {
    exists t: nat :: w.now(t) >= deadline && IsBehind(log, t, clock)
  }

  /** Behind the last entry the caller was seen to cancel, or that entry is a cancelled call. */
  ghost predicate IsCancelled(w: World, log: seq<Attempt>, clock: nat)
  {
    || (exists t: nat :: w.cancelled(t) && IsBehind(log, t, clock))
    || (log != [] && log[|log| - 1].category == Some(CancelledByCaller))
  }

  lemma SeenLate(w: World, log: seq<Attempt>, candidates: seq<Provider>, deadline: real, t: nat, clock: nat)
    requires IsRecord(log, w, candidates, deadline, t) && t < clock
    ensures w.now(t) >= deadline ==> IsLate(w, log, deadline, clock)
    ensures w.cancelled(t) ==> IsCancelled(w, log, clock)
  {
    assert IsBehind(log, t, clock);
  }

  // ---- One execution ----------------------------------------------------------------------

  datatype Step = NextProvider | StopFailover(deadlineHit: bool) | Finished(outcome: Outcome)

  /** What an execution that ended with `outcome` has logged and yielded. */
  ghost predicate IsResult(outcome: Outcome, yielded: seq<Chunk>, log: seq<Attempt>)
  {
    match outcome
    case Completed =>
      log != [] &&
      var last := log[|log| - 1];
      last.success && last.call.Some? && yielded == last.call.value.output
    case Interrupted =>
      log != [] && log[|log| - 1].partial && yielded == Delivered(log[|log| - 1]) && yielded != []
    case Cancelled =>
      && (log != [] ==> !log[|log| - 1].success && yielded == Delivered(log[|log| - 1]))
      && (log == [] ==> yielded == [])
    case Exhausted =>
      yielded == [] && (log != [] ==> !log[|log| - 1].success && !log[|log| - 1].partial)
    case ClosedByConsumer =>
      log != [] ==> !log[|log| - 1].success && !log[|log| - 1].partial
  }

  /** What the log of an execution looks like at any time. */
  ghost predicate IsRecord(log: seq<Attempt>, w: World, candidates: seq<Provider>, deadline: real, clock: nat)
  {
    IsLog(log, candidates, deadline) && IsObserved(log, w, deadline, clock)
  }

  /** The provider may be tried again, or left behind once its retries are used up. */
  predicate IsAgain(log: seq<Attempt>, candidates: seq<Provider>, p: nat, k: nat)
    requires p < |candidates|
  {
    if k < Retries(candidates[p]) then Ready(log, candidates, p, k + 1) else Ready(log, candidates, p + 1, 0)
  }

  predicate IsFatal(log: seq<Attempt>)
  {
    log != [] && log[|log| - 1].category.Some? && !Retryable(log[|log| - 1].category.value)
  }

  datatype Verdict = Done(outcome: Outcome) | Fatal | Again

  /** What one call leads to. */
  ghost predicate Settles(verdict: Verdict, yielded: seq<Chunk>, log: seq<Attempt>, candidates: seq<Provider>, p: nat, k: nat)
    requires p < |candidates|
  {
    match verdict
    case Done(outcome) => IsResult(outcome, yielded, log) && !outcome.Exhausted?
    case Fatal => IsResult(Exhausted, yielded, log) && IsFatal(log)
    case Again => IsResult(Exhausted, yielded, log) && IsResult(Cancelled, yielded, log) && IsAgain(log, candidates, p, k)
  }

  function VerdictOf(call: UpstreamCall): Verdict
  {
    match call.ending
    case Complete => Done(Completed)
    case CallCancelled => Done(Cancelled)
    case Failure(category) =>
      if call.delivered > 0 then Done(Interrupted) else if Retryable(category) then Again else Fatal
  }

  function Entry(number: nat, p: nat, k: nat, started: real, call: UpstreamCall, at: nat): Attempt
  {
    var category := match call.ending
      case Complete => None
      case CallCancelled => Some(CancelledByCaller)
      case Failure(c) => Some(c);
    Attempt(number, p, k, category.None?, category, category.Some? && call.delivered > 0, started, Some(call), at)
  }

  lemma EntryIsLegal(number: nat, w: World, candidates: seq<Provider>, deadline: real, p: nat, k: nat, since: nat)
    requires p < |candidates| && k <= Retries(candidates[p]) && MayCall(w, deadline, since, k)
    ensures var a := Entry(number, p, k, w.now(since + 2), w.call(since + 3), since + 3);
            IsAttempt(a, candidates, deadline) && IsAnswered(a, w, deadline, since)
  {
    hide IsClear;
  }

  lemma EntrySettles(log: seq<Attempt>, candidates: seq<Provider>, p: nat, k: nat, started: real, call: UpstreamCall, at: nat)
    requires p < |candidates| && k <= Retries(candidates[p])
    ensures Settles(VerdictOf(call), call.output[..call.delivered], log + [Entry(|log| + 1, p, k, started, call, at)],
                    candidates, p, k)
  {
    var grown := log + [Entry(|log| + 1, p, k, started, call, at)];
    assert grown[|grown| - 1] == Entry(|log| + 1, p, k, started, call, at);
    if call.ending.Complete? {
      assert call.output[..call.delivered] == call.output;
    }
  }

  /** Logging a call keeps the record and settles what happens next. */
  lemma EntryIsLogged(log: seq<Attempt>, w: World, candidates: seq<Provider>, deadline: real,
                      p: nat, k: nat, started: real, at: nat)
    requires IsRecord(log, w, candidates, deadline, at) && IsNext(w, candidates, deadline, log, p, k)
    requires p < |candidates| && k <= Retries(candidates[p])
    requires at == Since(log, |log|) + 3 && started == w.now(at - 1)
    ensures var call := w.call(at);
            var grown := log + [Entry(|log| + 1, p, k, started, call, at)];
            && IsRecord(grown, w, candidates, deadline, at + 1)
            && Settles(VerdictOf(call), call.output[..call.delivered], grown, candidates, p, k)
            && Since(grown, |grown|) == at + 1
            && (call.ending.CallCancelled? ==> IsCancelled(w, grown, at + 1))
  {
    hide IsLog, IsObserved, IsAttempt, IsAnswered, Ready, MayCall, Follows, Settles, Since;
    var a := Entry(|log| + 1, p, k, started, w.call(at), at);
    EntryIsLegal(|log| + 1, w, candidates, deadline, p, k, Since(log, |log|));
    LogGrows(log, a, candidates, deadline);
    ObservedGrows(log, a, w, deadline, at + 1);
    EntrySettles(log, candidates, p, k, started, w.call(at), at);
    EntryIsLast(log, a, w);
  }

  lemma EntryIsLast(log: seq<Attempt>, a: Attempt, w: World)
    ensures Since(log + [a], |log| + 1) == a.at + 1
    ensures a.category == Some(CancelledByCaller) ==> IsCancelled(w, log + [a], a.at + 1)
  {
  }

  /** One call and its log entry. */
  method TryOnce(w: World, candidates: seq<Provider>, p: nat, k: nat, deadline: real,
                 patience: Option<nat>, attempts: seq<Attempt>, started: real, at: nat)
    returns (verdict: Verdict, yielded: seq<Chunk>, log: seq<Attempt>)
    requires p < |candidates| && k <= Retries(candidates[p])
    requires IsRecord(attempts, w, candidates, deadline, at) && IsNext(w, candidates, deadline, attempts, p, k)
    requires at == Since(attempts, |attempts|) + 3 && started == w.now(at - 1)
    ensures IsRecord(log, w, candidates, deadline, at + 1) && Settles(verdict, yielded, log, candidates, p, k)
    ensures verdict == Done(ClosedByConsumer) ==> IsClosedCall(w, candidates, deadline, log, patience, yielded)
    ensures verdict == Done(Cancelled) ==> IsCancelled(w, log, at + 1)
    ensures if verdict == Done(ClosedByConsumer) then log == attempts
            else |log| == |attempts| + 1 && Since(log, |log|) == at + 1
  {
    hide IsRecord, IsNext, Since, Settles, IsCancelled, IsClosedCall, Entry;
    var call: UpstreamCall := w.call(at);
    if patience.Some? && patience.value <= call.delivered {
      ClosingIsResult(attempts, w, candidates, deadline, p, k, patience, call.output[..patience.value], at);
      return Done(ClosedByConsumer), call.output[..patience.value], attempts;
    }
    EntryIsLogged(attempts, w, candidates, deadline, p, k, started, at);
    log := attempts + [Entry(|attempts| + 1, p, k, started, call, at)];
    yielded := call.output[..call.delivered];
    match call.ending {
      case Complete => verdict := Done(Completed);
      case CallCancelled => verdict := Done(Cancelled);
      case Failure(category) =>
        verdict := if call.delivered > 0 then Done(Interrupted) else if Retryable(category) then Again else Fatal;
    }
  }

  lemma ClosingIsResult(log: seq<Attempt>, w: World, candidates: seq<Provider>, deadline: real,
                        p: nat, k: nat, patience: Option<nat>, yielded: seq<Chunk>, at: nat)
    requires p < |candidates| && k <= Retries(candidates[p]) && at == Since(log, |log|) + 3
    requires IsRecord(log, w, candidates, deadline, at) && IsNext(w, candidates, deadline, log, p, k)
    requires patience.Some? && patience.value <= w.call(at).delivered && yielded == w.call(at).output[..patience.value]
    ensures IsRecord(log, w, candidates, deadline, at + 1)
    ensures Settles(Done(ClosedByConsumer), yielded, log, candidates, p, k)
    ensures IsClosedCall(w, candidates, deadline, log, patience, yielded)
  {
    hide MayCall, Follows, IsObserved;
    TimePasses(log, w, candidates, deadline, at, at + 1);
    if log != [] {
      assert IsAttempt(log[|log| - 1], candidates, deadline);
    }
  }

  /** One provider's share: its attempt and its retries. */
  method StreamProvider(w: World, candidates: seq<Provider>, p: nat, deadline: real,
                        patience: Option<nat>, attempts: seq<Attempt>, tick: nat)
    returns (step: Step, yielded: seq<Chunk>, log: seq<Attempt>, clock: nat)
    requires p < |candidates| && Ready(attempts, candidates, p, 0)
    requires IsRecord(attempts, w, candidates, deadline, tick) && tick <= 6 * |attempts| + 2
    requires tick == Since(attempts, |attempts|) + 2 && !w.cancelled(tick - 2) && w.acquired(tick - 1)
    ensures IsRecord(log, w, candidates, deadline, clock) && clock <= 6 * |log| + 4
    ensures step.NextProvider? ==> clock <= 6 * |log| && clock == Since(log, |log|)
    ensures step.NextProvider? ==> yielded == [] && Ready(log, candidates, p + 1, 0)
    ensures step.StopFailover? ==> IsResult(Exhausted, yielded, log)
    ensures step == StopFailover(false) ==> IsFatal(log)
    ensures step.Finished? ==> IsResult(step.outcome, yielded, log) && !step.outcome.Exhausted?
    ensures step == Finished(ClosedByConsumer) ==> IsClosedCall(w, candidates, deadline, log, patience, yielded)
    ensures step == StopFailover(true) ==> IsLate(w, log, deadline, clock)
    ensures step == Finished(Cancelled) ==> IsCancelled(w, log, clock)
  {
    hide IsAttempt, IsAnswered, Follows, MayReplay, MayMoveOn, IsRecord, Ready, IsClosedCall, IsFatal, IsLate, IsCancelled;
    log, clock, yielded := attempts, tick, [];
    NothingYielded(log, w, candidates, deadline, clock, p, 0);
    var retries := Retries(candidates[p]);
    for k := 0 to retries + 1
      invariant IsRecord(log, w, candidates, deadline, clock) && yielded == []
      invariant clock <= 6 * |log| + if k == 0 then 2 else 0
      invariant if k <= retries then clock == Since(log, |log|) + 2 && IsClear(w, deadline, Since(log, |log|), k)
                else clock == Since(log, |log|)
      invariant IsResult(Exhausted, yielded, log)
      invariant if k <= retries then Ready(log, candidates, p, k) else Ready(log, candidates, p + 1, 0)
    {
      var started := w.now(clock);
      SeenLate(w, log, candidates, deadline, clock, clock + 1);
      TimePasses(log, w, candidates, deadline, clock, clock + 1);
      clock := clock + 1;
      if started >= deadline {
        return StopFailover(true), [], log, clock;
      }
      assert IsNext(w, candidates, deadline, log, p, k);
      var verdict;
      verdict, yielded, log := TryOnce(w, candidates, p, k, deadline, patience, log, started, clock);
      clock := clock + 1;
      match verdict {
        case Done(outcome) =>
          return Finished(outcome), yielded, log, clock;
        case Fatal =>
          return StopFailover(false), [], log, clock;
        case Again =>
      }
      if k >= retries {
        break;
      }
      TimePasses(log, w, candidates, deadline, clock, clock + 2);
      SeenLate(w, log, candidates, deadline, clock, clock + 2);
      TimePasses(log, w, candidates, deadline, clock, clock + 1);
      SeenLate(w, log, candidates, deadline, clock + 1, clock + 2);
      var remaining := deadline - w.now(clock);
      var cancelled := w.cancelled(clock + 1);
      clock := clock + 2;
      if remaining <= 0.0 {
        return StopFailover(true), [], log, clock;
      }
      if cancelled {
        return Finished(Cancelled), [], log, clock;
      }
    }
    return NextProvider, [], log, clock;
  }

  lemma NothingYielded(log: seq<Attempt>, w: World, candidates: seq<Provider>, deadline: real, clock: nat, p: nat, k: nat)
    requires IsRecord(log, w, candidates, deadline, clock) && Ready(log, candidates, p, k)
    ensures IsResult(Exhausted, [], log) && IsResult(Cancelled, [], log)
  {
    if log != [] {
      assert IsAttempt(log[|log| - 1], candidates, deadline);
    }
  }

  lemma TimePasses(log: seq<Attempt>, w: World, candidates: seq<Provider>, deadline: real, clock: nat, later: nat)
    requires IsRecord(log, w, candidates, deadline, clock) && clock <= later
    ensures IsRecord(log, w, candidates, deadline, later)
  {
  }

  /** The loop over the providers. */
  method RunQueue(w: World, candidates: seq<Provider>, deadline: real, patience: Option<nat>)
    returns (outcome: Outcome, yielded: seq<Chunk>, log: seq<Attempt>, deadlineHit: bool, clock: nat)
    ensures IsRecord(log, w, candidates, deadline, clock) && IsResult(outcome, yielded, log)
    ensures clock <= 6 * |log| + 4
    ensures outcome.Exhausted? && !deadlineHit ==> IsUsedUp(log, candidates)
    ensures deadlineHit ==> outcome.Exhausted? && IsLate(w, log, deadline, clock)
    ensures outcome.Cancelled? ==> IsCancelled(w, log, clock)
    ensures outcome.ClosedByConsumer? ==> IsClosedCall(w, candidates, deadline, log, patience, yielded)
  {
    hide IsAttempt, IsAnswered, Follows, MayReplay, MayMoveOn, Delivered, Ready, IsFatal, IsClosedCall, IsLate, IsCancelled,
         IsRecord;
    log, yielded, deadlineHit, clock := [], [], false, 0;
    var p := 0;
    EmptyIsRecord(w, candidates, deadline);
    while p < |candidates|
      invariant p <= |candidates| && IsRecord(log, w, candidates, deadline, clock)
      invariant clock <= 6 * |log| && clock == Since(log, |log|)
      invariant Ready(log, candidates, p, 0) && yielded == [] && !deadlineHit
    {
      NothingYielded(log, w, candidates, deadline, clock, p, 0);
      TimePasses(log, w, candidates, deadline, clock, clock + 1);
      SeenLate(w, log, candidates, deadline, clock, clock + 1);
      var cancelled := w.cancelled(clock);
      clock := clock + 1;
      if cancelled {
        return Cancelled, [], log, false, clock;
      }
      if !w.acquired(clock) {
        var skipped := Attempt(|log| + 1, p, 0, false, Some(CircuitOpen), false, w.now(clock), None, clock);
        SkipIsLogged(log, skipped, w, candidates, deadline);
        log := log + [skipped];
        clock, p := clock + 1, p + 1;
        continue;
      }
      TimePasses(log, w, candidates, deadline, clock, clock + 1);
      var step;
      step, yielded, log, clock := StreamProvider(w, candidates, p, deadline, patience, log, clock + 1);
      if step.Finished? {
        return step.outcome, yielded, log, false, clock;
      }
      if step.StopFailover? {
        return Exhausted, yielded, log, step.deadlineHit, clock;
      }
      p := p + 1;
    }
    NothingYielded(log, w, candidates, deadline, clock, p, 0);
    return Exhausted, [], log, false, clock;
  }

  lemma EmptyIsRecord(w: World, candidates: seq<Provider>, deadline: real)
    ensures Ready([], candidates, 0, 0) && IsRecord([], w, candidates, deadline, 0)
  {
  }

  /** Every candidate was tried as often as allowed, or the last error forbids a replay. */
  predicate IsUsedUp(log: seq<Attempt>, candidates: seq<Provider>)
  {
    Ready(log, candidates, |candidates|, 0) || IsFatal(log)
  }

  lemma SkipIsLogged(log: seq<Attempt>, skipped: Attempt, w: World, candidates: seq<Provider>, deadline: real)
    requires IsRecord(log, w, candidates, deadline, skipped.at) && skipped.provider < |candidates|
    requires Ready(log, candidates, skipped.provider, 0) && skipped.number == |log| + 1 && skipped.retry == 0
    requires skipped.category == Some(CircuitOpen) && skipped.call.None? && !skipped.success && !skipped.partial
    requires IsAnswered(skipped, w, deadline, Since(log, |log|))
    ensures IsRecord(log + [skipped], w, candidates, deadline, skipped.at + 1)
    ensures Ready(log + [skipped], candidates, skipped.provider + 1, 0)
  {
    LogGrows(log, skipped, candidates, deadline);
    ObservedGrows(log, skipped, w, deadline, skipped.at + 1);
  }

  /**
   The whole execution.  Whatever the providers, breakers, clock and caller do:
   the log is a legal one made of distinct answers of the surroundings, and the
   chunks yielded come from one upstream call alone, the one of the last entry
   (or the one the consumer closed): its complete output exactly when that
   entry succeeded.
   */
  method ExecuteStream(w: World, candidates: seq<Provider>, deadline: real, patience: Option<nat>)
    returns (outcome: Outcome, yielded: seq<Chunk>, log: seq<Attempt>, deadlineHit: bool, clock: nat)
    ensures IsRecord(log, w, candidates, deadline, clock) && IsResult(outcome, yielded, log)
    ensures clock <= 6 * |log| + 4
    ensures outcome.Completed? <==> exists i :: 0 <= i < |log| && log[i].success
    ensures !outcome.ClosedByConsumer? ==> yielded == AllDelivered(log)
    ensures yielded != [] ==> exists t: nat, n: nat :: n <= w.call(t).delivered && yielded == w.call(t).output[..n]
    ensures outcome.Completed? ==> yielded == w.call(log[|log| - 1].at).output
    ensures |log| <= Budget(candidates, |candidates|)
    ensures outcome.Exhausted? && !deadlineHit ==> IsUsedUp(log, candidates)
    ensures deadlineHit ==> outcome.Exhausted? && IsLate(w, log, deadline, clock)
    ensures outcome.Cancelled? ==> IsCancelled(w, log, clock)
    ensures outcome.ClosedByConsumer? ==> IsClosedCall(w, candidates, deadline, log, patience, yielded)
  {
    hide IsLog, IsObserved, IsClosedCall, IsLate, IsCancelled, IsUsedUp, IsAttempt, IsAnswered, Budget, AllDelivered;
    outcome, yielded, log, deadlineHit, clock := RunQueue(w, candidates, deadline, patience);
    LogIsBounded(log, candidates, deadline);
    OutcomeIsOfLast(candidates, deadline, outcome, yielded, log);
    YieldIsOneCall(w, candidates, deadline, patience, outcome, yielded, log, clock);
  }

  lemma OutcomeIsOfLast(candidates: seq<Provider>, deadline: real, outcome: Outcome, yielded: seq<Chunk>, log: seq<Attempt>)
    requires IsLog(log, candidates, deadline) && IsResult(outcome, yielded, log)
    ensures outcome.Completed? <==> exists i :: 0 <= i < |log| && log[i].success
    ensures !outcome.ClosedByConsumer? ==> yielded == AllDelivered(log)
  {
    hide IsLog, AllDelivered;
    if log == [] {
      assert AllDelivered(log) == [] by { NothingDelivered(); }
    } else {
      LastIsAttempt(log, candidates, deadline);
      StreamsAreNotJoined(log, candidates, deadline);
      forall i | 0 <= i < |log| - 1 ensures !log[i].success {
        OnlyLastDelivers(log, candidates, deadline, i);
      }
    }
  }

  lemma NothingDelivered()
    ensures AllDelivered([]) == []
  {
  }

  lemma YieldIsOneCall(w: World, candidates: seq<Provider>, deadline: real, patience: Option<nat>,
                       outcome: Outcome, yielded: seq<Chunk>, log: seq<Attempt>, clock: nat)
    requires IsRecord(log, w, candidates, deadline, clock) && IsResult(outcome, yielded, log)
    requires outcome.ClosedByConsumer? ==> IsClosedCall(w, candidates, deadline, log, patience, yielded)
    ensures yielded != [] ==> exists t: nat, n: nat :: n <= w.call(t).delivered && yielded == w.call(t).output[..n]
    ensures outcome.Completed? ==> yielded == w.call(log[|log| - 1].at).output
  {
    hide IsLog, IsAttempt;
    if outcome.ClosedByConsumer? {
      assert patience.value <= w.call(Since(log, |log|) + 3).delivered;
    } else if log != [] {
      var last := log[|log| - 1];
      assert IsAnsweredAt(log, |log| - 1, w, deadline);
      if yielded != [] {
        LastIsAttempt(log, candidates, deadline);
        assert yielded == w.call(last.at).output[..w.call(last.at).delivered];
      }
    }
  }

  lemma LastIsAttempt(log: seq<Attempt>, candidates: seq<Provider>, deadline: real)
    requires IsLog(log, candidates, deadline) && log != []
    ensures IsAttempt(log[|log| - 1], candidates, deadline)
  {
  }
}
