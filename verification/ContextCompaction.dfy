/**
 Keeping a conversation under its size threshold: the default compaction and the
 check on custom compactors in `kirara_ai/agent_runtime/executor.py`.
 The size of one message is a given function.
 */
module ContextCompaction {
  import opened Wrappers
  import opened AgentMessages
  import opened TextUnits

  type Size = Message -> nat

  function Chars(size: Size, messages: seq<Message>): nat
  {
    if messages == [] then 0 else size(messages[0]) + Chars(size, messages[1..])
  }

  // ---- User turns ---------------------------------------------------------------------

  /** The messages before the first user message belong to no turn. */
  function GroupTurns(history: seq<Message>): (turns: seq<seq<Message>>)
    ensures forall t :: 0 <= t < |turns| ==> turns[t] != []
  {
    if history == [] then []
    else
      var n := |history| - 1;
      var before := GroupTurns(history[..n]);
      if history[n].role.User? then before + [[history[n]]]
      else if before == [] then []
      else before[..|before| - 1] + [before[|before| - 1] + [history[n]]]
  }

  method CollectTurns(history: seq<Message>) returns (turns: seq<seq<Message>>)
    ensures turns == GroupTurns(history)
  {
    turns := [];
    var turn: Option<seq<Message>> := None;
    for i := 0 to |history|
      invariant GroupTurns(history[..i]) == turns + if turn.Some? then [turn.value] else []
      invariant turn.Some? ==> turn.value != []
      invariant turn.None? ==> turns == []
    {
      assert history[..i + 1][..i] == history[..i];
      var message := history[i];
      if message.role == User {
        if turn.Some? {
          turns := turns + [turn.value];
        }
        turn := Some([message]);
      } else if turn.Some? {
        turn := Some(turn.value + [message]);
      }
    }
    assert history[..|history|] == history;
    if turn.Some? {
      turns := turns + [turn.value];
    }
  }

  predicate IsTurn(turn: seq<Message>)
  {
    turn != [] && turn[0].role.User? && forall k :: 0 < k < |turn| ==> !turn[k].role.User?
  }

  lemma FlattenSplit(groups: seq<seq<Message>>, k: nat)
    requires k <= |groups|
    ensures Flatten(groups) == Flatten(groups[..k]) + Flatten(groups[k..])
  {
    assert groups == groups[..k] + groups[k..];
    FlattenAppend(groups[..k], groups[k..]);
  }

  lemma {:induction false} GroupsAreTurns(history: seq<Message>)
    ensures forall t :: 0 <= t < |GroupTurns(history)| ==> IsTurn(GroupTurns(history)[t])
  {
    if history != [] {
      var n := |history| - 1;
      var before := GroupTurns(history[..n]);
      GroupsAreTurns(history[..n]);
      if !history[n].role.User? && before != [] {
        assert IsTurn(before[|before| - 1]);
      }
    }
  }

  lemma FlattenPush(groups: seq<seq<Message>>, m: Message)
    ensures Flatten(groups + [[m]]) == Flatten(groups) + [m]
  {
    FlattenAppend(groups, [[m]]);
    assert Flatten([[m]]) == [m];
  }

  lemma FlattenExtend(groups: seq<seq<Message>>, group: seq<Message>, m: Message)
    ensures Flatten(groups + [group + [m]]) == Flatten(groups + [group]) + [m]
  {
    FlattenAppend(groups, [group + [m]]);
    FlattenAppend(groups, [group]);
    assert Flatten([group + [m]]) == group + [m] && Flatten([group]) == group;
    assert Flatten(groups) + (group + [m]) == Flatten(groups) + group + [m];
  }

  lemma FlattenStep(history: seq<Message>)
    requires history != []
    ensures var n := |history| - 1;
            var before := GroupTurns(history[..n]);
            Flatten(GroupTurns(history)) ==
              if history[n].role.User? || before != [] then Flatten(before) + [history[n]] else []
  {
    var n := |history| - 1;
    var last, before := history[n], GroupTurns(history[..n]);
    if last.role.User? {
      FlattenPush(before, last);
    } else if before != [] {
      var b := |before| - 1;
      FlattenExtend(before[..b], before[b], last);
      assert before == before[..b] + [before[b]];
    }
  }

  /** The groups are complete user turns, and together they are the end of the history. */
  lemma {:induction false} TurnsAreComplete(history: seq<Message>)
    ensures var all := Flatten(GroupTurns(history));
            && |all| <= |history| && all == history[|history| - |all|..]
            && (forall k :: 0 <= k < |history| - |all| ==> !history[k].role.User?)
            && (GroupTurns(history) == [] ==> all == [])
  {
    hide GroupTurns, Flatten;
    GroupOfNone();
    if history != [] {
      var n := |history| - 1;
      TurnsAreComplete(history[..n]);
      FlattenStep(history);
      var before := Flatten(GroupTurns(history[..n]));
      assert history[n - |before|..] == history[..n][n - |before|..] + [history[n]];
      GroupsGrow(history);
    }
  }

  lemma GroupOfNone()
    ensures GroupTurns([]) == [] && Flatten(GroupTurns([])) == []
  {
  }

  lemma GroupsGrow(history: seq<Message>)
    requires history != []
    ensures GroupTurns(history) == [] <==> GroupTurns(history[..|history| - 1]) == [] && !history[|history| - 1].role.User?
  {
  }

  // ---- The default compaction -------------------------------------------------------------

  function ProtectedSystem(messages: seq<Message>): seq<Message>
  {
    var i := FirstSystem(messages);
    if i.None? then [] else [messages[i.value]]
  }

  /** The messages between the first system message and the current turn. */
  function HistoryOf(messages: seq<Message>): seq<Message>
  {
    var i, u := FirstSystem(messages), LatestUser(messages);
    var start := if i.None? then 0 else i.value + 1;
    if u.None? || start > u.value then [] else messages[start..u.value]
  }

  function Candidate(head: seq<Message>, turns: seq<seq<Message>>, current: seq<Message>): seq<Message>
  {
    head + Flatten(turns) + current
  }

  /** Drops the oldest turns until the rest fits, or nothing is left. */
  function Kept(size: Size, head: seq<Message>, turns: seq<seq<Message>>, current: seq<Message>, threshold: int)
    : seq<seq<Message>>
  {
    if turns == [] || Chars(size, Candidate(head, turns, current)) <= threshold then turns
    else Kept(size, head, turns[1..], current, threshold)
  }

  function DefaultCompact(size: Size, messages: seq<Message>, threshold: int): seq<Message>
  {
    if LatestUser(messages).None? then messages
    else
      var head, current := ProtectedSystem(messages), CurrentTurn(messages);
      Candidate(head, Kept(size, head, GroupTurns(HistoryOf(messages)), current, threshold), current)
  }

  lemma NothingKept(size: Size, head: seq<Message>, current: seq<Message>, threshold: int)
    ensures Candidate(head, Kept(size, head, [], current, threshold), current) == head + current
  {
  }

  method DefaultCompactMessages(size: Size, messages: seq<Message>, threshold: int) returns (r: seq<Message>)
    ensures r == DefaultCompact(size, messages, threshold)
  {
    hide Chars, GroupTurns, HistoryOf, CurrentTurn, ProtectedSystem, LatestUser, Candidate;
    var latest := LatestUser(messages);
    if latest.None? {
      return messages;
    }
    var head, current := ProtectedSystem(messages), CurrentTurn(messages);
    var turns := CollectTurns(HistoryOf(messages));
    ghost var goal := Kept(size, head, turns, current, threshold);
    while turns != []
      invariant Kept(size, head, turns, current, threshold) == goal
      decreases |turns|
    {
      var candidate := Candidate(head, turns, current);
      if Chars(size, candidate) <= threshold {
        return candidate;
      }
      turns := turns[1..];
    }
    NothingKept(size, head, current, threshold);
    return head + current;
  }

  /** What is kept is the longest run of latest turns that fits; nothing when no run does. */
  lemma {:induction false} KeptIsLongest(size: Size, head: seq<Message>, turns: seq<seq<Message>>, current: seq<Message>,
                                         threshold: int)
    ensures var kept := Kept(size, head, turns, current, threshold);
            && |kept| <= |turns| && kept == turns[|turns| - |kept|..]
            && (kept != [] ==> Chars(size, Candidate(head, kept, current)) <= threshold)
            && forall j :: 0 <= j < |turns| - |kept| ==> Chars(size, Candidate(head, turns[j..], current)) > threshold
  {
    hide Chars, Candidate;
    assert turns[0..] == turns;
    if turns != [] && Chars(size, Candidate(head, turns, current)) > threshold {
      KeptIsLongest(size, head, turns[1..], current, threshold);
      assert forall j :: 0 < j < |turns| ==> turns[1..][j - 1..] == turns[j..];
    }
  }

  /** The compacted list is the system message, as many latest complete turns as fit, and the current turn untouched. */
  lemma DefaultKeepsLatestTurns(size: Size, messages: seq<Message>, threshold: int, k: nat)
    requires LatestUser(messages).Some? && k <= |GroupTurns(HistoryOf(messages))|
    requires forall j :: 0 <= j < k ==>
               Chars(size, Candidate(ProtectedSystem(messages), GroupTurns(HistoryOf(messages))[j..], CurrentTurn(messages))) > threshold
    requires k < |GroupTurns(HistoryOf(messages))| ==>
               Chars(size, Candidate(ProtectedSystem(messages), GroupTurns(HistoryOf(messages))[k..], CurrentTurn(messages))) <= threshold
    ensures DefaultCompact(size, messages, threshold) ==
            Candidate(ProtectedSystem(messages), GroupTurns(HistoryOf(messages))[k..], CurrentTurn(messages))
  {
    hide Chars, Candidate, ProtectedSystem, HistoryOf, GroupTurns, CurrentTurn;
    var turns := GroupTurns(HistoryOf(messages));
    KeptIsLongest(size, ProtectedSystem(messages), turns, CurrentTurn(messages), threshold);
    var kept := Kept(size, ProtectedSystem(messages), turns, CurrentTurn(messages), threshold);
    assert kept == turns[k..];
  }

  // ---- The check on custom compactors ---------------------------------------------------------

  /** `_validate_compacted_messages`. */
  predicate Accepts(original: seq<Message>, compacted: seq<Message>)
  {
    var system, current := FirstSystem(original), CurrentTurn(original);
    && (system.Some? ==> compacted != [] && compacted[0] == original[system.value])
    && (current != [] ==> |compacted| >= |current| && compacted[|compacted| - |current|..] == current)
    && compacted != [] && Paired(compacted)
  }

  method ValidateCompactedMessages(original: seq<Message>, candidate: seq<Message>) returns (r: Result<seq<Message>, ()>)
    ensures r == if Accepts(original, candidate) then Ok(candidate) else Err(())
  {
    var firstSystem := FirstSystem(original);
    var current := CurrentTurn(original);
    if firstSystem.Some? {
      if candidate == [] || candidate[0] != original[firstSystem.value] {
        return Err(());
      }
    }
    if current != [] {
      if |candidate| < |current| || candidate[|candidate| - |current|..] != current {
        return Err(());
      }
    }
    if candidate == [] {
      return Err(());
    }
    var ok := RequireValidToolPairs(candidate);
    return if ok then Ok(candidate) else Err(());
  }

  /** Any run of latest complete turns is paired on its own. */
  lemma TurnsArePaired(history: seq<Message>, k: nat)
    requires Paired(history) && k <= |GroupTurns(history)|
    ensures Paired(Flatten(GroupTurns(history)[k..]))
  {
    hide Paired, GroupTurns, Flatten;
    var turns := GroupTurns(history);
    TurnsAreComplete(history);
    GroupsAreTurns(history);
    FlattenSplit(turns, k);
    FirstOfTurns(turns, k);
    var all, rest := Flatten(turns), Flatten(turns[k..]);
    var lo := |history| - |rest|;
    EndOfEnd(history, all, Flatten(turns[..k]), rest);
    PairedSlice(history, lo, |history|);
  }

  lemma EndOfEnd(history: seq<Message>, all: seq<Message>, before: seq<Message>, rest: seq<Message>)
    requires |all| <= |history| && all == history[|history| - |all|..] && all == before + rest
    ensures history[|history| - |rest|..|history|] == rest
  {
  }

  lemma FirstOfTurns(turns: seq<seq<Message>>, k: nat)
    requires k <= |turns| && forall t :: t in turns ==> t != []
    ensures Flatten(turns[k..]) != [] ==> k < |turns| && turns[k] != [] && Flatten(turns[k..])[0] == turns[k][0]
  {
    if k < |turns| {
      assert turns[k..][0] == turns[k] && turns[k] in turns;
    }
  }

  lemma HistoryIsPaired(messages: seq<Message>)
    requires Paired(messages)
    ensures Paired(HistoryOf(messages))
  {
    hide AnswersPrevious;
    var i, u := FirstSystem(messages), LatestUser(messages);
    var start := if i.None? then 0 else i.value + 1;
    if u.Some? && start <= u.value {
      if start < u.value && messages[start].role.Tool? && start > 0 {
        TurnIsNotSystem(messages[start - 1], messages[start]);
      }
      PairedSlice(messages, start, u.value);
    }
  }

  lemma HeadIsPaired(messages: seq<Message>)
    ensures Paired(ProtectedSystem(messages))
  {
    hide AnswersPrevious;
  }

  lemma CurrentTurnIsPaired(messages: seq<Message>)
    requires Paired(messages)
    ensures Paired(CurrentTurn(messages))
  {
    hide AnswersPrevious;
    var u := LatestUser(messages);
    if u.Some? {
      PairedSlice(messages, u.value, |messages|);
      assert messages[u.value..|messages|] == messages[u.value..];
    }
  }

  lemma DefaultIsPaired(size: Size, messages: seq<Message>, threshold: int)
    requires Paired(messages)
    ensures Paired(DefaultCompact(size, messages, threshold))
  {
    hide Paired, Chars, ProtectedSystem, CurrentTurn, HistoryOf, GroupTurns, Kept, LatestUser;
    if LatestUser(messages).Some? {
      var head, current := ProtectedSystem(messages), CurrentTurn(messages);
      var turns := GroupTurns(HistoryOf(messages));
      KeptIsLongest(size, head, turns, current, threshold);
      var kept := Kept(size, head, turns, current, threshold);
      HistoryIsPaired(messages);
      TurnsArePaired(HistoryOf(messages), |turns| - |kept|);
      HeadIsPaired(messages);
      CurrentTurnIsPaired(messages);
      PairedConcat(head, Flatten(kept));
      PairedConcat(head + Flatten(kept), current);
    }
  }

  /**
   The default compaction meets the check imposed on custom compactors exactly
   when there is a user message, or no system message out of first place.
   */
  lemma DefaultIsAcceptedIff(size: Size, messages: seq<Message>, threshold: int)
    requires Paired(messages) && messages != []
    ensures Accepts(messages, DefaultCompact(size, messages, threshold)) <==>
            LatestUser(messages).Some? || FirstSystem(messages).None? || messages[0].role.System?
  {
    hide Paired, Chars, Kept, GroupTurns, LatestUser;
    DefaultIsPaired(size, messages, threshold);
    var system, current := FirstSystem(messages), CurrentTurn(messages);
    var compacted := DefaultCompact(size, messages, threshold);
    if LatestUser(messages).Some? {
      assert compacted[|compacted| - |current|..] == current;
    } else if system.Some? && !messages[0].role.System? {
      assert messages[0] != messages[system.value];
    }
  }

  // ---- Compaction in a run -------------------------------------------------------------------------

  /** `_maybe_compact_messages`; the candidate is what a custom compactor returned, if it returned. */
  function MaybeCompact(size: Size, messages: seq<Message>, threshold: int, candidate: Option<seq<Message>>): seq<Message>
  {
    if threshold <= 0 || Chars(size, messages) <= threshold then messages
    else if candidate.Some? && Accepts(messages, candidate.value) then candidate.value
    else DefaultCompact(size, messages, threshold)
  }

  method MaybeCompactMessages(size: Size, messages: seq<Message>, threshold: int, candidate: Option<seq<Message>>)
    returns (r: seq<Message>)
    ensures r == MaybeCompact(size, messages, threshold, candidate)
  {
    hide DefaultCompact, Accepts;
    if threshold <= 0 || Chars(size, messages) <= threshold {
      return messages;
    }
    if candidate.Some? {
      var validated := ValidateCompactedMessages(messages, candidate.value);
      if validated.Ok? {
        return validated.value;
      }
    }
    r := DefaultCompactMessages(size, messages, threshold);
  }

  lemma AcceptedKeepsConversation(messages: seq<Message>, compacted: seq<Message>)
    requires IsConversation(messages) && Accepts(messages, compacted)
    ensures IsConversation(compacted) && compacted[0] == messages[0] && CurrentTurn(compacted) == CurrentTurn(messages)
  {
    hide Paired, CurrentTurn;
    var current := CurrentTurn(messages);
    var n := |compacted| - |current|;
    TurnOfTurn(messages);
    ConversationHead(messages);
    TurnOfSuffix(compacted[..n], current);
    assert compacted[..n] + compacted[n..] == compacted;
  }

  /** Whatever compactor runs, the system message and the current turn survive, and pairing with them. */
  lemma CompactionKeepsConversation(size: Size, messages: seq<Message>, threshold: int, candidate: Option<seq<Message>>)
    requires IsConversation(messages)
    ensures var r := MaybeCompact(size, messages, threshold, candidate);
            IsConversation(r) && r[0] == messages[0] && CurrentTurn(r) == CurrentTurn(messages)
  {
    hide DefaultCompact, Chars, Accepts, IsConversation, CurrentTurn;
    ConversationHead(messages);
    var r := MaybeCompact(size, messages, threshold, candidate);
    if r != messages {
      if !(candidate.Some? && Accepts(messages, candidate.value)) {
        DefaultIsAcceptedIff(size, messages, threshold);
      }
      AcceptedKeepsConversation(messages, r);
    }
  }

  // ---- Injected context -----------------------------------------------------------------------------

  lemma {:induction false} LeadingMessagesFormNoTurn(first: Message, history: seq<Message>)
    requires !first.role.User?
    ensures GroupTurns([first] + history) == GroupTurns(history)
  {
    var all := [first] + history;
    if history == [] {
      assert all[..0] == [];
    } else {
      var n := |history| - 1;
      assert all[..n + 1] == [first] + history[..n];
      LeadingMessagesFormNoTurn(first, history[..n]);
    }
  }

  lemma HistoryAt(messages: seq<Message>)
    requires IsConversation(messages)
    ensures LatestUser(messages).Some? && 1 <= LatestUser(messages).value < |messages|
    ensures HistoryOf(messages) == messages[1..LatestUser(messages).value]
    ensures ProtectedSystem(messages) == [messages[0]]
    ensures |CurrentTurn(messages)| == |messages| - LatestUser(messages).value
  {
    hide Paired;
    HeadIsFirstSystem(messages);
    TurnLength(messages);
  }

  lemma HistoryWithHook(messages: seq<Message>, texts: seq<string>)
    requires IsConversation(messages) && texts != []
    ensures var injected := InjectHookContext(messages, texts);
            && |injected| > 1 && injected[1].role.System?
            && HistoryOf(injected) == [injected[1]] + HistoryOf(messages)
            && ProtectedSystem(injected) == ProtectedSystem(messages)
            && CurrentTurn(injected) == CurrentTurn(messages)
            && LatestUser(injected).Some? && LatestUser(messages).Some?
  {
    hide IsConversation, HistoryOf, ProtectedSystem, CurrentTurn, FirstSystem, LatestUser, InjectHookContext, Join;
    ConversationHead(messages);
    InjectionAfterSystem(messages, texts);
    InjectionKeepsConversation(messages, texts);
    HistoryAt(messages);
    HistoryAt(InjectHookContext(messages, texts));
    var injected := InjectHookContext(messages, texts);
    var u := LatestUser(messages).value;
    assert |injected| == |messages| + 1;
    assert injected[1..u + 1] == [injected[1]] + messages[1..u];
  }

  /**
   Context a hook added in the middle of a run lasts until the next default
   compaction and no longer: compacting with it gives what compacting without
   it gives.
   */
  lemma CompactionForgetsHookContext(size: Size, messages: seq<Message>, texts: seq<string>, threshold: int)
    requires IsConversation(messages)
    ensures DefaultCompact(size, InjectHookContext(messages, texts), threshold) == DefaultCompact(size, messages, threshold)
  {
    hide Chars, Kept, IsConversation, CurrentTurn, GroupTurns, FirstSystem, LatestUser, HistoryOf, ProtectedSystem, Candidate;
    if texts != [] {
      HistoryWithHook(messages, texts);
      LeadingMessagesFormNoTurn(InjectHookContext(messages, texts)[1], HistoryOf(messages));
    }
  }

  lemma {:induction false} InFlatten(groups: seq<seq<Message>>, m: Message)
    requires m in Flatten(groups)
    ensures exists g :: g in groups && m in g
  {
    if m in groups[0] {
      assert groups[0] in groups;
    } else {
      InFlatten(groups[1..], m);
      var g :| g in groups[1..] && m in g;
      assert g in groups;
    }
  }

  lemma TurnsComeFromHistory(history: seq<Message>, turns: seq<seq<Message>>, m: Message)
    requires m in Flatten(turns) && forall t :: t in turns ==> t in GroupTurns(history)
    ensures m in history
  {
    hide GroupTurns;
    InFlatten(turns, m);
    var t :| t in turns && m in t;
    var all := Flatten(GroupTurns(history));
    IntoFlatten(GroupTurns(history), t, m);
    TurnsAreComplete(history);
    assert m in history[|history| - |all|..];
  }

  lemma {:induction false} IntoFlatten(groups: seq<seq<Message>>, g: seq<Message>, m: Message)
    requires g in groups && m in g
    ensures m in Flatten(groups)
  {
    if g != groups[0] {
      IntoFlatten(groups[1..], g, m);
    }
  }

  /** The default compaction only leaves out. */
  lemma CompactedComesFrom(size: Size, messages: seq<Message>, threshold: int, m: Message)
    requires m in DefaultCompact(size, messages, threshold)
    ensures m in messages
  {
    hide Chars, GroupTurns, Flatten, Kept, FirstSystem, LatestUser;
    if LatestUser(messages).Some? {
      var head, turns, current := ProtectedSystem(messages), GroupTurns(HistoryOf(messages)), CurrentTurn(messages);
      KeptIsLongest(size, head, turns, current, threshold);
      var kept := Kept(size, head, turns, current, threshold);
      if m !in head && m !in current {
        TurnsComeFromHistory(HistoryOf(messages), kept, m);
      }
    }
  }

  /**
   Exactly when injected context is still there after a compaction step: below
   the threshold, or when a custom compactor is accepted that kept it.  The
   default compaction gives what it would have given without the injection.
   */
  lemma HookContextSurvivesIff(size: Size, messages: seq<Message>, texts: seq<string>, threshold: int,
                               candidate: Option<seq<Message>>)
    requires IsConversation(messages) && texts != []
    ensures var injected, hook := InjectHookContext(messages, texts), HookMessage(texts);
            var isLarge := threshold > 0 && Chars(size, injected) > threshold;
            var isCustom := candidate.Some? && Accepts(injected, candidate.value);
            && (hook !in messages ==>
                  (hook in MaybeCompact(size, injected, threshold, candidate) <==>
                     !isLarge || (isCustom && hook in candidate.value)))
            && (isLarge && !isCustom ==>
                  MaybeCompact(size, injected, threshold, candidate) == DefaultCompact(size, messages, threshold))
  {
    hide Chars, DefaultCompact, Accepts, InjectHookContext, IsConversation, HookMessage;
    ConversationHead(messages);
    InjectionAfterSystem(messages, texts);
    CompactionForgetsHookContext(size, messages, texts, threshold);
    var hook := HookMessage(texts);
    assert InjectHookContext(messages, texts)[1] == hook;
    if hook in DefaultCompact(size, messages, threshold) {
      CompactedComesFrom(size, messages, threshold, hook);
    }
  }

  /** A conversation of two messages, a threshold of two, and a hook whose words are gone after the compaction. */
  lemma HookContextIsLost()
    ensures var messages := [Message(System, []), Message(User, [])];
            var size: Size := _ => 1;
            && IsConversation(messages)
            && HookMessage(["remember"]) in InjectHookContext(messages, ["remember"])
            && MaybeCompact(size, InjectHookContext(messages, ["remember"]), 2, None) == messages
            && HookMessage(["remember"]) !in messages
  {
    var messages := [Message(System, []), Message(User, [])];
    var size: Size := _ => 1;
    assert messages[1..] == [Message(User, [])] && messages[1..][1..] == [];
    LatestUserIs(messages, 1);
    var injected := InjectHookContext(messages, ["remember"]);
    InjectionAfterSystem(messages, ["remember"]);
    assert |injected| == 3 && Chars(size, injected) == 3 by {
      CharsOfOnes(injected);
    }
    assert Chars(size, messages) == 2 by {
      CharsOfOnes(messages);
    }
    HookContextSurvivesIff(size, messages, ["remember"], 2, None);
    assert HistoryOf(messages) == [] by { HistoryAt(messages); }
    assert ProtectedSystem(messages) == [messages[0]] by { HistoryAt(messages); }
    assert DefaultCompact(size, messages, 2) == messages;
  }

  lemma {:induction false} CharsOfOnes(messages: seq<Message>)
    ensures Chars(_ => 1, messages) == |messages|
  {
    if messages != [] {
      CharsOfOnes(messages[1..]);
    }
  }

  /** No user message and the system message in second place: the default compaction fails the check. */
  lemma DefaultCanBeRefused(size: Size, threshold: int)
    ensures var messages := [Message(Assistant, []), Message(System, [])];
            && Paired(messages)
            && !Accepts(messages, DefaultCompact(size, messages, threshold))
  {
    var messages := [Message(Assistant, []), Message(System, [])];
    DefaultIsAcceptedIff(size, messages, threshold);
    assert messages[1].role.System?;
  }

  lemma HeadIsFirstSystem(messages: seq<Message>)
    requires IsConversation(messages)
    ensures FirstSystem(messages) == Some(0)
  {
  }

  lemma TurnLength(messages: seq<Message>)
    requires IsConversation(messages)
    ensures LatestUser(messages).Some? && LatestUser(messages).value > 0
    ensures |CurrentTurn(messages)| == |messages| - LatestUser(messages).value
  {
  }
}
