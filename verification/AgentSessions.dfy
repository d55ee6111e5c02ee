/**
 Whole sessions of the agent runtime: any sequence of messages, confirmations
 and registry changes, and one that delegates without bound.
 */
module AgentSessions {
  import opened Wrappers
  import opened AgentMessages
  import opened ContextCompaction
  import opened AgentLoop
  import TextUnits

  datatype Command =
    | Inbound(session: string, agentId: string, user: seq<Part>)
    | Approval(id: nat, session: string)
    | RegistryChange(agents: map<string, Policy>)

  /**
   What one command, served from time `at` until `until`, does to the record: all
   of a run or of a confirmation, above all when it sends something, what it sends
   first, how it ends, and what is saved.
   */
  ghost predicate IsServed(s: Surroundings, before: World, at: nat, c: Command, after: World, until: nat,
                           outcome: Option<Outcome>)
  {
    at <= until &&
    match c
    case Inbound(session, agentId, user) =>
      && outcome.Some? && IsRun(s, before, at, session, agentId, user, false, TOP, after, until, outcome.value)
      && (|after.log| > |before.log| <==> CanStart(s, before.agents, agentId, at))
    case Approval(id, session) =>
      && outcome.Some? && IsConfirmed(s, before, at, id, session, after, until, outcome.value)
    case RegistryChange(agents) => outcome.None? && after == before.(agents := agents)
  }

  /** A confirmation: claimed or not, and the chain goes on or not. */
  ghost predicate IsConfirmed(s: Surroundings, before: World, at: nat, id: nat, session: string, after: World, until: nat,
                              outcome: Outcome)
  {
    && (|after.log| > |before.log| <==> CanGoOn(s, before, id, session, at))
    && (if CanGoOn(s, before, id, session, at) then IsResumed(s, before, at, id, session, after, until, outcome)
        else if IsClaimed(s, before, id, session, at) then
          after == before.(pending := before.pending - {id}) && outcome == Failed
        else after == before && outcome == Failed)
    && (id in before.pending ==> Spares(before, after, {before.pending[id].chain}, ConfirmedPlace(before, id)))
    && KeptElsewhere(before.histories, after.histories, session)
  }

  /** All that happened: the record before and after every command, when, and how each command ended. */
  datatype Story = Story(trace: seq<World>, times: seq<nat>, outcomes: seq<Option<Outcome>>)

  /** The story of these commands, from an empty store. */
  ghost predicate IsHistory(s: Surroundings, agents: map<string, Policy>, commands: seq<Command>, h: Story)
  {
    && |h.trace| == |h.times| == |commands| + 1 && |h.outcomes| == |commands|
    && h.trace[0] == World([], map[], map[], 0, map[], agents) && h.times[0] == 0
    && forall k :: 0 <= k < |commands| ==>
         IsServed(s, h.trace[k], h.times[k], commands[k], h.trace[k + 1], h.times[k + 1], h.outcomes[k])
  }

  /** The story with one more command. */
  function Told(h: Story, after: World, until: nat, outcome: Option<Outcome>): Story
  {
    Story(h.trace + [after], h.times + [until], h.outcomes + [outcome])
  }

  lemma HistoryGrows(s: Surroundings, agents: map<string, Policy>, commands: seq<Command>, h: Story, c: Command,
                     after: World, until: nat, outcome: Option<Outcome>)
    requires IsHistory(s, agents, commands, h)
    requires IsServed(s, h.trace[|commands|], h.times[|commands|], c, after, until, outcome)
    ensures IsHistory(s, agents, commands + [c], Told(h, after, until, outcome))
  {
    hide IsServed;
  }

  // ---- What a session remembers -----------------------------------------------------------------------

  /** What the session's Agent remembers. */
  ghost function Remembered(w: World, key: (string, string)): seq<Message>
  {
    if key in w.histories then w.histories[key] else []
  }

  /**
   The first request for a message: system prompt and hook context, then the
   stored history unbroken, then the message; compacted where that is too large,
   and below the threshold just that.
   */
  lemma FirstRequestRecalls(s: Surroundings, before: World, at: nat, session: string, agentId: string, user: seq<Part>,
                            after: World, until: nat, outcome: Option<Outcome>)
    requires IsServed(s, before, at, Inbound(session, agentId, user), after, until, outcome)
    requires |after.log| > |before.log|
    ensures agentId in before.agents && s.start(at).Some?
    ensures var start, sent := s.start(at).value, after.log[|before.log|].messages;
            var list := FirstHead(start.system, start.context, start.catalogue)
                        + Remembered(before, (session, before.agents[agentId].id)) + [Message(User, user)];
            && sent == MaybeCompact(s.size, list, s.threshold, s.compact(at + 1))
            && (s.threshold <= 0 || Chars(s.size, list) <= s.threshold ==> sent == list)
  {
    hide IsConversation, CurrentTurn, Spares, IsFinished, FirstMessages, FirstHead, Chars, DefaultCompact, Accepts,
         KeptElsewhere;
    var policy, start := before.agents[agentId], s.start(at).value;
    var chain :| IsRunAs(s, before, at, chain, session, policy, user, false, TOP, after, until, outcome.value);
    FirstMessagesRecall(start.system, start.context, start.catalogue, Remembered(before, (session, policy.id)), user);
  }

  /** The session and the Agent whose history a completed command saves. */
  ghost function SavesFor(w: World, c: Command): Option<(string, string)>
  {
    match c
    case Inbound(session, agentId, _) => if agentId in w.agents then Some((session, w.agents[agentId].id)) else None
    case Approval(id, session) =>
      if id in w.pending && w.pending[id].policy.id in w.agents then Some((session, w.agents[w.pending[id].policy.id].id))
      else None
    case RegistryChange(_) => None
  }

  /** The command belongs to this session. */
  predicate IsOf(c: Command, session: string)
  {
    match c
    case Inbound(other, _, _) => other == session
    case Approval(_, other) => other == session
    case RegistryChange(_) => false
  }

  lemma CompletedIsSaved(s: Surroundings, before: World, at: nat, c: Command, after: World, until: nat,
                         outcome: Option<Outcome>)
    requires IsServed(s, before, at, c, after, until, outcome) && outcome.Some? && outcome.value.Completed?
    ensures SavesFor(before, c).Some?
    ensures Remembered(after, SavesFor(before, c).value) == PersistedHistory(outcome.value.messages, outcome.value.response)
    ensures outcome.value.response.role.Assistant?
    ensures c.Inbound? ==> Message(User, c.user) in outcome.value.messages
  {
    hide IsConversation, Spares, IsBegun, IsLastWord, PersistedHistory, KeptElsewhere, GoesOnWith, CanGoOn, Resumed;
    if c.Inbound? {
      var policy := before.agents[c.agentId];
      var chain :| IsRunAs(s, before, at, chain, c.session, policy, c.user, false, TOP, after, until, outcome.value);
      TurnIsIn(outcome.value.messages, Message(User, c.user));
    } else {
      assert CanGoOn(s, before, c.id, c.session, at);
      WhatGoesOnIsKnown(s, before, at, c.id, after.log[|before.log|]);
    }
  }

  lemma WhatGoesOnIsKnown(s: Surroundings, before: World, at: nat, id: nat, r: Request)
    requires GoesOnWith(s, before, at, id, r)
    ensures id in before.pending && before.pending[id].policy.id in before.agents
  {
    hide SentIn, Resumed, NamesFor;
  }

  lemma TurnIsIn(messages: seq<Message>, m: Message)
    requires [m] <= CurrentTurn(messages)
    ensures m in messages
  {
    assert CurrentTurn(messages)[0] == m;
  }

  lemma OthersKeepMemory(s: Surroundings, before: World, at: nat, c: Command, after: World, until: nat,
                         outcome: Option<Outcome>, session: string, agentId: string)
    requires IsServed(s, before, at, c, after, until, outcome) && !IsOf(c, session)
    ensures Remembered(after, (session, agentId)) == Remembered(before, (session, agentId))
  {
    hide Spares, CanStart, CanGoOn, IsClaimed, IsResumed, IsRunAs;
    assert c.RegistryChange? || KeptElsewhere(before.histories, after.histories, c.session);
  }

  lemma {:induction false} MemoryLasts(s: Surroundings, agents: map<string, Policy>, commands: seq<Command>, h: Story,
                                       k: nat, m: nat, session: string, agentId: string)
    requires IsHistory(s, agents, commands, h) && k <= m <= |commands|
    requires forall j :: k <= j < m ==> !IsOf(commands[j], session)
    ensures Remembered(h.trace[m], (session, agentId)) == Remembered(h.trace[k], (session, agentId))
    decreases m
  {
    hide IsServed, Remembered, IsOf;
    if k < m {
      MemoryLasts(s, agents, commands, h, k, m - 1, session, agentId);
      OthersKeepMemory(s, h.trace[m - 1], h.times[m - 1], commands[m - 1], h.trace[m], h.times[m], h.outcomes[m - 1],
                       session, agentId);
    }
  }

  /** What is saved ends with the answer, and holds every message that is not the system's. */
  lemma {:induction false} SavedHolds(messages: seq<Message>, response: Message, m: Message)
    requires m in messages && !m.role.System?
    ensures m in PersistedHistory(messages, response)
    ensures PersistedHistory(messages, response)[|PersistedHistory(messages, response)| - 1] == response
  {
    var i :| 0 <= i < |messages| && messages[i] == m;
    SystemIsLeftOut(messages[..i], m, messages[i + 1..]);
    assert messages == messages[..i] + [m] + messages[i + 1..];
    var saved := PersistedHistory(messages, response);
    assert saved[|WithoutSystem(messages[..i])|] == m;
  }

  /**
   What one completed turn saved stands, unbroken, before the user's message in
   the next request the session's Agent is sent, whatever other sessions do in
   between; the turn's own message and answer stand in it.
   */
  lemma TurnsAreRemembered(s: Surroundings, agents: map<string, Policy>, commands: seq<Command>, h: Story, k: nat, m: nat)
    requires IsHistory(s, agents, commands, h) && k < m < |commands|
    requires h.outcomes[k].Some? && h.outcomes[k].value.Completed? && commands[m].Inbound?
    requires |h.trace[m + 1].log| > |h.trace[m].log|
    requires commands[m].agentId in h.trace[m].agents
             && SavesFor(h.trace[k], commands[k]) == Some((commands[m].session, h.trace[m].agents[commands[m].agentId].id))
    requires forall j :: k < j < m ==> !IsOf(commands[j], commands[m].session)
    ensures s.start(h.times[m]).Some?
    ensures var start, sent := s.start(h.times[m]).value, h.trace[m + 1].log[|h.trace[m].log|].messages;
            var saved := PersistedHistory(h.outcomes[k].value.messages, h.outcomes[k].value.response);
            var list := FirstHead(start.system, start.context, start.catalogue) + saved + [Message(User, commands[m].user)];
            && sent == MaybeCompact(s.size, list, s.threshold, s.compact(h.times[m] + 1))
            && (s.threshold <= 0 || Chars(s.size, list) <= s.threshold ==> sent == list)
            && saved != [] && saved[|saved| - 1] == h.outcomes[k].value.response
            && (commands[k].Inbound? ==> Message(User, commands[k].user) in saved)
  {
    hide IsServed, FirstHead, Chars, MaybeCompact, PersistedHistory, Remembered, IsOf, SavesFor;
    var Inbound(session, agentId, user) := commands[m];
    var ended := h.outcomes[k].value;
    CompletedIsSaved(s, h.trace[k], h.times[k], commands[k], h.trace[k + 1], h.times[k + 1], h.outcomes[k]);
    MemoryLasts(s, agents, commands, h, k + 1, m, session, h.trace[m].agents[agentId].id);
    FirstRequestRecalls(s, h.trace[m], h.times[m], session, agentId, user, h.trace[m + 1], h.times[m + 1], h.outcomes[m]);
    AnswerIsSaved(ended.messages, ended.response);
    if commands[k].Inbound? {
      SavedHolds(ended.messages, ended.response, Message(User, commands[k].user));
    }
  }

  lemma AnswerIsSaved(messages: seq<Message>, response: Message)
    ensures var saved := PersistedHistory(messages, response); saved != [] && saved[|saved| - 1] == response
  {
  }

  // ---- Without compaction, memory only grows --------------------------------------------------------------

  lemma AnswerOnlyAdds(before: seq<Message>, after: seq<Message>, call: ToolCall)
    requires IsAnswered(before, after, call)
    ensures WithoutSystem(before) <= WithoutSystem(after)
  {
    hide WithoutSystem, InjectHookContext, Exchange, CallName;
    var c: ToolCall, content, isError, texts :|
      c.id == call.id && CallName(c) == CallName(call)
      && after == InjectHookContext(before + Exchange(c, content, isError), texts);
    InjectionIsNotSaved(before + Exchange(c, content, isError), texts);
    WithoutSystemConcat(before, Exchange(c, content, isError));
  }

  lemma {:induction false} AnswersOnlyAdd(before: seq<Message>, after: seq<Message>, calls: seq<ToolCall>)
    requires AreAllAnswered(before, after, calls)
    ensures WithoutSystem(before) <= WithoutSystem(after)
    decreases |calls|
  {
    hide WithoutSystem, IsAnswered;
    if calls != [] {
      var middle :| AreAnsweredVia(before, middle, after, calls);
      AnswersOnlyAdd(before, middle, calls[..|calls| - 1]);
      AnswerOnlyAdds(middle, after, calls[|calls| - 1]);
    }
  }

  /** Every request of a run holds what its first one held. */
  lemma {:induction false} RequestsOnlyAdd(s: Surroundings, job: Job, names: ToolNames, log: seq<Request>, start: nat, j: nat)
    requires s.threshold <= 0 && start <= j < |log| && log[j].chain == job.chain && Unfolds(s, job, names, log, start)
    ensures WithoutSystem(log[start].messages) <= WithoutSystem(log[j].messages)
    decreases j
  {
    hide WithoutSystem, AreAllAnswered, Chars, DefaultCompact, Accepts, OfferedIn;
    if j > start {
      assert IsStep(s, job, names, log, start, j);
      var i :| start <= i < j && log[i].chain == job.chain && GrowsInto(s, log[i], log[j]);
      RequestsOnlyAdd(s, job, names, log, start, i);
      var given, at :| AreAllAnswered(log[i].messages, given, log[i].reply.value.calls)
                       && log[j].messages == MaybeCompact(s.size, given, s.threshold, s.compact(at));
      AnswersOnlyAdd(log[i].messages, given, log[i].reply.value.calls);
    }
  }

  /** With compaction off, what a completed turn saves begins with what was remembered, and the turn's own message. */
  lemma TurnsAddToMemory(s: Surroundings, before: World, at: nat, session: string, agentId: string, user: seq<Part>,
                         after: World, until: nat, outcome: Option<Outcome>)
    requires IsServed(s, before, at, Inbound(session, agentId, user), after, until, outcome)
    requires s.threshold <= 0 && outcome.Some? && outcome.value.Completed?
    ensures agentId in before.agents
    ensures var key := (session, before.agents[agentId].id);
            WithoutSystem(Remembered(before, key)) + [Message(User, user)] <= Remembered(after, key)
  {
    hide IsConversation, CurrentTurn, Spares, FirstHead, MaybeCompact, KeptElsewhere, Unfolds, WithoutSystem, Remembered;
    var policy := before.agents[agentId];
    var key := (session, policy.id);
    var Completed(messages, response) := outcome.value;
    SentWhenCompleted(s, before, at, session, agentId, user, after, until, outcome);
    FirstRequestRecalls(s, before, at, session, agentId, user, after, until, outcome);
    CompletedIsSaved(s, before, at, Inbound(session, agentId, user), after, until, outcome);
    var start := s.start(at).value;
    var chain :| IsRunAs(s, before, at, chain, session, policy, user, false, TOP, after, until, outcome.value);
    var j :| |before.log| <= j < |after.log| && after.log[j].chain == chain && IsLastWord(after.log[j], messages, response);
    RequestsOnlyAdd(s, Job(chain, policy, TOP), StartNames(before, policy, TOP, start), after.log, |before.log|, j);
    HeadIsNotSaved(start, Remembered(before, key), user);
    var list := FirstHead(start.system, start.context, start.catalogue) + Remembered(before, key) + [Message(User, user)];
    assert after.log[|before.log|].messages == list;
    assert Remembered(after, key) == WithoutSystem(messages) + [response];
  }

  lemma SentWhenCompleted(s: Surroundings, before: World, at: nat, session: string, agentId: string, user: seq<Part>,
                          after: World, until: nat, outcome: Option<Outcome>)
    requires IsServed(s, before, at, Inbound(session, agentId, user), after, until, outcome)
    requires outcome.Some? && outcome.value.Completed?
    ensures |after.log| > |before.log| && agentId in before.agents && s.start(at).Some?
  {
    hide IsRunAs, Spares, KeptElsewhere;
  }

  lemma HeadIsNotSaved(start: Start, stored: seq<Message>, user: seq<Part>)
    ensures WithoutSystem(FirstHead(start.system, start.context, start.catalogue) + stored + [Message(User, user)])
         == WithoutSystem(stored) + [Message(User, user)]
  {
    hide FirstHead, WithoutSystem;
    var head := FirstHead(start.system, start.context, start.catalogue);
    WithoutSystemConcat(head + stored, [Message(User, user)]);
    WithoutSystemConcat(head, stored);
    HeadIsSystem(start);
    UserIsSaved(user);
  }

  lemma UserIsSaved(user: seq<Part>)
    ensures WithoutSystem([Message(User, user)]) == [Message(User, user)]
  {
    assert [Message(User, user)][..0] == [];
  }

  lemma HeadIsSystem(start: Start)
    ensures WithoutSystem(FirstHead(start.system, start.context, start.catalogue)) == []
  {
    hide WithoutSystem, TextUnits.Join;
    NothingIsLeftOfSystem(FirstHead(start.system, start.context, start.catalogue));
  }

  lemma {:induction false} NothingIsLeftOfSystem(messages: seq<Message>)
    requires forall i :: 0 <= i < |messages| ==> messages[i].role.System?
    ensures WithoutSystem(messages) == []
  {
    if messages != [] {
      NothingIsLeftOfSystem(messages[..|messages| - 1]);
    }
  }

  /**
   With compaction off, the memory of a session's Agent only grows: what one
   completed turn saved is the beginning of what the next one saves, with that
   turn's message behind it.
   */
  lemma MemoryOnlyGrows(s: Surroundings, agents: map<string, Policy>, commands: seq<Command>, h: Story, k: nat, m: nat)
    requires IsHistory(s, agents, commands, h) && k < m < |commands| && s.threshold <= 0
    requires h.outcomes[k].Some? && h.outcomes[k].value.Completed?
    requires h.outcomes[m].Some? && h.outcomes[m].value.Completed? && commands[m].Inbound?
    requires commands[m].agentId in h.trace[m].agents
             && SavesFor(h.trace[k], commands[k]) == Some((commands[m].session, h.trace[m].agents[commands[m].agentId].id))
    requires forall j :: k < j < m ==> !IsOf(commands[j], commands[m].session)
    ensures var first, second := h.outcomes[k].value, h.outcomes[m].value;
            PersistedHistory(first.messages, first.response) + [Message(User, commands[m].user)]
            <= PersistedHistory(second.messages, second.response)
  {
    hide IsServed, PersistedHistory, Remembered, IsOf, SavesFor, WithoutSystem;
    var Inbound(session, agentId, user) := commands[m];
    var ended := h.outcomes[k].value;
    CompletedIsSaved(s, h.trace[k], h.times[k], commands[k], h.trace[k + 1], h.times[k + 1], h.outcomes[k]);
    MemoryLasts(s, agents, commands, h, k + 1, m, session, h.trace[m].agents[agentId].id);
    TurnsAddToMemory(s, h.trace[m], h.times[m], session, agentId, user, h.trace[m + 1], h.times[m + 1], h.outcomes[m]);
    CompletedIsSaved(s, h.trace[m], h.times[m], commands[m], h.trace[m + 1], h.times[m + 1], h.outcomes[m]);
    assert SavesFor(h.trace[m], commands[m]) == Some((session, h.trace[m].agents[agentId].id)) by {
      SavesForMessage(h.trace[m], session, agentId, user);
    }
    SavedIsKept(ended.messages, ended.response);
  }

  lemma SavesForMessage(w: World, session: string, agentId: string, user: seq<Part>)
    requires agentId in w.agents
    ensures SavesFor(w, Inbound(session, agentId, user)) == Some((session, w.agents[agentId].id))
  {
  }

  // ---- Depth and ancestry -------------------------------------------------------------------------------

  /** The registry at the start, or one a change put in its place, has an Agent with this policy. */
  ghost predicate IsKnown(policy: Policy, agents: map<string, Policy>, commands: seq<Command>)
  {
    || policy in agents.Values
    || exists k :: 0 <= k < |commands| && commands[k].RegistryChange? && policy in commands[k].agents.Values
  }

  /** A run begun by a delegation went on in a call of its own. */
  ghost predicate ReopensDelegated(log: seq<Request>)
  {
    exists i, j :: 0 <= i < j < |log| && log[i].chain == log[j].chain && log[i].place.level > 0 && log[j].place.level == 0
  }

  /** The chain was begun by a delegation. */
  ghost predicate BeganBelow(log: seq<Request>, chain: nat)
  {
    exists i :: 0 <= i < |log| && log[i].chain == chain && log[i].place.level > 0
  }

  /** What the requests sent so far say about depth and ancestry. */
  ghost predicate IsOrdered(log: seq<Request>)
  {
    && (forall i :: 0 <= i < |log| ==> log[i].place.level + log[i].place.depth == DEFAULT_TEAMMATE_DEPTH)
    && (forall i :: 0 <= i < |log| ==> log[i].place.rank >= log[i].place.level)
    && (forall i :: 0 <= i < |log| && log[i].place.rank > 0 ==> BeganBelow(log, log[i].chain))
    && (ReopensDelegated(log) || forall i :: 0 <= i < |log| ==> log[i].place.rank == log[i].place.level)
  }

  lemma BegunStaysBegun(log: seq<Request>, later: seq<Request>, chain: nat)
    requires log <= later && BeganBelow(log, chain)
    ensures BeganBelow(later, chain)
  {
    var i :| 0 <= i < |log| && log[i].chain == chain && log[i].place.level > 0;
    assert later[i] == log[i];
  }

  lemma ReopenedStaysReopened(log: seq<Request>, later: seq<Request>)
    requires log <= later && ReopensDelegated(log)
    ensures ReopensDelegated(later)
  {
    var i, j :| 0 <= i < j < |log| && log[i].chain == log[j].chain && log[i].place.level > 0 && log[j].place.level == 0;
    assert later[i] == log[i] && later[j] == log[j];
  }

  /** Calls from this place move the ranks of all that is new alike. */
  lemma NewPlaces(log: seq<Request>, start: nat, before: World, own: set<nat>, place: Place, i: nat)
    requires AreNew(log, start, before, own, place) && start <= i < |log|
    requires place.level == 0 && place.depth == DEFAULT_TEAMMATE_DEPTH
    ensures log[i].place.level + log[i].place.depth == DEFAULT_TEAMMATE_DEPTH
    ensures log[i].place.rank == log[i].place.level + place.rank
    ensures log[i].place.level > 0 || own == {} || log[i].chain in own
  {
    assert IsPlaced(log[i], own, place);
  }

  /** A message from outside: ranks are levels. */
  lemma MessageKeepsOrder(before: World, after: World)
    requires before.log <= after.log && AreNew(after.log, |before.log|, before, {}, TOP) && IsOrdered(before.log)
    ensures IsOrdered(after.log)
  {
    hide ReopensDelegated, BeganBelow, AreNew;
    forall i | 0 <= i < |after.log|
      ensures var q := after.log[i].place;
              && q.level + q.depth == DEFAULT_TEAMMATE_DEPTH && q.rank >= q.level
              && (q.rank > 0 ==> BeganBelow(after.log, after.log[i].chain))
              && (i >= |before.log| ==> q.rank == q.level)
              && (i < |before.log| ==> after.log[i] == before.log[i]) {
      if i >= |before.log| {
        NewPlaces(after.log, |before.log|, before, {}, TOP, i);
        LevelShows(after.log, i);
      } else if after.log[i].place.rank > 0 {
        BegunStaysBegun(before.log, after.log, after.log[i].chain);
      }
    }
    if ReopensDelegated(before.log) {
      ReopenedStaysReopened(before.log, after.log);
    }
  }

  lemma LevelShows(log: seq<Request>, i: nat)
    requires i < |log|
    ensures log[i].place.level > 0 ==> BeganBelow(log, log[i].chain)
  {
  }

  /** A confirmation: a chain begun by a delegation goes on at level 0. */
  lemma ConfirmationKeepsOrder(before: World, after: World, chain: nat, place: Place)
    requires before.log <= after.log && AreNew(after.log, |before.log|, before, {chain}, place) && IsOrdered(before.log)
    requires place.level == 0 && place.depth == DEFAULT_TEAMMATE_DEPTH
    requires |after.log| > |before.log| ==> after.log[|before.log|].chain == chain && after.log[|before.log|].place == place
    requires place.rank > 0 ==> BeganBelow(before.log, chain)
    ensures IsOrdered(after.log)
  {
    hide ReopensDelegated, BeganBelow, AreNew;
    forall i | 0 <= i < |after.log|
      ensures var q := after.log[i].place;
              && q.level + q.depth == DEFAULT_TEAMMATE_DEPTH && q.rank >= q.level
              && (q.rank > 0 ==> BeganBelow(after.log, after.log[i].chain))
              && (i >= |before.log| && place.rank == 0 ==> q.rank == q.level)
              && (i < |before.log| ==> after.log[i] == before.log[i]) {
      if i >= |before.log| {
        NewPlaces(after.log, |before.log|, before, {chain}, place, i);
        LevelShows(after.log, i);
        if after.log[i].place.level == 0 && place.rank > 0 {
          BegunStaysBegun(before.log, after.log, chain);
        }
      } else if after.log[i].place.rank > 0 {
        BegunStaysBegun(before.log, after.log, after.log[i].chain);
      }
    }
    if ReopensDelegated(before.log) {
      ReopenedStaysReopened(before.log, after.log);
    } else if place.rank > 0 && |after.log| > |before.log| {
      ReopeningShows(before.log, after.log, chain);
    }
  }

  lemma ReopeningShows(log: seq<Request>, later: seq<Request>, chain: nat)
    requires log <= later && |log| < |later| && BeganBelow(log, chain)
    requires later[|log|].chain == chain && later[|log|].place.level == 0
    ensures ReopensDelegated(later)
  {
    var i :| 0 <= i < |log| && log[i].chain == chain && log[i].place.level > 0;
    assert later[i] == log[i];
  }

  /**
   Any sequence of messages, confirmations and registry changes, from an empty
   store and in any surroundings: the history tells exactly which command sends
   something, and what.  Every request and every saved history is paired.  A run
   with all its resumptions keeps to the `max_tool_iterations` of its Agent, one
   the registry held.  Every request stands where messages, delegations and
   confirmations led, and within one call never more than the default depth of
   delegations down.  Counted from the first message, delegations made and left
   exceed that depth exactly when a run begun by a delegation was taken up again
   by a confirmation.
   */
  method Serve(agents: map<string, Policy>, surroundings: Surroundings, commands: seq<Command>)
    returns (e: Executor, ghost h: Story)
    ensures e.Valid() && IsHistory(surroundings, agents, commands, h) && h.trace[|commands|] == e.Now()
    ensures forall i :: 0 <= i < |e.log| ==> IsConversation(e.log[i].messages)
    ensures forall key :: key in e.histories ==> Paired(e.histories[key])
    ensures forall i :: 0 <= i < |e.log| ==>
                          && IsKnown(e.log[i].policy, agents, commands)
                          && Count(e.log, e.log[i].chain) <= e.log[i].policy.maxIterations + 1
    ensures forall i :: 0 <= i < |e.log| ==> IsReached(e.log[..i], e.log[i].place)
    ensures forall i :: 0 <= i < |e.log| ==> e.log[i].place.level <= DEFAULT_TEAMMATE_DEPTH
    ensures ReopensDelegated(e.log) <==>
            exists i :: 0 <= i < |e.log| && e.log[i].place.rank + e.log[i].place.depth > DEFAULT_TEAMMATE_DEPTH
  {
    hide IsGood, IsOrdered, IsConversation, CurrentTurn, Paired, ReopensDelegated, Count, IsKnown, IsServed,
         IsHistory, IsReached;
    e := new Executor(agents, surroundings);
    h := Story([e.Now()], [0], []);
    assert IsOrdered([]) by { NothingIsOrdered(); }
    assert IsHistory(surroundings, agents, [], h) by { NothingHappened(surroundings, agents); }
    StartIsKnown(agents, commands);
    for k := 0 to |commands|
      invariant fresh(e) && e.Valid() && IsOrdered(e.log) && e.surroundings == surroundings
      invariant |h.trace| == |h.times| == k + 1 && IsHistory(surroundings, agents, commands[..k], h)
      invariant h.trace[k] == e.Now() && h.times[k] == e.clock
      invariant forall policy :: policy in e.agents.Values ==> IsKnown(policy, agents, commands)
      invariant forall i :: 0 <= i < |e.log| ==> IsKnown(e.log[i].policy, agents, commands)
    {
      assert commands[..k + 1] == commands[..k] + [commands[k]];
      var outcome := ServeOne(e, commands[k]);
      ChangeIsKnown(agents, commands, k);
      HistoryGrows(surroundings, agents, commands[..k], h, commands[k], e.Now(), e.clock, outcome);
      h := Told(h, e.Now(), e.clock, outcome);
    }
    assert commands[..|commands|] == commands;
    GoodLogsKeepBudgets(e.Now());
    AncestryIsBoundedIff(e.Now());
  }

  lemma NothingHappened(s: Surroundings, agents: map<string, Policy>)
    ensures IsHistory(s, agents, [], Story([World([], map[], map[], 0, map[], agents)], [0], []))
  {
  }

  lemma NothingIsOrdered()
    ensures IsOrdered([])
  {
  }

  lemma StartIsKnown(agents: map<string, Policy>, commands: seq<Command>)
    ensures forall policy :: policy in agents.Values ==> IsKnown(policy, agents, commands)
  {
  }

  lemma ChangeIsKnown(agents: map<string, Policy>, commands: seq<Command>, k: nat)
    requires k < |commands|
    ensures commands[k].RegistryChange? ==>
              forall policy :: policy in commands[k].agents.Values ==> IsKnown(policy, agents, commands)
  {
  }

  lemma GoodLogsKeepBudgets(w: World)
    requires IsGood(w)
    ensures forall i :: 0 <= i < |w.log| ==>
              IsConversation(w.log[i].messages) && Count(w.log, w.log[i].chain) <= w.log[i].policy.maxIterations + 1
    ensures forall key :: key in w.histories ==> Paired(w.histories[key])
    ensures forall i :: 0 <= i < |w.log| ==> IsReached(w.log[..i], w.log[i].place)
  {
    hide IsConversation, CurrentTurn, Paired;
    forall i | 0 <= i < |w.log|
      ensures IsConversation(w.log[i].messages) && Count(w.log, w.log[i].chain) <= w.log[i].policy.maxIterations + 1 {
      assert IsGoodRequest(w.log[i], w.chains);
      BudgetHolds(w, i);
    }
  }

  /** A suspended chain has sent a request, so if it stands below the first message, a delegation began it. */
  lemma PendingBeganBelow(w: World, id: nat)
    requires IsGood(w) && id in w.pending && IsOrdered(w.log)
    ensures w.pending[id].chain in w.chains
    ensures w.chains[w.pending[id].chain].rank > 0 ==> BeganBelow(w.log, w.pending[id].chain)
  {
    hide BeganBelow, ReopensDelegated, IsConversation, CurrentTurn;
    assert IsGoodPending(w.pending[id], w.chains);
    var i :| 0 <= i < |w.log| && w.log[i].chain == w.pending[id].chain;
    assert IsGoodRequest(w.log[i], w.chains);
  }

  /** A message: its run stands at the top, and no rank outgrows its level by it. */
  method DeliverOne(e: Executor, session: string, agentId: string, user: seq<Part>) returns (outcome: Outcome)
    requires e.Valid() && IsOrdered(e.log)
    modifies e
    ensures e.Valid() && IsOrdered(e.log) && e.agents == old(e.agents) && e.clock >= old(e.clock)
    ensures IsServed(e.surroundings, old(e.Now()), old(e.clock), Inbound(session, agentId, user), e.Now(), e.clock,
                     Some(outcome))
    ensures IsNesting(e.surroundings, e.agents) && agentId in e.agents ==>
              Waits(e.Now(), old(e.nextConfirmation), DEFAULT_TEAMMATE_DEPTH, session)
    ensures IsNew(old(e.Now()), e.Now())
  {
    hide IsGood, IsOrdered, IsConversation, CurrentTurn, Paired, PersistedHistory, CanStart, IsNesting, Waits, IsRun;
    ghost var before := e.Now();
    outcome := e.Run(session, agentId, user, false, TOP, DEFAULT_TEAMMATE_DEPTH);
    MessageKeepsOrder(before, e.Now());
  }

  /** What the log gained was sent under the registry as it stood. */
  ghost predicate IsNew(before: World, after: World)
  {
    && before.log <= after.log
    && forall i :: |before.log| <= i < |after.log| ==> after.log[i].policy in before.agents.Values
  }

  /** One confirmation: it may re-open a delegated chain, and only then does ancestry outgrow the levels. */
  method ApproveOne(e: Executor, id: nat, session: string) returns (outcome: Outcome)
    requires e.Valid() && IsOrdered(e.log)
    modifies e
    ensures e.Valid() && IsOrdered(e.log) && e.agents == old(e.agents) && e.clock >= old(e.clock)
    ensures IsServed(e.surroundings, old(e.Now()), old(e.clock), Approval(id, session), e.Now(), e.clock, Some(outcome))
    ensures IsNesting(e.surroundings, e.agents)
            && IsWaiting(old(e.Now()), id, ConfirmedPlace(old(e.Now()), id).rank, session) ==>
              Waits(e.Now(), old(e.nextConfirmation), ConfirmedPlace(old(e.Now()), id).rank + DEFAULT_TEAMMATE_DEPTH, session)
    ensures IsNew(old(e.Now()), e.Now())
  {
    hide IsGood, IsOrdered, IsConversation, CurrentTurn, Paired, PersistedHistory, Signature, IsPlaced, BeganBelow,
         CanGoOn, IsClaimed, IsNesting, Waits, IsWaiting, IsResumed, KeptElsewhere;
    ghost var before := e.Now();
    if id !in e.pending {
      NeverGoesOn(e.surroundings, before, id, session, e.clock);
      outcome := e.Confirm(id, session);
    } else {
      PendingBeganBelow(before, id);
      ghost var place, chain := ConfirmedPlace(before, id), e.pending[id].chain;
      ghost var at := e.clock;
      outcome := e.Confirm(id, session);
      if |e.log| > |before.log| {
        ResumedFirst(e.surroundings, before, at, id, session, e.Now(), e.clock, outcome);
      }
      ConfirmationKeepsOrder(before, e.Now(), chain, place);
    }
  }

  lemma ResumedFirst(s: Surroundings, before: World, at: nat, id: nat, session: string, after: World, until: nat,
                     outcome: Outcome)
    requires IsResumed(s, before, at, id, session, after, until, outcome)
    ensures |after.log| > |before.log| && id in before.pending
    ensures after.log[|before.log|].chain == before.pending[id].chain
    ensures after.log[|before.log|].place == ConfirmedPlace(before, id)
  {
    hide IsFinished, NamesFor, Resumed, MaybeCompact, ConfirmedPlace;
  }

  lemma NeverGoesOn(s: Surroundings, w: World, id: nat, session: string, at: nat)
    requires id !in w.pending
    ensures !CanGoOn(s, w, id, session, at) && !IsClaimed(s, w, id, session, at)
            && !IsWaiting(w, id, ConfirmedPlace(w, id).rank, session)
  {
  }

  /** One command; what it sends is sent under the registry as it stands. */
  method ServeOne(e: Executor, command: Command) returns (outcome: Option<Outcome>)
    requires e.Valid() && IsOrdered(e.log)
    modifies e
    ensures e.Valid() && IsOrdered(e.log) && e.clock >= old(e.clock)
    ensures e.agents == if command.RegistryChange? then command.agents else old(e.agents)
    ensures IsServed(e.surroundings, old(e.Now()), old(e.clock), command, e.Now(), e.clock, outcome)
    ensures IsNew(old(e.Now()), e.Now())
  {
    hide IsGood, IsOrdered, IsConversation, CurrentTurn, Paired, IsRun, IsConfirmed;
    match command {
      case Inbound(session, agentId, user) =>
        var ended := DeliverOne(e, session, agentId, user);
        outcome := Some(ended);
      case Approval(id, session) =>
        var ended := ApproveOne(e, id, session);
        outcome := Some(ended);
      case RegistryChange(current) =>
        e.ReplaceAgents(current);
        outcome := None;
    }
  }

  /** One chain keeps its rank, so a chain re-opened at level 0 stands deeper than its level tells. */
  lemma AncestryIsBoundedIff(w: World)
    requires IsGood(w) && IsOrdered(w.log)
    ensures forall i :: 0 <= i < |w.log| ==> w.log[i].place.level <= DEFAULT_TEAMMATE_DEPTH
    ensures ReopensDelegated(w.log) <==>
            exists i :: 0 <= i < |w.log| && w.log[i].place.rank + w.log[i].place.depth > DEFAULT_TEAMMATE_DEPTH
  {
    hide IsConversation, CurrentTurn, Paired, BeganBelow;
    var log := w.log;
    if ReopensDelegated(log) {
      var i, j :| 0 <= i < j < |log| && log[i].chain == log[j].chain && log[i].place.level > 0 && log[j].place.level == 0;
      assert IsGoodRequest(log[i], w.chains) && IsGoodRequest(log[j], w.chains);
      assert log[j].place.rank + log[j].place.depth > DEFAULT_TEAMMATE_DEPTH;
    }
  }

  // ---- A session that nests without bound ------------------------------------------------------------

  lemma WaitingStandsDeep(w: World, id: nat, rank: nat, session: string)
    requires IsGood(w) && IsWaiting(w, id, rank, session)
    ensures ConfirmedPlace(w, id).rank == rank
    ensures exists i :: 0 <= i < |w.log| && w.log[i].place.rank == rank
  {
    hide IsConversation, CurrentTurn, Paired, AreReached;
    assert IsGoodPending(w.pending[id], w.chains);
    var i :| 0 <= i < |w.log| && w.log[i].chain == w.pending[id].chain;
    assert IsGoodRequest(w.log[i], w.chains);
  }

  /**
   Two Agents that are each other's teammate, a model that hands on as long as it
   can and then calls a guarded tool, and a user who confirms: after one message
   and `n` confirmations a request stands 2 * (n + 1) delegations below that
   message, although no call ever delegates more than twice.
   */
  method NestWithoutBound(n: nat, size: Size, threshold: int)
    returns (e: Executor, commands: seq<Command>, ghost h: Story)
    ensures |commands| == n + 1 && commands[0].Inbound? && forall k :: 0 < k <= n ==> commands[k].Approval?
    ensures e.Valid() && IsHistory(Nesting(size, threshold), Pair(), commands, h) && h.trace[n + 1] == e.Now()
    ensures forall i :: 0 <= i < |e.log| ==> e.log[i].place.level <= DEFAULT_TEAMMATE_DEPTH
    ensures exists i :: 0 <= i < |e.log| && e.log[i].place.rank == DEFAULT_TEAMMATE_DEPTH * (n + 1)
  {
    hide IsGood, IsOrdered, IsServed, IsHistory, IsNesting, Waits, Nesting, Pair, IsWaiting, ConfirmedPlace;
    var s := Nesting(size, threshold);
    e := new Executor(Pair(), s);
    NestingNests(size, threshold);
    assert IsOrdered([]) by { NothingIsOrdered(); }
    NothingHappened(s, Pair());
    var first := Inbound("s", "a", [Text("go on")]);
    commands, h := [], Story([e.Now()], [0], []);
    ghost var rank: nat := DEFAULT_TEAMMATE_DEPTH;
    var since := e.nextConfirmation;
    PairHasA();
    var outcome := DeliverOne(e, first.session, first.agentId, first.user);
    HistoryGrows(s, Pair(), commands, h, first, e.Now(), e.clock, Some(outcome));
    commands, h := commands + [first], Told(h, e.Now(), e.clock, Some(outcome));
    for k := 0 to n
      invariant fresh(e) && e.Valid() && IsOrdered(e.log) && e.surroundings == s && e.agents == Pair()
      invariant |commands| == k + 1 && commands[0].Inbound? && forall j :: 0 < j <= k ==> commands[j].Approval?
      invariant |h.trace| == |h.times| == k + 2 && IsHistory(s, Pair(), commands, h)
      invariant h.trace[k + 1] == e.Now() && h.times[k + 1] == e.clock
      invariant rank == DEFAULT_TEAMMATE_DEPTH * (k + 1) && Waits(e.Now(), since, rank, "s")
    {
      SomeoneWaits(e.Now(), since, rank, "s");
      var id :| id in e.pending && since <= id;
      WaitingStandsDeep(e.Now(), id, rank, "s");
      since := e.nextConfirmation;
      outcome := ApproveOne(e, id, "s");
      HistoryGrows(s, Pair(), commands, h, Approval(id, "s"), e.Now(), e.clock, Some(outcome));
      commands, h := commands + [Approval(id, "s")], Told(h, e.Now(), e.clock, Some(outcome));
      rank := rank + DEFAULT_TEAMMATE_DEPTH;
    }
    SomeoneWaits(e.Now(), since, rank, "s");
    ghost var id :| id in e.pending && since <= id;
    WaitingStandsDeep(e.Now(), id, rank, "s");
    AncestryIsBoundedIff(e.Now());
  }

  lemma SomeoneWaits(w: World, since: nat, rank: nat, session: string)
    requires Waits(w, since, rank, session)
    ensures exists id :: id in w.pending && since <= id
    ensures forall id :: id in w.pending && since <= id ==> IsWaiting(w, id, rank, session)
  {
    hide IsWaiting;
  }

  lemma PairHasA()
    ensures "a" in Pair()
  {
  }
}
