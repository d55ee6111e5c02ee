/**
 The bounded tool loop of the agent runtime, with confirmation, resumption and
 delegation: `AgentRuntimeExecutor` in `kirara_ai/agent_runtime/executor.py`.
 What comes from outside (the session store, model replies, tool results, hooks,
 custom compactors, permission checks) is answered by `Surroundings`, question by
 question; what runs on its own record keeps is `World`.
 */
module AgentLoop {
  import opened Wrappers
  import opened AgentMessages
  import opened ContextCompaction
  import TextUnits

  const DEFAULT_TEAMMATE_DEPTH: nat := 2
  const TEAMMATE_TOOL_PREFIX := "delegate_to_"
  const TOOL_SEARCH_TOOL_NAME := "search_tools"

  /** An Agent as its policy signature shows it; `rest` is the part of it that the loop never looks at. */
  datatype Policy = Policy(
    id: string, enabled: bool, models: seq<string>, maxIterations: nat, allowTools: bool, teammates: seq<string>, rest: string)

  /** `_agent_policy_signature`: everything but the name. */
  function Signature(p: Policy): (bool, seq<string>, nat, bool, seq<string>, string)
  {
    (p.enabled, p.models, p.maxIterations, p.allowTools, p.teammates, p.rest)
  }

  datatype ToolCall = ToolCall(id: Option<string>, name: Option<string>, arguments: string)

  datatype Reply = Reply(parts: seq<Part>, calls: seq<ToolCall>)

  /**
   Where in a tree of delegations a run stands: `level` delegations below the
   call that is being served, `depth` more allowed, and `rank` delegations below
   the message that began it all.  The two counts part when a delegated run is
   confirmed: the confirmation is a call of its own.
   */
  datatype Place = Place(level: nat, depth: nat, rank: nat)

  /** The place of a teammate's run. */
  function Below(p: Place): Place
    requires p.depth > 0
  {
    Place(p.level + 1, p.depth - 1, p.rank + 1)
  }

  const TOP := Place(0, DEFAULT_TEAMMATE_DEPTH, 0)

  /** Where a run can be taken from one place: down to a teammate, or up again by a confirmation. */
  predicate LeadsTo(p: Place, q: Place)
  {
    (p.depth > 0 && q == Below(p)) || q == Place(0, DEFAULT_TEAMMATE_DEPTH, p.rank)
  }

  /** `q` is this place, or one that delegations lead to from it. */
  predicate IsWithin(q: Place, p: Place)
  {
    q.level >= p.level && q.level + q.depth == p.level + p.depth && q.rank - q.level == p.rank - p.level
  }

  /**
   One model request, with the tools offered and the reply it got when it was
   asked.  A chain is a run together with all its resumptions, known by its
   correlation id.
   */
  datatype Request = Request(
    chain: nat, iteration: nat, place: Place, policy: Policy, offered: ToolNames, messages: seq<Message>,
    reply: Option<Reply>, asked: nat)

  /** A chain at work: the policy it runs under, and where. */
  datatype Job = Job(chain: nat, policy: Policy, place: Place)

  datatype Pending = Pending(
    chain: nat, session: string, policy: Policy, messages: seq<Message>, call: ToolCall, iteration: nat)

  datatype Outcome =
    | Completed(messages: seq<Message>, response: Message)
    | AwaitingConfirmation(id: nat)
    | Failed
    | RuntimeLoopError

  /** The tools a request offers. */
  datatype ToolNames = ToolNames(searchable: bool, teammates: set<string>, skills: set<string>, permitted: set<string>)

  const NO_TOOLS := ToolNames(false, {}, {}, {})

  // ---- What the surroundings answer -------------------------------------------------------------

  /** What a run works with from the start: system prompt, hook context, tool catalogue, skills, permitted tools. */
  datatype Start = Start(
    system: string, context: seq<string>, catalogue: string, searchable: bool, skills: set<string>, permitted: set<string>)

  /** Everything one tool call may meet. */
  datatype ToolCase = ToolCase(
    raises: bool, content: string, isError: bool, task: Option<string>,
    hookBlocks: bool, updatedInput: Option<string>, inputIsInvalid: bool, reason: string,
    needsConfirmation: bool, isDenied: bool, mayControl: bool, isStored: bool,
    resultIsBlocked: bool, context: seq<string>)

  /** Everything a confirmation may meet before its chain goes on; the session store may refuse the claim. */
  datatype ApprovalCase = ApprovalCase(
    isClaimed: bool, isAllowed: bool, isBlocked: bool, inputIsInvalid: bool, raises: bool,
    updatedInput: Option<string>, content: string, isError: bool, resultIsBlocked: bool, reason: string,
    skills: set<string>, permitted: set<string>)

  /** The checks, hooks and steps between the claim and the next request all let the chain go on. */
  predicate LetsGoOn(a: ApprovalCase)
  {
    a.isClaimed && a.isAllowed && !a.isBlocked && !a.inputIsInvalid && !a.raises
  }

  /**
   The answers to the questions an executor asks, by the time it asks them, and
   how it measures a conversation.  A start is missing when anything raised before
   the first request, a reply when every model failed.
   */
  datatype Surroundings = Surroundings(
    start: nat -> Option<Start>, compact: nat -> Option<seq<Message>>, reply: (nat, ToolNames) -> Option<Reply>,
    tool: nat -> ToolCase, approval: nat -> ApprovalCase, isSaved: nat -> bool, size: Size, threshold: int)

  // ---- Tool messages --------------------------------------------------------------------------

  function CallName(call: ToolCall): string
  {
    if call.name.Some? && call.name.value != "" then call.name.value else "unknown"
  }

  function AssistantToolMessage(call: ToolCall): Message
  {
    Message(Assistant, [Call(call.id, CallName(call), call.arguments)])
  }

  function ToolMessage(call: ToolCall, content: string, isError: bool): Message
  {
    Message(Tool, [Answer(call.id, CallName(call), content, isError)])
  }

  /** The call restated as an assistant message of its own, and its result. */
  function Exchange(call: ToolCall, content: string, isError: bool): seq<Message>
  {
    [AssistantToolMessage(call), ToolMessage(call, content, isError)]
  }

  /** However many calls a reply held, each result follows its own call. */
  lemma ExchangeKeepsConversation(messages: seq<Message>, call: ToolCall, content: string, isError: bool)
    requires IsConversation(messages)
    ensures var e := Exchange(call, content, isError);
            IsConversation(messages + e) && CurrentTurn(messages + e) == CurrentTurn(messages) + e
  {
    hide CurrentTurn, LatestUser;
    var e := Exchange(call, content, isError);
    assert Matches(e[0].parts[0], e[1].parts[0]);
    assert AnswersPrevious(e[0], e[1]);
    PairedConcat(messages, e);
    TurnGrows(messages, e);
  }

  /** The list grew by this call, under its id and name, and a result for it; hooks may have added context. */
  ghost predicate IsAnswered(before: seq<Message>, after: seq<Message>, call: ToolCall)
  {
    exists c: ToolCall, content, isError, texts ::
      c.id == call.id && CallName(c) == CallName(call)
      && after == InjectHookContext(before + Exchange(c, content, isError), texts)
  }

  /** All these calls were answered, in order. */
  ghost predicate AreAllAnswered(before: seq<Message>, after: seq<Message>, calls: seq<ToolCall>)
    decreases |calls|, 1
  {
    if calls == [] then before == after else exists middle :: AreAnsweredVia(before, middle, after, calls)
  }

  /** The last of these calls was answered on top of the list that answered the others. */
  ghost predicate AreAnsweredVia(before: seq<Message>, middle: seq<Message>, after: seq<Message>, calls: seq<ToolCall>)
    requires calls != []
    decreases |calls|, 0
  {
    AreAllAnswered(before, middle, calls[..|calls| - 1]) && IsAnswered(middle, after, calls[|calls| - 1])
  }

  lemma AnswerKeepsConversation(before: seq<Message>, after: seq<Message>, call: ToolCall)
    requires IsConversation(before) && IsAnswered(before, after, call)
    ensures IsConversation(after) && CurrentTurn(before) <= CurrentTurn(after)
    ensures |CurrentTurn(after)| == |CurrentTurn(before)| + 2
  {
    hide IsConversation, CurrentTurn, InjectHookContext, Exchange;
    var c: ToolCall, content, isError, texts :|
      c.id == call.id && CallName(c) == CallName(call)
      && after == InjectHookContext(before + Exchange(c, content, isError), texts);
    ExchangeKeepsConversation(before, c, content, isError);
    InjectionKeepsConversation(before + Exchange(c, content, isError), texts);
    ExchangeIsTwo(c, content, isError);
  }

  lemma ExchangeIsTwo(call: ToolCall, content: string, isError: bool)
    ensures |Exchange(call, content, isError)| == 2
  {
  }

  /** A turn grows by two messages for each call answered. */
  lemma {:induction false} AnswersKeepConversation(before: seq<Message>, after: seq<Message>, calls: seq<ToolCall>)
    requires IsConversation(before) && AreAllAnswered(before, after, calls)
    ensures IsConversation(after) && CurrentTurn(before) <= CurrentTurn(after)
    ensures |CurrentTurn(after)| == |CurrentTurn(before)| + 2 * |calls|
    decreases |calls|
  {
    hide IsConversation, CurrentTurn, IsAnswered;
    if calls != [] {
      var n := |calls| - 1;
      var middle :| AreAnsweredVia(before, middle, after, calls);
      AnswersKeepConversation(before, middle, calls[..n]);
      AnswerKeepsConversation(middle, after, calls[n]);
    }
  }

  // ---- Delegation --------------------------------------------------------------------------------

  /** Names of the delegation tools. */
  function TeammateTools(agent: Policy, registry: map<string, Policy>, depth: int): (names: set<string>)
    ensures depth <= 0 ==> names == {}
  {
    if depth <= 0 then {}
    else set id | id in agent.teammates && id in registry && registry[id].enabled :: TEAMMATE_TOOL_PREFIX + id
  }

  function RemovePrefix(name: string): string
  {
    if TEAMMATE_TOOL_PREFIX <= name then name[|TEAMMATE_TOOL_PREFIX|..] else name
  }

  /**
   A name is offered exactly when some depth is left and it carries the name of
   a teammate that exists and is enabled: the very one a delegation looks up.
   */
  lemma OfferedTeammatesExist(agent: Policy, registry: map<string, Policy>, depth: int, name: string)
    ensures name in TeammateTools(agent, registry, depth) <==>
            && depth > 0 && TEAMMATE_TOOL_PREFIX <= name
            && RemovePrefix(name) in agent.teammates
            && RemovePrefix(name) in registry && registry[RemovePrefix(name)].enabled
  {
    if depth > 0 && TEAMMATE_TOOL_PREFIX <= name {
      assert name == TEAMMATE_TOOL_PREFIX + RemovePrefix(name);
    }
    if name in TeammateTools(agent, registry, depth) {
      var id :| id in agent.teammates && id in registry && registry[id].enabled && name == TEAMMATE_TOOL_PREFIX + id;
      assert RemovePrefix(name) == id;
    }
  }

  function TextParts(parts: seq<Part>): string
  {
    if parts == [] then ""
    else (if parts[0].Text? then parts[0].text else "") + TextParts(parts[1..])
  }

  // ---- What is remembered of a session ------------------------------------------------------------

  /** Per chain: its budget, its rank, its latest iteration (-1 before the first), and the turn it had then. */
  datatype Chain = Chain(limit: nat, rank: nat, last: int, turn: seq<Message>)

  datatype World = World(
    log: seq<Request>, chains: map<nat, Chain>, pending: map<nat, Pending>, issued: nat,
    histories: map<(string, string), seq<Message>>, agents: map<string, Policy>)

  ghost predicate IsGoodRequest(r: Request, chains: map<nat, Chain>)
  {
    && r.chain in chains && r.iteration <= chains[r.chain].last
    && r.policy.maxIterations == chains[r.chain].limit && r.place.rank == chains[r.chain].rank
    && IsConversation(r.messages) && CurrentTurn(r.messages) <= chains[r.chain].turn
    && (r.offered != NO_TOOLS ==> r.iteration < chains[r.chain].limit)
  }

  /** Within a chain, iterations rise and the turn only grows. */
  ghost predicate IsGoodLog(log: seq<Request>, chains: map<nat, Chain>)
  {
    && (forall i :: 0 <= i < |log| ==> IsGoodRequest(log[i], chains))
    && (forall i, j :: 0 <= i < j < |log| && log[i].chain == log[j].chain ==>
          log[i].iteration < log[j].iteration && CurrentTurn(log[i].messages) <= CurrentTurn(log[j].messages))
  }

  ghost predicate AreGoodChains(chains: map<nat, Chain>)
  {
    forall c :: c in chains ==> -1 <= chains[c].last <= chains[c].limit
  }

  /** A suspended chain can be taken up again below its limit, with its turn intact. */
  ghost predicate IsGoodPending(p: Pending, chains: map<nat, Chain>)
  {
    && p.chain in chains && IsConversation(p.messages)
    && chains[p.chain].last == p.iteration < p.policy.maxIterations
    && chains[p.chain].limit == p.policy.maxIterations
    && chains[p.chain].turn <= CurrentTurn(p.messages)
  }

  ghost predicate ArePending(pending: map<nat, Pending>, chains: map<nat, Chain>)
  {
    && (forall id :: id in pending ==> IsGoodPending(pending[id], chains))
    && (forall a, b :: a in pending && b in pending && pending[a].chain == pending[b].chain ==> a == b)
  }

  ghost predicate ArePaired(histories: map<(string, string), seq<Message>>)
  {
    forall key :: key in histories ==> Paired(histories[key])
  }

  /** The chain has sent a request. */
  ghost predicate HasSent(log: seq<Request>, chain: nat)
  {
    exists i :: 0 <= i < |log| && log[i].chain == chain
  }

  lemma SentStaysSent(log: seq<Request>, later: seq<Request>, chain: nat)
    requires log <= later && HasSent(log, chain)
    ensures HasSent(later, chain)
  {
    var i :| 0 <= i < |log| && log[i].chain == chain;
    assert later[i] == log[i];
  }

  lemma SendingIsSent(log: seq<Request>, r: Request)
    ensures HasSent(log + [r], r.chain)
  {
    assert (log + [r])[|log|] == r;
  }

  /** A request was sent from here. */
  ghost predicate IsSentAt(log: seq<Request>, place: Place)
  {
    exists i :: 0 <= i < |log| && log[i].place == place
  }

  /** A run may stand here: a message came in, or an earlier request led to it. */
  ghost predicate IsReached(log: seq<Request>, place: Place)
  {
    place == TOP || exists i :: 0 <= i < |log| && LeadsTo(log[i].place, place)
  }

  /** Every request stands where messages, delegations and confirmations led. */
  ghost predicate AreReached(log: seq<Request>)
  {
    forall i :: 0 <= i < |log| ==> IsReached(log[..i], log[i].place)
  }

  lemma ReachedStaysReached(log: seq<Request>, later: seq<Request>, place: Place)
    requires log <= later
    ensures IsReached(log, place) ==> IsReached(later, place)
    ensures IsSentAt(log, place) ==> IsSentAt(later, place)
  {
    assert forall i :: 0 <= i < |log| ==> later[i] == log[i];
  }

  lemma SentIsSentAt(log: seq<Request>, r: Request)
    ensures IsSentAt(log + [r], r.place)
  {
    assert (log + [r])[|log|] == r;
  }

  lemma SendingReaches(log: seq<Request>, r: Request)
    requires AreReached(log) && IsReached(log, r.place)
    ensures AreReached(log + [r])
  {
    hide IsReached;
    var later := log + [r];
    assert later[..|log|] == log && later[|log|] == r;
    forall i | 0 <= i < |log| ensures IsReached(later[..i], later[i].place) {
      assert later[..i] == log[..i];
    }
  }

  lemma DelegationReaches(log: seq<Request>, place: Place)
    requires IsSentAt(log, place) && place.depth > 0
    ensures IsReached(log, Below(place))
  {
    var i :| 0 <= i < |log| && log[i].place == place;
    assert LeadsTo(log[i].place, Below(place));
  }

  ghost predicate IsGood(w: World)
  {
    && AreReached(w.log)
    && IsGoodLog(w.log, w.chains) && AreGoodChains(w.chains) && ArePending(w.pending, w.chains) && ArePaired(w.histories)
    && forall id :: id in w.pending ==> id < w.issued && HasSent(w.log, w.pending[id].chain)
  }

  /** A request of the chain itself stands where the chain does, any other one below it. */
  predicate IsPlaced(r: Request, own: set<nat>, place: Place)
  {
    && IsWithin(r.place, place)
    && (own != {} ==> if r.chain in own then r.place == place else r.place.level > place.level)
  }

  /**
   Nothing that was there before is touched, except the given chain, and every
   new request was sent at the place or below it, under the policy of an Agent
   of the registry.
   */
  ghost predicate Spares(before: World, after: World, own: set<nat>, place: Place)
  {
    && before.log <= after.log && before.issued <= after.issued
    && before.agents == after.agents
    && (forall c :: c in before.chains ==>
          && c in after.chains
          && after.chains[c].limit == before.chains[c].limit && after.chains[c].rank == before.chains[c].rank
          && (c in own || after.chains[c] == before.chains[c]))
    && (forall id :: id in before.pending && before.pending[id].chain !in own ==>
          id in after.pending && after.pending[id] == before.pending[id])
    && (forall id :: id in after.pending ==>
          || (id in before.pending && after.pending[id] == before.pending[id])
          || (id >= before.issued && (after.pending[id].chain in own || after.pending[id].chain !in before.chains)))
    && AreNew(after.log, |before.log|, before, own, place)
  }

  ghost predicate AreNew(log: seq<Request>, start: nat, before: World, own: set<nat>, place: Place)
  {
    forall i :: start <= i < |log| ==>
                  && (log[i].chain in own || log[i].chain !in before.chains)
                  && IsPlaced(log[i], own, place)
                  && log[i].policy in before.agents.Values
  }

  lemma SparesIsTransitive(a: World, b: World, c: World, own: set<nat>, place: Place)
    requires Spares(a, b, own, place) && Spares(b, c, own, place)
    ensures Spares(a, c, own, place)
  {
    hide IsPlaced;
    forall i | |a.log| <= i < |c.log|
      ensures (c.log[i].chain in own || c.log[i].chain !in a.chains) && IsPlaced(c.log[i], own, place)
      ensures c.log[i].policy in a.agents.Values {
      if i < |b.log| {
        assert c.log[i] == b.log[i];
      }
    }
  }

  /** What a teammate's run spares, the run above it spares. */
  lemma SparesMore(a: World, b: World, job: Job)
    requires job.place.depth > 0 && job.chain in a.chains && Spares(a, b, {}, Below(job.place))
    ensures Spares(a, b, {job.chain}, job.place)
  {
  }

  /** The chain is running: it is within its budget, waits for no confirmation, and holds its turn. */
  ghost predicate IsRunning(w: World, job: Job, last: int, messages: seq<Message>)
  {
    && job.chain in w.chains && job.policy in w.agents.Values
    && w.chains[job.chain].limit == job.policy.maxIterations && w.chains[job.chain].rank == job.place.rank
    && w.chains[job.chain].last == last && (last >= 0 ==> HasSent(w.log, job.chain)) && IsReached(w.log, job.place)
    && IsConversation(messages) && w.chains[job.chain].turn <= CurrentTurn(messages)
    && forall id :: id in w.pending ==> w.pending[id].chain != job.chain
  }

  lemma OthersLeaveRunning(a: World, b: World, job: Job, last: int, messages: seq<Message>, place: Place)
    requires IsRunning(a, job, last, messages) && Spares(a, b, {}, place)
    ensures IsRunning(b, job, last, messages)
  {
    hide HasSent, IsReached, AreNew, CurrentTurn;
    ReachedStaysReached(a.log, b.log, job.place);
    if last >= 0 {
      SentStaysSent(a.log, b.log, job.chain);
    }
  }

  function Logged(w: World, r: Request, turn: seq<Message>): World
    requires r.chain in w.chains
  {
    w.(log := w.log + [r], chains := w.chains[r.chain := w.chains[r.chain].(last := r.iteration, turn := turn)])
  }

  lemma RequestKeepsLog(log: seq<Request>, chains: map<nat, Chain>, r: Request)
    requires IsGoodLog(log, chains) && r.chain in chains && IsConversation(r.messages)
    requires chains[r.chain].last < r.iteration && chains[r.chain].turn <= CurrentTurn(r.messages)
    requires r.policy.maxIterations == chains[r.chain].limit && r.place.rank == chains[r.chain].rank
    requires r.offered != NO_TOOLS ==> r.iteration < chains[r.chain].limit
    ensures IsGoodLog(log + [r], chains[r.chain := chains[r.chain].(last := r.iteration, turn := CurrentTurn(r.messages))])
  {
    hide IsConversation, CurrentTurn;
    var later := chains[r.chain := chains[r.chain].(last := r.iteration, turn := CurrentTurn(r.messages))];
    forall i | 0 <= i < |log| ensures IsGoodRequest(log[i], later) {
      assert IsGoodRequest(log[i], chains);
    }
    forall i | 0 <= i < |log| && log[i].chain == r.chain
      ensures log[i].iteration < r.iteration && CurrentTurn(log[i].messages) <= CurrentTurn(r.messages) {
      assert IsGoodRequest(log[i], chains);
    }
  }

  /** The last round offers no tools. */
  function OfferedIn(policy: Policy, iteration: nat, names: ToolNames): ToolNames
  {
    if policy.allowTools && iteration < policy.maxIterations then names else NO_TOOLS
  }

  /** A request as the loop sends it, and the reply to it. */
  function RequestOf(s: Surroundings, job: Job, iteration: nat, names: ToolNames, messages: seq<Message>, at: nat): Request
  {
    var offered := OfferedIn(job.policy, iteration, names);
    Request(job.chain, iteration, job.place, job.policy, offered, messages, s.reply(at, offered), at)
  }

  /** The request of a round that begins with this list at this time: the list, compacted where it is too large. */
  function SentIn(s: Surroundings, job: Job, iteration: nat, names: ToolNames, given: seq<Message>, at: nat): Request
  {
    RequestOf(s, job, iteration, names, MaybeCompact(s.size, given, s.threshold, s.compact(at)), at + 1)
  }

  lemma ToolsAreOfferedBelow(policy: Policy, iteration: nat, names: ToolNames)
    ensures OfferedIn(policy, iteration, names) != NO_TOOLS ==> iteration < policy.maxIterations
  {
  }

  /** Sending one more request of a running chain keeps the record good. */
  lemma RequestIsGood(w: World, s: Surroundings, job: Job, iteration: nat, names: ToolNames, messages: seq<Message>, at: nat,
                      last: int)
    requires IsGood(w) && IsRunning(w, job, last, messages)
    requires last < iteration <= job.policy.maxIterations
    ensures var t := Logged(w, RequestOf(s, job, iteration, names, messages, at), CurrentTurn(messages));
            IsGood(t) && Spares(w, t, {job.chain}, job.place) && IsRunning(t, job, iteration, messages)
  {
    hide IsConversation, CurrentTurn, ArePaired, IsGoodLog, HasSent, IsReached, AreReached, OfferedIn, ArePending, Spares;
    ToolsAreOfferedBelow(job.policy, iteration, names);
    var r := RequestOf(s, job, iteration, names, messages, at);
    var t := Logged(w, r, CurrentTurn(messages));
    RequestKeepsLog(w.log, w.chains, r);
    SendingIsSent(w.log, r);
    SendingReaches(w.log, r);
    ReachedStaysReached(w.log, t.log, job.place);
    RequestKeepsPending(w, r, CurrentTurn(messages));
    RequestSpares(w, r, CurrentTurn(messages));
  }

  /** No other chain's suspension is touched. */
  lemma RequestKeepsPending(w: World, r: Request, turn: seq<Message>)
    requires IsGood(w) && r.chain in w.chains && forall id :: id in w.pending ==> w.pending[id].chain != r.chain
    ensures var t := Logged(w, r, turn);
            ArePending(t.pending, t.chains) && forall id :: id in w.pending ==> HasSent(t.log, w.pending[id].chain)
  {
    hide IsConversation, CurrentTurn, ArePaired, IsGoodLog, HasSent, AreReached;
    var t := Logged(w, r, turn);
    forall id | id in w.pending ensures IsGoodPending(w.pending[id], t.chains) && HasSent(t.log, w.pending[id].chain) {
      assert IsGoodPending(w.pending[id], w.chains);
      SentStaysSent(w.log, t.log, w.pending[id].chain);
    }
  }

  lemma RequestSpares(w: World, r: Request, turn: seq<Message>)
    requires r.chain in w.chains && r.policy in w.agents.Values
    ensures Spares(w, Logged(w, r, turn), {r.chain}, r.place)
  {
  }

  /** A job begins under a fresh correlation id. */
  function Begun(w: World, job: Job, turn: seq<Message>): World
  {
    w.(chains := w.chains[job.chain := Chain(job.policy.maxIterations, job.place.rank, -1, turn)])
  }

  lemma NewChainIsGood(w: World, job: Job, messages: seq<Message>)
    requires IsGood(w) && job.chain !in w.chains && job.policy in w.agents.Values && IsConversation(messages)
    requires IsReached(w.log, job.place)
    ensures var t := Begun(w, job, CurrentTurn(messages));
            IsGood(t) && Spares(w, t, {}, job.place) && IsRunning(t, job, -1, messages)
  {
    hide IsConversation, CurrentTurn, Paired, HasSent, IsReached, AreReached;
    var t := Begun(w, job, CurrentTurn(messages));
    forall i | 0 <= i < |w.log| ensures IsGoodRequest(w.log[i], t.chains) {
      assert IsGoodRequest(w.log[i], w.chains);
    }
    forall id | id in w.pending ensures IsGoodPending(w.pending[id], t.chains) && w.pending[id].chain != job.chain {
      assert IsGoodPending(w.pending[id], w.chains);
    }
  }

  /** Suspending a running chain below its limit. */
  lemma SuspensionIsGood(w: World, job: Job, p: Pending)
    requires IsGood(w) && p.iteration < p.policy.maxIterations && p.chain == job.chain && p.policy == job.policy
    requires IsRunning(w, job, p.iteration, p.messages)
    ensures var t := w.(pending := w.pending[w.issued := p], issued := w.issued + 1);
            IsGood(t) && Spares(w, t, {job.chain}, job.place)
  {
    hide IsConversation, CurrentTurn, Paired, HasSent, IsReached, AreReached;
  }

  /**
   Taking a suspension back under an unchanged policy: its chain runs again
   where it stopped, with the full default depth, whatever its rank.
   */
  lemma ResumptionIsGood(w: World, id: nat)
    requires IsGood(w) && id in w.pending
    ensures var p, t := w.pending[id], w.(pending := w.pending - {id});
            && p.chain in w.chains && IsGood(t) && id < w.issued && p.iteration < p.policy.maxIterations
            && (forall place :: Spares(w, t, {p.chain}, place))
            && (forall policy, place: Place ::
                  policy in w.agents.Values && Signature(policy) == Signature(p.policy)
                  && place.rank == w.chains[p.chain].rank && IsReached(w.log, place)
                  ==> IsRunning(t, Job(p.chain, policy, place), p.iteration, p.messages))
  {
    hide IsConversation, CurrentTurn, Paired, HasSent, IsReached, AreReached;
    assert IsGoodPending(w.pending[id], w.chains);
  }

  lemma SavingIsGood(w: World, key: (string, string), messages: seq<Message>, response: Message, own: set<nat>,
                     place: Place)
    requires IsGood(w) && IsConversation(messages) && response.role.Assistant?
    ensures var t := w.(histories := w.histories[key := PersistedHistory(messages, response)]);
            IsGood(t) && Spares(w, t, own, place)
  {
    hide CurrentTurn, Paired, PersistedHistory, HasSent, IsReached, AreReached;
    ConversationHead(messages);
    SavedHistoryIsPaired(messages, response);
  }

  lemma LongerTurnRuns(w: World, job: Job, last: int, messages: seq<Message>, more: seq<Message>)
    requires IsRunning(w, job, last, messages) && IsConversation(more) && CurrentTurn(messages) <= CurrentTurn(more)
    ensures IsRunning(w, job, last, more)
  {
    hide IsConversation, CurrentTurn, HasSent, IsReached, AreReached;
  }

  // ---- Budgets --------------------------------------------------------------------------------------

  function Count(log: seq<Request>, chain: nat): nat
  {
    if log == [] then 0
    else Count(log[..|log| - 1], chain) + if log[|log| - 1].chain == chain then 1 else 0
  }

  lemma {:induction false} CountBelow(log: seq<Request>, chain: nat, bound: nat)
    requires forall i, j :: 0 <= i < j < |log| && log[i].chain == chain && log[j].chain == chain ==>
               log[i].iteration < log[j].iteration
    requires forall i :: 0 <= i < |log| && log[i].chain == chain ==> log[i].iteration < bound
    ensures Count(log, chain) <= bound
  {
    if log != [] {
      var n := |log| - 1;
      if log[n].chain == chain {
        CountBelow(log[..n], chain, log[n].iteration);
      } else {
        CountBelow(log[..n], chain, bound);
      }
    }
  }

  /** A run and all its resumptions send at most `max_tool_iterations + 1` requests of their own. */
  lemma BudgetHolds(w: World, i: nat)
    requires IsGood(w) && i < |w.log|
    ensures Count(w.log, w.log[i].chain) <= w.log[i].policy.maxIterations + 1
  {
    hide IsConversation, CurrentTurn, Paired, HasSent, IsReached, AreReached;
    var chain := w.log[i].chain;
    assert IsGoodRequest(w.log[i], w.chains);
    forall k | 0 <= k < |w.log| && w.log[k].chain == chain ensures w.log[k].iteration < w.chains[chain].limit + 1 {
      assert IsGoodRequest(w.log[k], w.chains);
    }
    CountBelow(w.log, chain, w.chains[chain].limit + 1);
  }

  /** The calls that are answered on the spot: neither a delegation nor a tool behind hooks. */
  function LocalAnswer(call: ToolCall, names: ToolNames, c: ToolCase): Option<(string, bool)>
  {
    if call.name.None? || call.name.value == "" then Some(("tool call is missing a function name", true))
    else
      var name := call.name.value;
      if name == TOOL_SEARCH_TOOL_NAME && names.searchable then Some((c.content, false))
      else if name in names.teammates then None
      else if name in names.skills then Some((c.content, c.isError))
      else if name !in names.permitted then Some(("permission denied for MCP tool: " + name, true))
      else None
  }

  /** Why a call to a tool behind hooks is refused, if it is, and the call that is answered so. */
  function Refusal(c: ToolCase, asked: ToolCall): Option<(ToolCall, string)>
  {
    if c.hookBlocks then Some((asked, "tool call was denied by Agent Hook"))
    else if c.updatedInput.Some? && c.inputIsInvalid then Some((asked, c.reason))
    else if c.needsConfirmation && c.isDenied then Some((Updated(asked, c.updatedInput), c.reason))
    else if c.needsConfirmation && !c.mayControl then
      Some((Updated(asked, c.updatedInput), "permission denied for host tool execution"))
    else None
  }

  // ---- When something is sent -------------------------------------------------------------------------

  /** The run gets to its first request: an enabled Agent with a model, and nothing raises before. */
  predicate CanStart(s: Surroundings, agents: map<string, Policy>, agentId: string, at: nat)
  {
    agentId in agents && agents[agentId].enabled && agents[agentId].models != [] && s.start(at).Some?
  }

  /** What a session's Agent remembers; a delegated run starts from nothing. */
  function StoredFor(w: World, session: string, agentId: string, isDelegated: bool): seq<Message>
  {
    if isDelegated || (session, agentId) !in w.histories then [] else w.histories[(session, agentId)]
  }

  /** The tools of a run, delegations to teammates included. */
  function NamesFor(policy: Policy, agents: map<string, Policy>, depth: nat, searchable: bool, skills: set<string>,
                    permitted: set<string>): ToolNames
  {
    ToolNames(searchable, if policy.allowTools then TeammateTools(policy, agents, depth) else {}, skills, permitted)
  }

  /** A new run of the Agent: its first request, and its chain. */
  ghost predicate IsBegun(s: Surroundings, before: World, at: nat, chain: nat, session: string, policy: Policy,
                          user: seq<Part>, isDelegated: bool, place: Place, start: Start, after: World)
  {
    && |after.log| > |before.log|
    && after.log[|before.log|]
       == SentIn(s, Job(chain, policy, place), 0,
                 NamesFor(policy, before.agents, place.depth, start.searchable, start.skills, start.permitted),
                 FirstMessages(start.system, start.context, start.catalogue,
                               StoredFor(before, session, policy.id, isDelegated), user), at)
    && chain !in before.chains && chain in after.chains
    && after.chains[chain].limit == policy.maxIterations && after.chains[chain].rank == place.rank
  }

  /** The later request carries on the earlier one: all calls of its reply answered, compacted where that is too large. */
  ghost predicate GrowsInto(s: Surroundings, a: Request, b: Request)
  {
    && a.reply.Some? && b.iteration == a.iteration + 1
    && exists given, at :: AreAllAnswered(a.messages, given, a.reply.value.calls)
                           && b.messages == MaybeCompact(s.size, given, s.threshold, s.compact(at))
  }

  /** A request of this job, which carries on an earlier one sent from `start` on, unless it is the first. */
  ghost predicate IsStep(s: Surroundings, job: Job, names: ToolNames, log: seq<Request>, start: nat, j: nat)
    requires j < |log|
  {
    && log[j].policy == job.policy && log[j].place == job.place
    && log[j].offered == OfferedIn(job.policy, log[j].iteration, names)
    && (j > start ==> exists i :: start <= i < j && log[i].chain == job.chain && GrowsInto(s, log[i], log[j]))
  }

  /** From `start` on, the requests of the job go on from one to the next. */
  ghost predicate Unfolds(s: Surroundings, job: Job, names: ToolNames, log: seq<Request>, start: nat)
  {
    forall j :: start <= j < |log| && log[j].chain == job.chain ==> IsStep(s, job, names, log, start, j)
  }

  /** Behind this entry the chain has sent nothing. */
  ghost predicate IsLatest(log: seq<Request>, n: nat, chain: nat)
  {
    n < |log| && log[n].chain == chain && forall m :: n < m < |log| ==> log[m].chain != chain
  }

  ghost predicate IsAt(w: World, chain: nat, last: int)
  {
    chain in w.chains && w.chains[chain].last == last
  }

  lemma LatestIsAt(w: World, n: nat, chain: nat)
    requires IsGood(w) && n < |w.log| && w.log[n].chain == chain && IsAt(w, chain, w.log[n].iteration)
    ensures IsLatest(w.log, n, chain)
  {
    hide IsConversation, CurrentTurn, AreReached, ArePending, ArePaired, HasSent;
    forall m | n < m < |w.log| ensures w.log[m].chain != chain {
      assert IsGoodRequest(w.log[m], w.chains);
    }
  }

  lemma RunningIsAt(w: World, job: Job, last: int, messages: seq<Message>)
    requires IsRunning(w, job, last, messages)
    ensures IsAt(w, job.chain, last)
  {
  }

  lemma UnfoldsFromFirst(s: Surroundings, job: Job, names: ToolNames, log: seq<Request>, start: nat, iteration: nat,
                         given: seq<Message>, at: nat)
    requires IsLatest(log, start, job.chain) && log[start] == SentIn(s, job, iteration, names, given, at)
    ensures Unfolds(s, job, names, log, start)
  {
    hide MaybeCompact, OfferedIn;
  }

  lemma UnfoldsFurther(s: Surroundings, job: Job, names: ToolNames, before: seq<Request>, log: seq<Request>, start: nat,
                       latest: nat, given: seq<Message>, at: nat)
    requires before <= log && start <= latest < |before| && Unfolds(s, job, names, before, start)
    requires before[latest].chain == job.chain && before[latest].reply.Some?
    requires AreAllAnswered(before[latest].messages, given, before[latest].reply.value.calls)
    requires IsLatest(log, |before|, job.chain)
    requires log[|before|] == SentIn(s, job, before[latest].iteration + 1, names, given, at)
    ensures Unfolds(s, job, names, log, start)
  {
    hide AreAllAnswered, MaybeCompact, OfferedIn;
    assert log[latest] == before[latest];
    assert GrowsInto(s, log[latest], log[|before|]);
    forall j | start <= j < |before| && log[j].chain == job.chain ensures IsStep(s, job, names, log, start, j) {
      assert log[j] == before[j] && IsStep(s, job, names, before, start, j);
      if j > start {
        var i :| start <= i < j && before[i].chain == job.chain && GrowsInto(s, before[i], before[j]);
        assert log[i] == before[i];
      }
    }
  }

  /** The chain's last word: the model's reply to a request of it that made no calls, or to its last one. */
  ghost predicate IsLastWord(r: Request, messages: seq<Message>, response: Message)
  {
    && r.messages == messages && r.reply.Some? && response == Message(Assistant, r.reply.value.parts)
    && (r.reply.value.calls == [] || r.iteration == r.policy.maxIterations)
  }

  /** The loop failed for a reason: a request without a reply, or a step of a tool call that raised. */
  ghost predicate HasCause(s: Surroundings, log: seq<Request>, start: nat, chain: nat, since: nat, until: nat)
  {
    || (exists i :: start <= i < |log| && log[i].chain == chain && log[i].reply.None?)
    || ToolRaised(s, since, until)
  }

  ghost predicate ToolRaised(s: Surroundings, since: nat, until: nat)
  {
    exists t :: since <= t < until && (s.tool(t).raises || !s.tool(t).isStored)
  }

  /** How the loop may end that sent its requests from `start` on. */
  ghost predicate IsEnd(s: Surroundings, log: seq<Request>, start: nat, pending: map<nat, Pending>, chain: nat,
                        turn: seq<Message>, since: nat, until: nat, outcome: Outcome)
  {
    match outcome
    case Completed(messages, response) =>
      && IsConversation(messages) && response.role.Assistant? && turn <= CurrentTurn(messages)
      && exists i :: start <= i < |log| && log[i].chain == chain && IsLastWord(log[i], messages, response)
    case AwaitingConfirmation(id) => id in pending && pending[id].chain == chain
    case Failed => HasCause(s, log, start, chain, since, until)
    case RuntimeLoopError => false
  }

  /** How a run ends whose loop ended like that: a completed one is saved, or has failed. */
  ghost predicate IsFinished(s: Surroundings, before: World, chain: nat, session: string, agentId: string,
                             turn: seq<Message>, since: nat, after: World, until: nat, outcome: Outcome)
  {
    match outcome
    case Completed(messages, response) =>
      && IsEnd(s, after.log, |before.log|, after.pending, chain, turn, since, until, outcome)
      && (session, agentId) in after.histories
      && after.histories[(session, agentId)] == PersistedHistory(messages, response)
    case Failed =>
      || IsEnd(s, after.log, |before.log|, after.pending, chain, turn, since, until, outcome)
      || (until > since && !s.isSaved(until - 1))
    case _ => IsEnd(s, after.log, |before.log|, after.pending, chain, turn, since, until, outcome)
  }

  /** Histories of other sessions stay as they are. */
  ghost predicate KeptElsewhere(before: map<(string, string), seq<Message>>, after: map<(string, string), seq<Message>>,
                                session: string)
  {
    forall key: (string, string) :: key.0 != session ==>
      (key in before <==> key in after) && (key in before ==> before[key] == after[key])
  }

  /** All of a run: whether it starts, what it sends first, and how it ends. */
  ghost predicate IsRun(s: Surroundings, before: World, at: nat, session: string, agentId: string, user: seq<Part>,
                        isDelegated: bool, place: Place, after: World, until: nat, outcome: Outcome)
  {
    && Spares(before, after, {}, place) && KeptElsewhere(before.histories, after.histories, session)
    && if CanStart(s, before.agents, agentId, at) then
         exists chain ::
           IsRunAs(s, before, at, chain, session, before.agents[agentId], user, isDelegated, place, after, until, outcome)
       else after == before && outcome == Failed
  }

  /** The run under this correlation id. */
  ghost predicate IsRunAs(s: Surroundings, before: World, at: nat, chain: nat, session: string, policy: Policy,
                          user: seq<Part>, isDelegated: bool, place: Place, after: World, until: nat, outcome: Outcome)
  {
    && s.start(at).Some?
    && IsBegun(s, before, at + 1, chain, session, policy, user, isDelegated, place, s.start(at).value, after)
    && Unfolds(s, Job(chain, policy, place), StartNames(before, policy, place, s.start(at).value), after.log, |before.log|)
    && IsFinished(s, before, chain, session, policy.id, [Message(User, user)], at + 1, after, until, outcome)
  }

  /** The tools of a new run. */
  ghost function StartNames(w: World, policy: Policy, place: Place, start: Start): ToolNames
  {
    NamesFor(policy, w.agents, place.depth, start.searchable, start.skills, start.permitted)
  }

  /** The requests of a confirmed chain go on from its first new one. */
  ghost predicate ResumedUnfolds(s: Surroundings, before: World, p: Pending, place: Place, a: ApprovalCase, log: seq<Request>)
    requires p.policy.id in before.agents
  {
    var policy := before.agents[p.policy.id];
    Unfolds(s, Job(p.chain, policy, place),
            NamesFor(policy, before.agents, DEFAULT_TEAMMATE_DEPTH, false, a.skills, a.permitted), log, |before.log|)
  }

  /** All of a confirmation that goes on. */
  ghost predicate IsResumed(s: Surroundings, before: World, at: nat, id: nat, session: string, after: World, until: nat,
                            outcome: Outcome)
  {
    && |after.log| > |before.log| && GoesOnWith(s, before, at, id, after.log[|before.log|]) && id !in after.pending
    && var p := before.pending[id];
       && ResumedUnfolds(s, before, p, ConfirmedPlace(before, id), s.approval(at), after.log)
       && IsFinished(s, before, p.chain, session, before.agents[p.policy.id].id, CurrentTurn(Resumed(p, s.approval(at))), at + 1,
                  after, until, outcome)
  }

  /** What a delegation answers with. */
  function TeammateAnswer(teammateId: string, outcome: Outcome): (string, bool)
  {
    if outcome.Completed? && TextUnits.Strip(TextParts(outcome.response.parts)) != "" then
      (TextUnits.Strip(TextParts(outcome.response.parts)), false)
    else ("teammate " + teammateId + " produced no answer", true)
  }

  /** A delegation is a run of the teammate on the task, answered with its last word, or an error. */
  ghost predicate IsDelegated(s: Surroundings, before: World, at: nat, session: string, call: ToolCall, task: Option<string>,
                              place: Place, after: World, until: nat, content: string, isError: bool)
  {
    var teammateId := RemovePrefix(CallName(call));
    if !IsTask(task) then after == before && (content, isError) == ("delegation requires a non-empty task", true)
    else if teammateId !in before.agents || !before.agents[teammateId].enabled then
      after == before && (content, isError) == ("unknown teammate Agent: " + teammateId, true)
    else
      exists outcome ::
        && IsRun(s, before, at, session, teammateId, [Text(TextUnits.Strip(task.value))], true, place, after, until, outcome)
        && (content, isError) == TeammateAnswer(teammateId, outcome)
  }

  /** The call as a hook changed its arguments. */
  function Updated(call: ToolCall, input: Option<string>): ToolCall
  {
    if input.Some? then call.(arguments := input.value) else call
  }

  /** What becomes of a call to a tool behind hooks. */
  ghost predicate IsGuarded(c: ToolCase, asked: ToolCall, messages: seq<Message>, r: seq<Message>, halt: Option<Outcome>,
                            before: World, after: World, job: Job, session: string, iteration: nat)
  {
    var call := Updated(asked, c.updatedInput);
    if c.raises then after == before && halt == Some(Failed)
    else if c.hookBlocks then
      after == before && halt.None? && r == messages + Exchange(asked, "tool call was denied by Agent Hook", true)
    else if c.updatedInput.Some? && c.inputIsInvalid then
      after == before && halt.None? && r == messages + Exchange(asked, c.reason, true)
    else if c.needsConfirmation && c.isDenied then
      after == before && halt.None? && r == messages + Exchange(call, c.reason, true)
    else if c.needsConfirmation && !c.mayControl then
      after == before && halt.None? && r == messages + Exchange(call, "permission denied for host tool execution", true)
    else if c.needsConfirmation then
      && after == before.(
           pending := before.pending[before.issued := Pending(job.chain, session, job.policy, messages, call, iteration)],
           issued := before.issued + 1)
      && halt == Some(if c.isStored then AwaitingConfirmation(before.issued) else Failed) && r == messages
    else
      && after == before && halt.None?
      && r == InjectHookContext(messages + Exchange(call, ResultText(c.resultIsBlocked, c.reason, c.content),
                                                    c.resultIsBlocked || c.isError), c.context)
  }

  /** `_post_tool_result`: a hook behind the tool may hold its result back. */
  function ResultText(isBlocked: bool, reason: string, content: string): string
  {
    if isBlocked then "PostToolUse Hook blocked this result: " + reason else content
  }

  /** What becomes of one call of a reply. */
  ghost predicate IsHandled(s: Surroundings, at: nat, call: ToolCall, names: ToolNames, messages: seq<Message>,
                            r: seq<Message>, halt: Option<Outcome>, before: World, after: World, until: nat,
                            job: Job, session: string, iteration: nat)
  {
    var c := s.tool(at);
    if call.name.None? || call.name.value == "" then
      after == before && halt.None? && r == messages + Exchange(call, "tool call is missing a function name", true)
    else if call.name.value == TOOL_SEARCH_TOOL_NAME && names.searchable then
      after == before && halt.None? && r == messages + Exchange(call, c.content, false)
    else if call.name.value in names.teammates then
      && halt.None? && job.place.depth > 0
      && exists content, isError ::
           && IsDelegated(s, before, at + 1, session, call, c.task, Below(job.place), after, until, content, isError)
           && r == messages + Exchange(call, content, isError)
    else if call.name.value in names.skills then
      after == before && halt.None? && r == messages + Exchange(call, c.content, c.isError)
    else if call.name.value !in names.permitted then
      && after == before && halt.None?
      && r == messages + Exchange(call, "permission denied for MCP tool: " + call.name.value, true)
    else IsGuarded(c, call, messages, r, halt, before, after, job, session, iteration)
  }

  /** A tool behind hooks: neither the search, nor a delegation, nor a skill. */
  predicate IsBehindHooks(call: ToolCall, names: ToolNames)
  {
    && call.name.Some? && call.name.value != "" && !(call.name.value == TOOL_SEARCH_TOOL_NAME && names.searchable)
    && call.name.value !in names.teammates && call.name.value !in names.skills
  }

  /** No step before the tool raised or refused the call. */
  predicate IsLetThrough(c: ToolCase)
  {
    !c.raises && !c.hookBlocks && !(c.updatedInput.Some? && c.inputIsInvalid)
  }

  /**
   What such a tool answers enters the turn as its answer exactly when the Agent
   may use it, nothing refused the call or held the answer back, and no
   confirmation was needed; whatever else is answered is an error.  A confirmation
   is asked for exactly when one is needed, nothing refuses it, and the caller may
   control the Agent.
   */
  lemma ToolsAnswerWhenAllowed(s: Surroundings, at: nat, call: ToolCall, names: ToolNames, messages: seq<Message>,
                               r: seq<Message>, halt: Option<Outcome>, before: World, after: World, until: nat,
                               job: Job, session: string, iteration: nat)
    requires IsBehindHooks(call, names)
    requires IsHandled(s, at, call, names, messages, r, halt, before, after, until, job, session, iteration)
    ensures var c := s.tool(at);
            var isAllowed := call.name.value in names.permitted && IsLetThrough(c);
            && (halt.None? ==>
                  && r != [] && r[|r| - 1].role.Tool? && |r[|r| - 1].parts| == 1 && r[|r| - 1].parts[0].Answer?
                  && r[|r| - 1].parts[0].id == call.id
                  && (!r[|r| - 1].parts[0].isError <==>
                        isAllowed && !c.needsConfirmation && !c.resultIsBlocked && !c.isError)
                  && (!r[|r| - 1].parts[0].isError ==> r[|r| - 1].parts[0].content == c.content))
            && (after.issued > before.issued <==> isAllowed && c.needsConfirmation && !c.isDenied && c.mayControl)
            && (after.issued > before.issued ==> halt.Some? && r == messages)
  {
    hide IsDelegated, InjectHookContext, Exchange, CallName;
    var c := s.tool(at);
    LastIsAnswer(messages, call, "tool call was denied by Agent Hook", true, []);
    LastIsAnswer(messages, call, c.reason, true, []);
    LastIsAnswer(messages, Updated(call, c.updatedInput), c.reason, true, []);
    LastIsAnswer(messages, Updated(call, c.updatedInput), "permission denied for host tool execution", true, []);
    LastIsAnswer(messages, call, "permission denied for MCP tool: " + call.name.value, true, []);
    LastIsAnswer(messages, Updated(call, c.updatedInput), ResultText(c.resultIsBlocked, c.reason, c.content),
                 c.resultIsBlocked || c.isError, c.context);
  }

  lemma LastIsAnswer(messages: seq<Message>, call: ToolCall, content: string, isError: bool, texts: seq<string>)
    ensures var r := InjectHookContext(messages + Exchange(call, content, isError), texts);
            && r != [] && r[|r| - 1].role.Tool? && r[|r| - 1].parts == [Answer(call.id, CallName(call), content, isError)]
            && (texts == [] ==> r == messages + Exchange(call, content, isError))
  {
    hide CallName, HookMessage;
    var e := Exchange(call, content, isError);
    var r := InjectHookContext(messages + e, texts);
    assert r[|r| - 1] == e[1];
  }

  /** The run halted on one of these calls, with those before it answered: it waits for that call, or a step raised. */
  ghost predicate IsHaltedAt(s: Surroundings, since: nat, until: nat, given: seq<Message>, messages: seq<Message>,
                             calls: seq<ToolCall>, k: nat, outcome: Outcome, pending: map<nat, Pending>,
                             job: Job, session: string, iteration: nat)
  {
    && k < |calls| && AreAllAnswered(given, messages, calls[..k])
    && match outcome
       case AwaitingConfirmation(id) =>
         && id in pending && pending[id].call.id == calls[k].id && CallName(pending[id].call) == CallName(calls[k])
         && pending[id] == Pending(job.chain, session, job.policy, messages, pending[id].call, iteration)
       case Failed => ToolRaised(s, since, until)
       case _ => false
  }

  /** The place of a confirmed chain: a call of its own, with the full depth, at the chain's old rank. */
  ghost function ConfirmedPlace(w: World, id: nat): Place
  {
    if id in w.pending && w.pending[id].chain in w.chains then
      Place(0, DEFAULT_TEAMMATE_DEPTH, w.chains[w.pending[id].chain].rank)
    else TOP
  }

  /** The suspended list with the confirmed call and its result behind it. */
  function Resumed(p: Pending, a: ApprovalCase): seq<Message>
  {
    p.messages + Exchange(Updated(p.call, a.updatedInput), ResultText(a.resultIsBlocked, a.reason, a.content),
                          a.resultIsBlocked || a.isError)
  }

  /** What was sent is the confirmed chain, one iteration further, with the call answered. */
  ghost predicate GoesOnWith(s: Surroundings, before: World, at: nat, id: nat, r: Request)
  {
    && HasPolicyKept(before, id)
    && var p, a := before.pending[id], s.approval(at);
       var policy := before.agents[p.policy.id];
       r == SentIn(s, Job(p.chain, policy, ConfirmedPlace(before, id)), p.iteration + 1,
                   NamesFor(policy, before.agents, DEFAULT_TEAMMATE_DEPTH, false, a.skills, a.permitted),
                   Resumed(p, a), at + 1)
  }

  /** The Agent exists, is enabled and has the policy the confirmation was asked under. */
  ghost predicate HasPolicyKept(w: World, id: nat)
  {
    && id in w.pending && w.pending[id].policy.id in w.agents && w.agents[w.pending[id].policy.id].enabled
    && Signature(w.agents[w.pending[id].policy.id]) == Signature(w.pending[id].policy)
  }

  /** The confirmation is this session's, and still there to be claimed. */
  ghost predicate IsClaimed(s: Surroundings, w: World, id: nat, session: string, at: nat)
  {
    id in w.pending && w.pending[id].session == session && s.approval(at).isClaimed
  }

  /** The confirmation is this session's, its policy is unchanged, and nothing on the way stops it. */
  ghost predicate CanGoOn(s: Surroundings, w: World, id: nat, session: string, at: nat)
  {
    && id in w.pending && w.pending[id].session == session
    && HasPolicyKept(w, id) && LetsGoOn(s.approval(at))
  }

  /** A confirmation takes its chain where an earlier request of the chain led. */
  lemma ConfirmationReaches(w: World, id: nat)
    requires IsGood(w) && id in w.pending
    ensures w.pending[id].chain in w.chains && IsReached(w.log, ConfirmedPlace(w, id))
  {
    hide IsConversation, CurrentTurn, Paired, AreReached;
    assert IsGoodPending(w.pending[id], w.chains);
    var i :| 0 <= i < |w.log| && w.log[i].chain == w.pending[id].chain;
    assert IsGoodRequest(w.log[i], w.chains);
    assert LeadsTo(w.log[i].place, ConfirmedPlace(w, id));
  }

  // ---- Surroundings under which delegations nest ---------------------------------------------------------

  const GUARDED := "guarded"

  /** Two Agents, each the other's teammate. */
  function Pair(): map<string, Policy>
  {
    map["a" := Policy("a", true, ["m"], 2, true, ["b"], ""), "b" := Policy("b", true, ["m"], 2, true, ["a"], "")]
  }

  /** Hand on to the teammate offered; when none is, call the tool that needs a confirmation. */
  function NestingCall(names: ToolNames): ToolCall
  {
    var name := if "delegate_to_b" in names.teammates then "delegate_to_b"
                else if "delegate_to_a" in names.teammates then "delegate_to_a" else GUARDED;
    ToolCall(None, Some(name), "")
  }

  predicate IsTask(task: Option<string>) { task.Some? && TextUnits.Strip(task.value) != "" }

  predicate Suspends(c: ToolCase)
  {
    && !c.raises && !c.hookBlocks && c.updatedInput.None? && c.needsConfirmation && !c.isDenied && c.mayControl
            && c.isStored
    && IsTask(c.task)
  }

  predicate Permits(permitted: set<string>, skills: set<string>) { GUARDED in permitted && GUARDED !in skills }

  /** Everything starts and is allowed, and the model makes the nesting call. */
  ghost predicate IsNesting(s: Surroundings, agents: map<string, Policy>)
  {
    && agents == Pair()
    && (forall t :: s.start(t).Some? && Permits(s.start(t).value.permitted, s.start(t).value.skills))
    && (forall t, names :: s.reply(t, names) == Some(Reply([], [NestingCall(names)])))
    && (forall t :: Suspends(s.tool(t)))
    && (forall t :: LetsGoOn(s.approval(t)) && Permits(s.approval(t).permitted, s.approval(t).skills))
  }

  function Nesting(size: Size, threshold: int): Surroundings
  {
    Surroundings(
      t => Some(Start("", [], "", false, {}, {GUARDED})), t => None,
      (t, names) => Some(Reply([], [NestingCall(names)])),
      t => ToolCase(false, "", false, Some("go on"), false, None, false, "", true, false, true, true, false, []),
      t => ApprovalCase(true, true, false, false, false, None, "", false, false, "", {}, {GUARDED}), t => true, size, threshold)
  }

  lemma NestingSuspends(size: Size, threshold: int, t: nat)
    ensures Suspends(Nesting(size, threshold).tool(t))
  {
    hide Pair, NestingCall, TextUnits.Strip;
    GoOnIsATask();
  }

  lemma NestingAllows(size: Size, threshold: int, t: nat)
    ensures var start := Nesting(size, threshold).start(t); start.Some? && Permits(start.value.permitted, start.value.skills)
    ensures var a := Nesting(size, threshold).approval(t); LetsGoOn(a) && Permits(a.permitted, a.skills)
  {
    hide Pair, NestingCall, Suspends;
  }

  lemma NestingReplies(size: Size, threshold: int, t: nat, names: ToolNames)
    ensures Nesting(size, threshold).reply(t, names) == Some(Reply([], [NestingCall(names)]))
  {
    hide Pair, NestingCall, Suspends;
  }

  lemma NestingNests(size: Size, threshold: int)
    ensures IsNesting(Nesting(size, threshold), Pair())
  {
    hide Nesting, Pair, NestingCall, Suspends, LetsGoOn, Permits;
    forall t: nat ensures Suspends(Nesting(size, threshold).tool(t)) {
      NestingSuspends(size, threshold, t);
    }
    forall t: nat
      ensures var start := Nesting(size, threshold).start(t); start.Some? && Permits(start.value.permitted, start.value.skills)
      ensures var a := Nesting(size, threshold).approval(t); LetsGoOn(a) && Permits(a.permitted, a.skills) {
      NestingAllows(size, threshold, t);
    }
    forall t: nat, names ensures Nesting(size, threshold).reply(t, names) == Some(Reply([], [NestingCall(names)])) {
      NestingReplies(size, threshold, t, names);
    }
  }

  /** What a run of the pair offers at this depth. */
  ghost predicate Offers(names: ToolNames, policy: Policy, depth: nat)
  {
    names.teammates == TeammateTools(policy, Pair(), depth) && Permits(names.permitted, names.skills)
  }

  /** At any depth left the nesting call is a delegation to the other Agent of the pair, and at none the guarded tool. */
  lemma NestingCallIs(names: ToolNames, policy: Policy, depth: nat)
    requires policy in Pair().Values && Offers(names, policy, depth)
    ensures var name := NestingCall(names).name.value;
            && name != "" && name != TOOL_SEARCH_TOOL_NAME
            && (depth > 0 ==> name in names.teammates && RemovePrefix(name) in Pair())
            && (depth == 0 ==> name == GUARDED && name !in names.teammates)
  {
    if depth > 0 {
      OfferedTeammatesExist(policy, Pair(), depth, "delegate_to_b");
      OfferedTeammatesExist(policy, Pair(), depth, "delegate_to_a");
      assert RemovePrefix("delegate_to_b") == "b" && RemovePrefix("delegate_to_a") == "a";
    }
  }

  lemma PairIs(policy: Policy)
    requires policy in Pair().Values
    ensures policy.enabled && policy.models != [] && policy.maxIterations == 2 && policy.allowTools
    ensures policy.id in Pair() && Pair()[policy.id] == policy
  {
  }

  lemma GoOnIsATask()
    ensures TextUnits.Strip("go on") != ""
  {
    assert TextUnits.StripLeft("go on") == "go on";
    assert TextUnits.StripRight("go on") == "go on";
  }

  /** A chain of this rank waits, in its first round, for this confirmation. */
  ghost predicate IsWaiting(w: World, id: nat, rank: nat, session: string)
  {
    && id in w.pending && w.pending[id].session == session && w.pending[id].iteration == 0
    && w.pending[id].policy in w.agents.Values
    && w.pending[id].chain in w.chains && w.chains[w.pending[id].chain].rank == rank
  }

  /** All confirmations asked since are for such chains. */
  ghost predicate AllWait(w: World, since: nat, rank: nat, session: string)
  {
    forall id :: id in w.pending && since <= id ==> IsWaiting(w, id, rank, session)
  }

  /** And there is one. */
  ghost predicate Waits(w: World, since: nat, rank: nat, session: string)
  {
    AllWait(w, since, rank, session) && exists id :: id in w.pending && since <= id
  }

  lemma SuspensionWaits(w: World, job: Job, p: Pending)
    requires IsGood(w) && IsRunning(w, job, 0, p.messages) && p.iteration == 0 && p.chain == job.chain
            && p.policy == job.policy
    ensures Waits(w.(pending := w.pending[w.issued := p], issued := w.issued + 1), w.issued, job.place.rank, p.session)
  {
    hide IsConversation, CurrentTurn, IsReached, AreReached, HasSent, IsGoodLog, AreGoodChains, ArePending, ArePaired;
    var t := w.(pending := w.pending[w.issued := p], issued := w.issued + 1);
    assert IsWaiting(t, w.issued, job.place.rank, p.session);
    assert w.issued in t.pending;
  }

  lemma NothingNewWaits(w: World, rank: nat, session: string)
    requires IsGood(w)
    ensures AllWait(w, w.issued, rank, session)
  {
    hide IsReached, AreReached, HasSent, IsGoodLog, AreGoodChains, ArePending, ArePaired;
  }

  /** A further round leaves those waiting that wait, and adds only such. */
  lemma WaitsLonger(before: World, after: World, job: Job, last: int, messages: seq<Message>, since: nat, rank: nat,
                    session: string)
    requires IsRunning(before, job, last, messages) && Spares(before, after, {job.chain}, job.place)
    requires Waits(before, since, rank, session) && AllWait(after, before.issued, rank, session)
    ensures Waits(after, since, rank, session)
  {
    hide IsConversation, CurrentTurn, IsReached, HasSent, AreNew;
    forall id | id in after.pending && since <= id ensures IsWaiting(after, id, rank, session) {
      assert id in before.pending ==> IsWaiting(before, id, rank, session);
    }
    var id :| id in before.pending && since <= id;
    assert id in after.pending;
  }

  lemma WaitsOn(before: World, after: World, job: Job, last: int, messages: seq<Message>, since: nat, rank: nat,
                session: string)
    requires IsRunning(before, job, last, messages) && Spares(before, after, {job.chain}, job.place)
    requires Waits(before, since, rank, session)
    requires AllWait(after, before.issued, rank, session) || Waits(after, before.issued, rank, session)
    ensures Waits(after, since, rank, session)
  {
    hide IsRunning, Spares, AllWait;
    WaitsLonger(before, after, job, last, messages, since, rank, session);
  }

  lemma SavedStillWaits(w: World, histories: map<(string, string), seq<Message>>, since: nat, rank: nat, session: string)
    ensures Waits(w, since, rank, session) ==> Waits(w.(histories := histories), since, rank, session)
  {
    if Waits(w, since, rank, session) {
      forall id | id in w.pending && since <= id ensures IsWaiting(w.(histories := histories), id, rank, session) {
        assert IsWaiting(w, id, rank, session);
      }
    }
  }

  /** The surroundings nest, and this round of this job gets as far as the nesting call takes it. */
  ghost predicate Deepens(s: Surroundings, agents: map<string, Policy>, names: ToolNames, policy: Policy, depth: nat,
                          iteration: nat)
  {
    IsNesting(s, agents) && policy in Pair().Values && Offers(names, policy, depth) && (depth > 0 || iteration == 0)
  }

  // ---- The executor ------------------------------------------------------------------------------------

  class Executor {
    var agents: map<string, Policy>
    var histories: map<(string, string), seq<Message>>
    var pending: map<nat, Pending>
    var nextConfirmation: nat
    var nextChain: nat
    var clock: nat
    const surroundings: Surroundings
    ghost var log: seq<Request>
    ghost var chains: map<nat, Chain>

    ghost function Now(): World
      reads this
    {
      World(log, chains, pending, nextConfirmation, histories, agents)
    }

    ghost predicate Valid()
      reads this
    {
      && IsGood(Now())
      && forall c :: c in chains ==> c < nextChain
    }

    constructor (agents: map<string, Policy>, surroundings: Surroundings)
      ensures Valid() && Now() == World([], map[], map[], 0, map[], agents)
      ensures this.surroundings == surroundings && clock == 0
    {
      this.agents := agents;
      this.surroundings := surroundings;
      histories, pending, nextConfirmation, nextChain, clock := map[], map[], 0, 0, 0;
      log, chains := [], map[];
    }

    /** The registry may change between any two calls. */
    method ReplaceAgents(agents: map<string, Policy>)
      requires Valid()
      modifies `agents
      ensures Valid() && Now() == old(Now()).(agents := agents)
    {
      this.agents := agents;
    }

    /** One request to the model; no reply when every model failed. */
    method ExecuteModel(ghost job: Job, iteration: nat, messages: seq<Message>, ghost names: ToolNames, offered: ToolNames,
                        ghost last: int)
      returns (reply: Option<Reply>)
      requires Valid() && IsRunning(Now(), job, last, messages) && last < iteration <= job.policy.maxIterations
      requires offered == OfferedIn(job.policy, iteration, names)
      modifies this
      ensures Valid() && nextChain == old(nextChain) && clock == old(clock) + 1
      ensures reply == surroundings.reply(old(clock), offered)
      ensures var r := RequestOf(surroundings, job, iteration, names, messages, old(clock));
              r.chain in old(chains) && Now() == Logged(old(Now()), r, CurrentTurn(messages))
      ensures Spares(old(Now()), Now(), {job.chain}, job.place) && IsRunning(Now(), job, iteration, messages)
      ensures IsSentAt(log, job.place)
    {
      hide IsGood, Spares, IsConversation, CurrentTurn, IsReached, IsSentAt, OfferedIn;
      ghost var r := RequestOf(surroundings, job, iteration, names, messages, clock);
      RequestIsGood(Now(), surroundings, job, iteration, names, messages, clock, last);
      log := log + [r];
      chains := chains[job.chain := chains[job.chain].(last := iteration, turn := CurrentTurn(messages))];
      reply := surroundings.reply(clock, offered);
      clock := clock + 1;
      SentIsSentAt(old(log), r);
    }

    /** One tool call of a reply: its exchange is appended, or the run halts on it. */
    method HandleCall(session: string, ghost job: Job, policy: Policy, chain: nat, iteration: nat, depth: nat,
                      messages: seq<Message>, call: ToolCall, names: ToolNames)
      returns (r: seq<Message>, halt: Option<Outcome>)
      requires Valid() && IsRunning(Now(), job, iteration, messages) && IsSentAt(log, job.place)
      requires job.chain == chain && job.policy == policy && job.place.depth == depth
      requires iteration < policy.maxIterations && (names.teammates != {} ==> depth > 0)
      modifies this
      ensures Valid() && agents == old(agents) && clock > old(clock) && Spares(old(Now()), Now(), {chain}, job.place)
      ensures IsHandled(surroundings, old(clock), call, names, messages, r, halt, old(Now()), Now(), clock, job, session,
                        iteration)
      ensures halt.None? ==> IsRunning(Now(), job, iteration, r) && IsAnswered(messages, r, call)
      ensures halt.Some? ==>
                IsHaltedAt(surroundings, old(clock), clock, messages, r, [call], 0, halt.value, pending, job, session, iteration)
      ensures IsAt(Now(), chain, iteration)
      ensures KeptElsewhere(old(histories), histories, session)
      ensures Deepens(surroundings, agents, names, policy, depth, iteration) && call == NestingCall(names) ==>
                (depth == 0 ==> halt.Some?) && Waits(Now(), old(nextConfirmation), job.place.rank + depth, session)
      decreases depth, 2
    {
      hide IsGood, Spares, IsConversation, CurrentTurn, IsRunning, IsAnswered, IsReached, IsSentAt, IsNesting, Waits,
           Deepens, NestingCall, Suspends, IsTask, RemovePrefix, CallName, LocalAnswer, IsHaltedAt, IsDelegated, IsGuarded,
           Exchange, KeptElsewhere, IsHandled;
      halt := None;
      RunningIsAt(Now(), job, iteration, messages);
      SparesItself(Now(), {chain}, job.place);
      KeptItself(histories, session);
      if Deepens(surroundings, agents, names, policy, depth, iteration) {
        NestingTool(surroundings, agents, names, policy, depth, iteration, clock);
      }
      var c := surroundings.tool(clock);
      clock := clock + 1;
      var answer := LocalAnswer(call, names, c);
      LocalAnswerIs(call, names, c);
      if answer.Some? {
        r := Append(messages, call, answer.value.0, answer.value.1, job, iteration);
        IsAnsweredBy(messages, call, answer.value.0, answer.value.1, call);
        LocalIsHandled(surroundings, old(clock), call, names, messages, Now(), clock, job, session, iteration);
        return;
      }
      if call.name.value in names.teammates {
        ghost var content, isError;
        r, content, isError := HandleDelegation(session, job, depth, iteration, messages, call, c.task);
        RunningIsAt(Now(), job, iteration, r);
        DelegationIsHandled(surroundings, old(clock), call, names, messages, r, old(Now()), Now(), clock, job, session,
                            iteration, content, isError);
        return;
      }
      r, halt := HandleMcpCall(session, job, policy, chain, iteration, messages, call, c, clock - 1);
      GuardedIsHandled(surroundings, old(clock), call, names, messages, r, halt, old(Now()), Now(), clock, job, session,
                       iteration);
    }

    /** A delegation answers its call, and leaves the delegating chain running. */
    method HandleDelegation(session: string, ghost job: Job, depth: nat, ghost iteration: nat,
                            messages: seq<Message>, call: ToolCall, task: Option<string>)
      returns (r: seq<Message>, ghost content: string, ghost isError: bool)
      requires Valid() && IsRunning(Now(), job, iteration, messages) && IsSentAt(log, job.place)
      requires depth > 0 && job.place.depth == depth
      modifies this
      ensures Valid() && agents == old(agents) && clock >= old(clock) && Spares(old(Now()), Now(), {job.chain}, job.place)
      ensures IsDelegated(surroundings, old(Now()), old(clock), session, call, task, Below(job.place), Now(), clock,
                          content, isError)
      ensures r == messages + Exchange(call, content, isError)
      ensures IsRunning(Now(), job, iteration, r) && IsAnswered(messages, r, call)
      ensures KeptElsewhere(old(histories), histories, session)
      ensures IsNesting(surroundings, agents) && IsTask(task) && RemovePrefix(CallName(call)) in agents ==>
                Waits(Now(), old(nextConfirmation), job.place.rank + depth, session)
      decreases depth, 1
    {
      hide IsGood, Spares, IsConversation, CurrentTurn, IsRunning, IsAnswered, IsReached, IsSentAt, IsNesting, Waits,
           IsTask, RemovePrefix, IsDelegated, Exchange, KeptElsewhere;
      DelegationReaches(log, job.place);
      var text, failed := DelegateToTeammate(session, call, task, Below(job.place), depth);
      content, isError := text, failed;
      OthersLeaveRunning(old(Now()), Now(), job, iteration, messages, Below(job.place));
      RunningIsKnown(old(Now()), job, iteration, messages);
      SparesMore(old(Now()), Now(), job);
      r := Append(messages, call, text, failed, job, iteration);
      IsAnsweredBy(messages, call, text, failed, call);
    }

    method Append(messages: seq<Message>, call: ToolCall, content: string, isError: bool, ghost job: Job, ghost iteration: int)
      returns (r: seq<Message>)
      requires IsRunning(Now(), job, iteration, messages)
      ensures r == messages + Exchange(call, content, isError)
      ensures IsRunning(Now(), job, iteration, r) && CurrentTurn(r) == CurrentTurn(messages) + Exchange(call, content, isError)
    {
      hide CurrentTurn, IsConversation, IsReached;
      ExchangeKeepsConversation(messages, call, content, isError);
      r := messages + [AssistantToolMessage(call)];
      r := r + [ToolMessage(call, content, isError)];
      assert r == messages + Exchange(call, content, isError);
      LongerTurnRuns(Now(), job, iteration, messages, r);
    }

    /** Hooks first; then the tool either waits for a confirmation or is executed. */
    method HandleMcpCall(session: string, ghost job: Job, policy: Policy, chain: nat, iteration: nat,
                         messages: seq<Message>, asked: ToolCall, c: ToolCase, ghost at: nat)
      returns (r: seq<Message>, halt: Option<Outcome>)
      requires Valid() && IsRunning(Now(), job, iteration, messages) && c == surroundings.tool(at) && at < clock
      requires job.chain == chain && job.policy == policy && iteration < policy.maxIterations
      modifies `pending, `nextConfirmation
      ensures Valid() && Spares(old(Now()), Now(), {chain}, job.place)
      ensures IsGuarded(c, asked, messages, r, halt, old(Now()), Now(), job, session, iteration)
      ensures halt.None? ==> IsRunning(Now(), job, iteration, r) && IsAnswered(messages, r, asked)
      ensures halt.Some? ==>
                IsHaltedAt(surroundings, at, clock, messages, r, [asked], 0, halt.value, pending, job, session, iteration)
      ensures Suspends(c) && iteration == 0 ==> halt.Some? && Waits(Now(), old(nextConfirmation), job.place.rank, session)
    {
      hide IsGood, Spares, IsConversation, CurrentTurn, IsRunning, IsAnswered, IsReached, Waits, Exchange, IsHaltedAt,
           IsGuarded, Refusal, Suspends, Updated, CallName;
      SparesItself(Now(), {chain}, job.place);
      halt := None;
      SuspendsIs(c, asked);
      UpdatedIs(asked, c.updatedInput);
      if c.raises {
        RaisingIsGuarded(c, asked, messages, Now(), job, session, iteration);
        RaisingHalts(surroundings, at, clock, messages, asked, pending, job, session, iteration);
        return messages, Some(Failed);
      }
      var refusal := Refusal(c, asked);
      if refusal.Some? {
        var (refused, reason) := refusal.value;
        RefusalIs(c, asked);
        r := Append(messages, refused, reason, true, job, iteration);
        IsAnsweredBy(messages, refused, reason, true, asked);
        RefusalIsGuarded(c, asked, messages, Now(), job, session, iteration);
        return;
      }
      var call := Updated(asked, c.updatedInput);
      if c.needsConfirmation {
        var suspension := Pending(chain, session, policy, messages, call, iteration);
        SuspensionIsGood(Now(), job, suspension);
        if iteration == 0 {
          SuspensionWaits(Now(), job, suspension);
        }
        pending := pending[nextConfirmation := suspension];
        halt := if c.isStored then Some(AwaitingConfirmation(nextConfirmation)) else Some(Failed);
        SuspensionHalts(surroundings, at, clock, messages, asked, pending, nextConfirmation, job, session, iteration);
        nextConfirmation := nextConfirmation + 1;
        SuspensionIsGuarded(c, asked, messages, old(Now()), job, session, iteration);
        r := messages;
        return;
      }
      var content := ResultText(c.resultIsBlocked, c.reason, c.content);
      var isError := c.resultIsBlocked || c.isError;
      r := Append(messages, call, content, isError, job, iteration);
      assert IsConversation(r) by { RunningIsConversation(Now(), job, iteration, r); }
      InjectionKeepsConversation(r, c.context);
      LongerTurnRuns(Now(), job, iteration, r, InjectHookContext(r, c.context));
      r := InjectHookContext(r, c.context);
      IsAnsweredWith(messages, call, content, isError, c.context, asked);
      ExecutionIsGuarded(c, asked, messages, Now(), job, session, iteration);
    }

    /** All calls of one reply, in order, up to the first that the run halts on. */
    method HandleCalls(session: string, ghost job: Job, policy: Policy, chain: nat, iteration: nat, depth: nat,
                       messages: seq<Message>, calls: seq<ToolCall>, names: ToolNames)
      returns (r: seq<Message>, halt: Option<Outcome>)
      requires Valid() && IsRunning(Now(), job, iteration, messages) && IsSentAt(log, job.place)
      requires job.chain == chain && job.policy == policy && job.place.depth == depth
      requires iteration < policy.maxIterations && (names.teammates != {} ==> depth > 0)
      modifies this
      ensures Valid() && agents == old(agents) && clock >= old(clock) && Spares(old(Now()), Now(), {chain}, job.place)
      ensures halt.None? ==> IsRunning(Now(), job, iteration, r) && AreAllAnswered(messages, r, calls)
      ensures halt.Some? ==>
                exists k :: IsHaltedAt(surroundings, old(clock), clock, messages, r, calls, k, halt.value, pending, job,
                                       session, iteration)
      ensures IsAt(Now(), chain, iteration) && KeptElsewhere(old(histories), histories, session)
      ensures Deepens(surroundings, agents, names, policy, depth, iteration) && calls == [NestingCall(names)] ==>
                (depth == 0 ==> halt.Some?) && Waits(Now(), old(nextConfirmation), job.place.rank + depth, session)
      decreases depth, 3
    {
      hide IsGood, Spares, IsConversation, CurrentTurn, IsRunning, IsAnswered, IsReached, IsSentAt, Deepens, Waits, IsHandled,
           IsHaltedAt, KeptElsewhere, AreAllAnswered, IsAt;
      r, halt := messages, None;
      RunningIsAt(Now(), job, iteration, messages);
      SparesItself(Now(), {chain}, job.place);
      KeptItself(histories, session);
      assert AreAllAnswered(messages, r, calls[..0]) by { NoneToAnswer(messages); }
      for i := 0 to |calls|
        invariant Valid() && agents == old(agents) && clock >= old(clock) && Spares(old(Now()), Now(), {chain}, job.place)
        invariant IsRunning(Now(), job, iteration, r) && IsSentAt(log, job.place)
        invariant AreAllAnswered(messages, r, calls[..i]) && KeptElsewhere(old(histories), histories, session)
        invariant IsAt(Now(), chain, iteration)
        invariant halt.None? && (i == 0 ==> Now() == old(Now()))
        invariant i > 0 && (Deepens(surroundings, agents, names, policy, depth, iteration) && calls == [NestingCall(names)]) ==>
                    depth > 0 && Waits(Now(), old(nextConfirmation), job.place.rank + depth, session)
      {
        ghost var before, since, list := Now(), clock, r;
        r, halt := HandleCall(session, job, policy, chain, iteration, depth, r, calls[i], names);
        SparesIsTransitive(old(Now()), before, Now(), {chain}, job.place);
        LogIsKept(before, Now(), {chain}, job.place);
        KeptIsTransitive(old(histories), before.histories, histories, session);
        ReachedStaysReached(before.log, log, job.place);
        if halt.Some? {
          HaltedBehind(surroundings, old(clock), since, clock, messages, list, r, calls, i, halt.value, pending, job,
                       session, iteration);
          return;
        }
        OneMoreAnswered(messages, list, r, calls, i);
      }
      assert calls[..|calls|] == calls;
    }

    /** One round of the loop: compact, ask the model, and handle its calls, unless it is done. */
    method RunRound(session: string, ghost job: Job, policy: Policy, chain: nat, iteration: nat, depth: nat,
                    given: seq<Message>, names: ToolNames, ghost last: int)
      returns (messages: seq<Message>, done: Option<Outcome>)
      requires Valid() && IsRunning(Now(), job, last, given)
      requires job.chain == chain && job.policy == policy && job.place.depth == depth
      requires last < iteration <= policy.maxIterations && (names.teammates != {} ==> depth > 0)
      modifies this
      ensures Valid() && agents == old(agents) && clock >= old(clock) && Spares(old(Now()), Now(), {chain}, job.place)
      ensures |log| > |old(log)| && log[|old(log)|] == SentIn(surroundings, job, iteration, names, given, old(clock))
      ensures IsLatest(log, |old(log)|, chain)
      ensures IsRound(surroundings, old(clock), clock, log[|old(log)|], messages, done, pending, job, session)
      ensures done.None? ==>
                iteration < policy.maxIterations && IsRunning(Now(), job, iteration, messages)
                && CurrentTurn(given) <= CurrentTurn(messages)
      ensures done.Some? ==>
                IsEnd(surroundings, log, |old(log)|, pending, chain, CurrentTurn(given), old(clock), clock, done.value)
      ensures KeptElsewhere(old(histories), histories, session)
      ensures Deepens(surroundings, agents, names, policy, depth, iteration) ==>
                if iteration < policy.maxIterations then
                  (depth == 0 ==> done.Some?) && Waits(Now(), old(nextConfirmation), job.place.rank + depth, session)
                else AllWait(Now(), old(nextConfirmation), job.place.rank + depth, session)
      decreases depth, 4
    {
      hide IsGood, Spares, IsConversation, CurrentTurn, IsRunning, IsAnswered, IsReached, IsSentAt, Deepens,
           Waits, AllWait, NestingCall, MaybeCompact, IsEnd, IsRound, KeptElsewhere, AreAllAnswered, IsHaltedAt, IsAt, IsLatest;
      done := None;
      KeptItself(histories, session);
      var candidate := surroundings.compact(clock);
      clock := clock + 1;
      RunningIsConversation(Now(), job, last, given);
      CompactionKeepsConversation(surroundings.size, given, surroundings.threshold, candidate);
      messages := MaybeCompactMessages(surroundings.size, given, surroundings.threshold, candidate);
      LongerTurnRuns(Now(), job, last, given, messages);
      var offered := OfferedIn(policy, iteration, names);
      var reply := ExecuteModel(job, iteration, messages, names, offered, last);
      ghost var asked, sent := Now(), SentIn(surroundings, job, iteration, names, given, old(clock));
      assert asked.log[|old(log)|] == sent;
      NothingNewWaits(Now(), job.place.rank + depth, session);
      RunningIsAt(Now(), job, iteration, messages);
      LatestIsAt(Now(), |old(log)|, chain);
      if Deepens(surroundings, agents, names, policy, depth, iteration) && iteration < policy.maxIterations {
        NestingReply(surroundings, agents, names, policy, depth, iteration, clock - 1);
      }
      if reply.None? || reply.value.calls == [] || iteration >= policy.maxIterations {
        done := if reply.None? then Some(Failed) else Some(Completed(messages, Message(Assistant, reply.value.parts)));
        RoundIsOver(surroundings, old(clock), clock, log, |old(log)|, messages, done.value, pending, job, session,
                    CurrentTurn(given));
        return;
      }
      messages, done := HandleCalls(session, job, policy, chain, iteration, depth, messages, reply.value.calls, names);
      SparesIsTransitive(old(Now()), asked, Now(), {chain}, job.place);
      LogIsKept(asked, Now(), {chain}, job.place);
      assert log[|old(log)|] == sent;
      LatestIsAt(Now(), |old(log)|, chain);
      CallsEndRound(surroundings, old(clock), asked.log, clock, log, |old(log)|, messages, done, pending, job, session,
                    CurrentTurn(given), old(clock) + 2);
    }

    /**
     `_run_loop`: at most one request per remaining iteration, the last one
     without tools.  The error after the loop is never reached.
     */
    method RunLoop(session: string, ghost job: Job, policy: Policy, chain: nat, start: nat, depth: nat,
                   given: seq<Message>, names: ToolNames, ghost last: int)
      returns (outcome: Outcome)
      requires Valid() && IsRunning(Now(), job, last, given)
      requires job.chain == chain && job.policy == policy && job.place.depth == depth
      requires last < start <= policy.maxIterations && (names.teammates != {} ==> depth > 0)
      modifies this
      ensures Valid() && agents == old(agents) && clock >= old(clock) && Spares(old(Now()), Now(), {chain}, job.place)
      ensures |log| > |old(log)| && log[|old(log)|] == SentIn(surroundings, job, start, names, given, old(clock))
      ensures Unfolds(surroundings, job, names, log, |old(log)|)
      ensures IsEnd(surroundings, log, |old(log)|, pending, chain, CurrentTurn(given), old(clock), clock, outcome)
      ensures KeptElsewhere(old(histories), histories, session)
      ensures Deepens(surroundings, agents, names, policy, depth, start) && start < policy.maxIterations ==>
                Waits(Now(), old(nextConfirmation), job.place.rank + depth, session)
      decreases depth, 5
    {
      hide IsGood, Spares, IsConversation, CurrentTurn, IsRunning, IsReached, Deepens, Waits, AllWait, IsEnd, SentIn, IsRound,
           KeptElsewhere, Unfolds, IsLatest, IsOpen, Valid;
      var messages := given;
      ghost var latest: int, latestAt: nat := last, |log|;
      ghost var deepens := Deepens(surroundings, agents, names, policy, depth, start) && start < policy.maxIterations;
      ghost var rank := job.place.rank + depth;
      SparesItself(Now(), {chain}, job.place);
      KeptItself(histories, session);
      for iteration := start to policy.maxIterations + 1
        invariant iteration <= policy.maxIterations && latest < iteration
        invariant Valid() && agents == old(agents) && clock >= old(clock) && Spares(old(Now()), Now(), {chain}, job.place)
        invariant IsRunning(Now(), job, latest, messages)
        invariant CurrentTurn(given) <= CurrentTurn(messages) && KeptElsewhere(old(histories), histories, session)
        invariant if iteration == start then Now() == old(Now()) && messages == given && clock == old(clock)
                  else
                    && |log| > |old(log)| && log[|old(log)|] == SentIn(surroundings, job, start, names, given, old(clock))
                    && Unfolds(surroundings, job, names, log, |old(log)|)
                    && |old(log)| <= latestAt && IsOpen(log, latestAt, chain, iteration, messages)
        invariant deepens && iteration > start ==> depth > 0 && Waits(Now(), old(nextConfirmation), rank, session)
      {
        ghost var before, since, round := Now(), clock, messages;
        if deepens {
          DeepensLater(surroundings, agents, names, policy, depth, start, iteration);
        }
        var done: Option<Outcome>;
        messages, done := RunRound(session, job, policy, chain, iteration, depth, messages, names, latest);
        SparesIsTransitive(old(Now()), before, Now(), {chain}, job.place);
        LogIsKept(old(Now()), before, {chain}, job.place);
        LogIsKept(before, Now(), {chain}, job.place);
        KeptIsTransitive(old(histories), before.histories, histories, session);
        if deepens && iteration > start {
          WaitsOn(before, Now(), job, latest, round, old(nextConfirmation), rank, session);
        }
        latest := iteration;
        if done.Some? {
          EndOfLonger(surroundings, log, |old(log)|, |before.log|, pending, chain, CurrentTurn(given), CurrentTurn(round),
                      old(clock), since, clock, done.value);
        }
        LoopUnfolds(surroundings, job, names, before.log, log, |old(log)|, latestAt, start, iteration, round, since);
        if done.Some? {
          return done.value;
        }
        latestAt := |before.log|;
        RoundIsOpen(surroundings, since, clock, log, latestAt, messages, pending, job, session, names, iteration, round);
      }
      assert false;
      return RuntimeLoopError;
    }

    /** A run gets a correlation id of its own. */
    method BeginChain(policy: Policy, ghost place: Place, messages: seq<Message>) returns (chain: nat)
      requires Valid() && policy in agents.Values && IsConversation(messages) && IsReached(log, place)
      modifies `nextChain, `chains
      ensures Valid() && chain == old(nextChain) && chain !in old(chains)
      ensures Now() == Begun(old(Now()), Job(chain, policy, place), CurrentTurn(messages))
      ensures Spares(old(Now()), Now(), {}, place) && IsRunning(Now(), Job(chain, policy, place), -1, messages)
    {
      hide IsGood, Spares, IsConversation, CurrentTurn, IsRunning, IsReached;
      chain := nextChain;
      assert chain !in chains;
      NewChainIsGood(Now(), Job(chain, policy, place), messages);
      nextChain := nextChain + 1;
      chains := chains[chain := Chain(policy.maxIterations, place.rank, -1, CurrentTurn(messages))];
    }

    /** `_persist_history` of a completed run; when it raises, the run has failed. */
    method Save(session: string, agentId: string, ended: Outcome, ghost own: set<nat>, ghost place: Place,
                ghost since: nat, ghost rank: nat)
      returns (outcome: Outcome)
      requires Valid() && (ended.Completed? ==> IsConversation(ended.messages) && ended.response.role.Assistant?)
      modifies `clock, `histories
      ensures Valid() && clock >= old(clock) && Spares(old(Now()), Now(), own, place)
      ensures if ended.Completed? && surroundings.isSaved(old(clock)) then
                outcome == ended
                && histories == old(histories)[(session, agentId) := PersistedHistory(ended.messages, ended.response)]
              else histories == old(histories) && outcome == if ended.Completed? then Failed else ended
      ensures clock == if ended.Completed? then old(clock) + 1 else old(clock)
      ensures KeptElsewhere(old(histories), histories, session)
      ensures Waits(old(Now()), since, rank, session) ==> Waits(Now(), since, rank, session)
    {
      hide IsGood, Spares, IsConversation, PersistedHistory, Waits;
      SparesItself(Now(), own, place);
      if !ended.Completed? {
        return ended;
      }
      var isSaved := surroundings.isSaved(clock);
      clock := clock + 1;
      if !isSaved {
        return Failed;
      }
      SavingIsGood(Now(), (session, agentId), ended.messages, ended.response, own, place);
      histories := histories[(session, agentId) := PersistedHistory(ended.messages, ended.response)];
      SavedStillWaits(old(Now()), histories, since, rank, session);
      return ended;
    }

    /** `run`: one inbound message, or one delegated task when `isDelegated`. */
    method Run(session: string, agentId: string, user: seq<Part>, isDelegated: bool, ghost place: Place, depth: nat)
      returns (outcome: Outcome)
      requires Valid() && place.depth == depth && IsReached(log, place)
      modifies this
      ensures Valid() && agents == old(agents) && clock >= old(clock) && Spares(old(Now()), Now(), {}, place)
      ensures IsRun(surroundings, old(Now()), old(clock), session, agentId, user, isDelegated, place, Now(), clock, outcome)
      // something is sent exactly when the run can start
      ensures |log| > |old(log)| <==> CanStart(surroundings, agents, agentId, old(clock))
      ensures outcome != RuntimeLoopError
      ensures IsNesting(surroundings, agents) && agentId in agents ==>
                Waits(Now(), old(nextConfirmation), place.rank + depth, session)
      decreases depth, 7
    {
      hide IsGood, Spares, IsConversation, CurrentTurn, IsRunning, IsAnswered, PersistedHistory, Paired, IsReached,
           IsNesting, Waits, Pair, Permits, Deepens, TeammateTools, IsBegun, IsFinished, KeptElsewhere, Unfolds,
           StartNames;
      SparesItself(Now(), {}, place);
      KeptItself(histories, session);
      if IsNesting(surroundings, agents) && agentId in agents {
        NestingStart(surroundings, agents, agentId, clock);
      }
      if agentId !in agents || !agents[agentId].enabled {
        return Failed;
      }
      var policy := agents[agentId];
      var started := surroundings.start(clock);
      clock := clock + 1;
      if started.None? || policy.models == [] {
        return Failed;
      }
      ghost var chain := nextChain;
      outcome := Launch(session, policy, started.value, user, isDelegated, place, depth);
      FinishedHasNoLoopError(surroundings, old(Now()), chain, session, policy.id, [Message(User, user)], old(clock) + 1,
                             Now(), clock, outcome);
      BegunSends(surroundings, old(Now()), old(clock) + 1, chain, session, policy, user, isDelegated, place,
                 started.value, Now());
      assert IsRunAs(surroundings, old(Now()), old(clock), chain, session, policy, user, isDelegated, place, Now(), clock,
                     outcome);
    }

    /** The part of `run` behind the start-up. */
    method Launch(session: string, policy: Policy, started: Start, user: seq<Part>, isDelegated: bool,
                  ghost place: Place, depth: nat)
      returns (outcome: Outcome)
      requires Valid() && place.depth == depth && IsReached(log, place) && policy in agents.Values
      modifies this
      ensures Valid() && agents == old(agents) && clock >= old(clock) && Spares(old(Now()), Now(), {}, place)
      ensures IsBegun(surroundings, old(Now()), old(clock), old(nextChain), session, policy, user, isDelegated, place,
                      started, Now())
      ensures Unfolds(surroundings, Job(old(nextChain), policy, place), StartNames(old(Now()), policy, place, started), log,
                      |old(log)|)
      ensures IsFinished(surroundings, old(Now()), old(nextChain), session, policy.id, [Message(User, user)], old(clock),
                         Now(), clock, outcome)
      ensures KeptElsewhere(old(histories), histories, session)
      ensures IsNesting(surroundings, agents) && policy.allowTools && policy.maxIterations == 2
              && Permits(started.permitted, started.skills) ==>
                Waits(Now(), old(nextConfirmation), place.rank + depth, session)
      decreases depth, 6
    {
      hide IsGood, Spares, IsConversation, CurrentTurn, IsRunning, PersistedHistory, Paired, IsReached, IsNesting,
           Waits, Permits, Deepens, TeammateTools, IsEnd, FirstMessages, KeptElsewhere, SentIn, Unfolds;
      var stored := if isDelegated || (session, policy.id) !in histories then [] else histories[(session, policy.id)];
      assert Paired(stored) by { StoredIsPaired(Now(), (session, policy.id)); }
      var messages := BuildMessages(started.system, stored, user);
      messages := InjectHookContext(messages, started.context);
      messages := AppendSystemText(messages, started.catalogue);
      assert messages == FirstMessages(started.system, started.context, started.catalogue, stored, user) by {
        FirstMessagesAreBuilt(started, stored, user);
      }
      FirstMessagesAre(started.system, started.context, started.catalogue, stored, user);
      var chain := BeginChain(policy, place, messages);
      ghost var job, begun := Job(chain, policy, place), Now();
      var names := NamesFor(policy, agents, depth, started.searchable, started.skills, started.permitted);
      NoneAtNoDepth(policy, agents, depth);
      if IsNesting(surroundings, agents) && policy.allowTools && policy.maxIterations == 2
              && Permits(started.permitted, started.skills) {
        NestingDeepens(surroundings, agents, names, policy, depth, 0);
      }
      outcome := RunLoop(session, job, policy, chain, 0, depth, messages, names, -1);
      NewChainIsSpared(old(Now()), begun, Now(), job);
      LimitsStay(begun, Now(), {chain}, place, chain);
      EndHolds(surroundings, log, |old(log)|, pending, chain, [Message(User, user)], old(clock), clock, outcome);
      ghost var finished, ended, until := Now(), outcome, clock;
      outcome := Save(session, policy.id, outcome, {}, place, old(nextConfirmation), place.rank + depth);
      SparesIsTransitive(old(Now()), finished, Now(), {}, place);
      KeptIsTransitive(old(histories), finished.histories, histories, session);
      SavedIsFinished(surroundings, old(Now()), chain, session, policy.id, [Message(User, user)], old(clock), Now(), until,
                      clock, ended, outcome);
    }

    /** `_delegate_to_teammate`: a run of its own, one level deeper, whose answer becomes a tool result. */
    method DelegateToTeammate(session: string, call: ToolCall, task: Option<string>, ghost place: Place, depth: nat)
      returns (content: string, isError: bool)
      requires Valid() && depth > 0 && place.depth == depth - 1 && IsReached(log, place)
      modifies this
      ensures Valid() && agents == old(agents) && clock >= old(clock) && Spares(old(Now()), Now(), {}, place)
      ensures IsDelegated(surroundings, old(Now()), old(clock), session, call, task, place, Now(), clock, content, isError)
      ensures KeptElsewhere(old(histories), histories, session)
      ensures IsNesting(surroundings, agents) && IsTask(task) && RemovePrefix(CallName(call)) in agents ==>
                Waits(Now(), old(nextConfirmation), place.rank + place.depth, session)
      decreases depth, 0
    {
      hide IsGood, Spares, IsConversation, CurrentTurn, IsRunning, IsReached, IsNesting, Waits, RemovePrefix, CallName,
           KeptElsewhere, IsRun, IsDelegated, TeammateAnswer;
      SparesItself(Now(), {}, place);
      KeptItself(histories, session);
      var teammateId := RemovePrefix(CallName(call));
      if !task.Some? || TextUnits.Strip(task.value) == "" {
        NoTaskIsDelegated(surroundings, Now(), clock, session, call, task, place);
        return "delegation requires a non-empty task", true;
      }
      if IsNesting(surroundings, agents) && teammateId in agents {
        NestingStart(surroundings, agents, teammateId, clock);
      }
      if teammateId !in agents || !agents[teammateId].enabled {
        StrangerIsDelegated(surroundings, Now(), clock, session, call, task, place);
        return "unknown teammate Agent: " + teammateId, true;
      }
      var user := [Text(TextUnits.Strip(task.value))];
      var outcome := Run(session, teammateId, user, true, place, depth - 1);
      RunKeepsElsewhere(surroundings, old(Now()), old(clock), session, teammateId, user, true, place, Now(), clock, outcome);
      RunIsDelegated(surroundings, old(Now()), old(clock), session, call, task, place, Now(), clock, outcome);
      var answer := TeammateAnswer(teammateId, outcome);
      return answer.0, answer.1;
    }

    /**
     `confirm`: a confirmation is claimed first, whatever becomes of it.  The
     chain goes on only under an unchanged policy, one iteration further.
     */
    method Confirm(id: nat, session: string) returns (outcome: Outcome)
      requires Valid()
      modifies this
      ensures Valid() && agents == old(agents) && clock >= old(clock)
      ensures id in old(pending) ==>
                && old(pending)[id].chain in old(chains)
                && Spares(old(Now()), Now(), {old(pending)[id].chain}, ConfirmedPlace(old(Now()), id))
      ensures IsClaimed(surroundings, old(Now()), id, session, old(clock)) ==> id !in pending
      ensures !IsClaimed(surroundings, old(Now()), id, session, old(clock)) ==> Now() == old(Now()) && outcome == Failed
      ensures IsClaimed(surroundings, old(Now()), id, session, old(clock))
              && !CanGoOn(surroundings, old(Now()), id, session, old(clock)) ==>
                Now() == old(Now()).(pending := old(pending) - {id}) && outcome == Failed
      // something is sent exactly when the confirmation can go on, and what goes on is this chain
      ensures |log| > |old(log)| <==> CanGoOn(surroundings, old(Now()), id, session, old(clock))
      ensures |log| > |old(log)| ==> IsResumed(surroundings, old(Now()), old(clock), id, session, Now(), clock, outcome)
      ensures outcome != RuntimeLoopError
      ensures KeptElsewhere(old(histories), histories, session)
      ensures IsNesting(surroundings, agents) && IsWaiting(old(Now()), id, ConfirmedPlace(old(Now()), id).rank, session) ==>
                Waits(Now(), old(nextConfirmation), ConfirmedPlace(old(Now()), id).rank + DEFAULT_TEAMMATE_DEPTH, session)
    {
      hide IsGood, Spares, IsConversation, CurrentTurn, IsRunning, IsAnswered, PersistedHistory, Signature,
           IsReached, IsNesting, Waits, Pair, Permits, Deepens, TeammateTools, IsFinished, KeptElsewhere, Resumed,
           SentIn, NamesFor, Unfolds, IsResumed;
      KeptItself(histories, session);
      if id !in pending {
        return Failed;
      }
      ConfirmationReaches(Now(), id);
      ghost var place := ConfirmedPlace(Now(), id);
      TakingBack(Now(), id, place);
      if pending[id].session != session {
        SparesItself(Now(), {pending[id].chain}, place);
        return Failed;
      }
      var p := pending[id];
      ghost var nests := IsNesting(surroundings, agents) && IsWaiting(Now(), id, place.rank, session);
      if nests {
        NestingApproval(surroundings, agents, p.policy, clock);
      }
      var agentId := p.policy.id;
      var a := surroundings.approval(clock);
      clock := clock + 1;
      if !a.isClaimed {
        SparesItself(Now(), {p.chain}, place);
        return Failed;
      }
      pending := pending - {id};
      if agentId !in agents {
        return Failed;
      }
      var policy := agents[agentId];
      if !LetsGoOn(a) || !policy.enabled || Signature(policy) != Signature(p.policy) {
        return Failed;
      }
      assert policy.maxIterations == p.policy.maxIterations by { SignatureCoversLimit(policy, p.policy); }
      ghost var claimed := Now();
      TakenBackRuns(old(Now()), id, policy);
      outcome := Resume(p, policy, a, session, place, nests);
      UsedIdsStayUsed(claimed, Now(), {p.chain}, place, id);
      SparesIsTransitive(old(Now()), claimed, Now(), {p.chain}, place);
      FinishedHasNoLoopError(surroundings, claimed, p.chain, session, policy.id, CurrentTurn(Resumed(p, a)), old(clock) + 1,
                             Now(), clock, outcome);
      FinishedFrom(surroundings, claimed, old(Now()), p.chain, session, policy.id, CurrentTurn(Resumed(p, a)), old(clock) + 1,
                   Now(), clock, outcome);
      ResumedIs(surroundings, old(Now()), old(clock), id, session, Now(), clock, outcome);
    }

    /** The part of `confirm` behind the checks: the tool has run, and its chain goes on. */
    method Resume(p: Pending, policy: Policy, a: ApprovalCase, session: string, ghost place: Place, ghost nests: bool)
      returns (outcome: Outcome)
      requires Valid() && IsRunning(Now(), Job(p.chain, policy, place), p.iteration, p.messages)
      requires place.depth == DEFAULT_TEAMMATE_DEPTH && p.iteration < policy.maxIterations
      requires nests ==> IsNesting(surroundings, agents) && policy in agents.Values && policy.allowTools
                         && p.iteration + 1 < policy.maxIterations && Permits(a.permitted, a.skills)
      modifies this
      ensures Valid() && agents == old(agents) && clock >= old(clock) && Spares(old(Now()), Now(), {p.chain}, place)
      ensures |log| > |old(log)|
      ensures log[|old(log)|]
              == SentIn(surroundings, Job(p.chain, policy, place), p.iteration + 1,
                        NamesFor(policy, agents, DEFAULT_TEAMMATE_DEPTH, false, a.skills, a.permitted), Resumed(p, a), old(clock))
      ensures Unfolds(surroundings, Job(p.chain, policy, place),
                      NamesFor(policy, agents, DEFAULT_TEAMMATE_DEPTH, false, a.skills, a.permitted), log, |old(log)|)
      ensures IsFinished(surroundings, old(Now()), p.chain, session, policy.id, CurrentTurn(Resumed(p, a)), old(clock),
                         Now(), clock, outcome)
      ensures KeptElsewhere(old(histories), histories, session)
      ensures nests ==> Waits(Now(), old(nextConfirmation), place.rank + DEFAULT_TEAMMATE_DEPTH, session)
    {
      hide IsGood, Spares, IsConversation, CurrentTurn, IsRunning, IsAnswered, PersistedHistory, IsReached,
           IsNesting, Waits, Permits, Deepens, TeammateTools, IsEnd, IsFinished, KeptElsewhere, SentIn, Exchange,
           Unfolds;
      ghost var job := Job(p.chain, policy, place);
      var call := Updated(p.call, a.updatedInput);
      var messages := Append(p.messages, call, ResultText(a.resultIsBlocked, a.reason, a.content),
                             a.resultIsBlocked || a.isError, job, p.iteration);
      var names := NamesFor(policy, agents, DEFAULT_TEAMMATE_DEPTH, false, a.skills, a.permitted);
      if nests {
        NestingDeepens(surroundings, agents, names, policy, DEFAULT_TEAMMATE_DEPTH, p.iteration + 1);
      }
      NoneAtNoDepth(policy, agents, DEFAULT_TEAMMATE_DEPTH);
      outcome := RunLoop(session, job, policy, p.chain, p.iteration + 1, DEFAULT_TEAMMATE_DEPTH, messages, names,
                         p.iteration);
      EndHolds(surroundings, log, |old(log)|, pending, p.chain, CurrentTurn(messages), old(clock), clock, outcome);
      ghost var finished, ended, until := Now(), outcome, clock;
      outcome := Save(session, policy.id, outcome, {p.chain}, place, old(nextConfirmation),
                      place.rank + DEFAULT_TEAMMATE_DEPTH);
      SparesIsTransitive(old(Now()), finished, Now(), {p.chain}, place);
      KeptIsTransitive(old(histories), finished.histories, histories, session);
      SavedIsFinished(surroundings, old(Now()), p.chain, session, policy.id, CurrentTurn(messages), old(clock), Now(), until,
                      clock, ended, outcome);
    }
  }

  // ---- How the pieces fit -------------------------------------------------------------------------------

  lemma KeptItself(histories: map<(string, string), seq<Message>>, session: string)
    ensures KeptElsewhere(histories, histories, session)
  {
  }

  lemma KeptIsTransitive(a: map<(string, string), seq<Message>>, b: map<(string, string), seq<Message>>,
                         c: map<(string, string), seq<Message>>, session: string)
    requires KeptElsewhere(a, b, session) && KeptElsewhere(b, c, session)
    ensures KeptElsewhere(a, c, session)
  {
  }

  lemma RunKeepsElsewhere(s: Surroundings, before: World, at: nat, session: string, agentId: string, user: seq<Part>,
                          isDelegated: bool, place: Place, after: World, until: nat, outcome: Outcome)
    requires IsRun(s, before, at, session, agentId, user, isDelegated, place, after, until, outcome)
    ensures KeptElsewhere(before.histories, after.histories, session)
  {
    hide IsBegun, IsFinished, CanStart, Spares, KeptElsewhere;
  }

  lemma NoTaskIsDelegated(s: Surroundings, w: World, at: nat, session: string, call: ToolCall, task: Option<string>, place: Place)
    requires !IsTask(task)
    ensures IsDelegated(s, w, at, session, call, task, place, w, at, "delegation requires a non-empty task", true)
  {
    hide IsRun, IsTask, RemovePrefix, CallName;
  }

  lemma StrangerIsDelegated(s: Surroundings, w: World, at: nat, session: string, call: ToolCall, task: Option<string>,
                            place: Place)
    requires IsTask(task)
    requires RemovePrefix(CallName(call)) !in w.agents || !w.agents[RemovePrefix(CallName(call))].enabled
    ensures IsDelegated(s, w, at, session, call, task, place, w, at,
                        "unknown teammate Agent: " + RemovePrefix(CallName(call)), true)
  {
    hide IsRun, IsTask, RemovePrefix, CallName;
  }

  lemma RunIsDelegated(s: Surroundings, before: World, at: nat, session: string, call: ToolCall, task: Option<string>,
                       place: Place, after: World, until: nat, outcome: Outcome)
    requires IsTask(task)
    requires var id := RemovePrefix(CallName(call));
             && id in before.agents && before.agents[id].enabled
             && IsRun(s, before, at, session, id, [Text(TextUnits.Strip(task.value))], true, place, after, until, outcome)
    ensures var answer := TeammateAnswer(RemovePrefix(CallName(call)), outcome);
            IsDelegated(s, before, at, session, call, task, place, after, until, answer.0, answer.1)
  {
    hide IsRun, TextUnits.Strip, RemovePrefix, CallName, TeammateAnswer;
  }

  lemma IsAnsweredWith(messages: seq<Message>, call: ToolCall, content: string, isError: bool, texts: seq<string>,
                       asked: ToolCall)
    requires call.id == asked.id && CallName(call) == CallName(asked)
    ensures IsAnswered(messages, InjectHookContext(messages + Exchange(call, content, isError), texts), asked)
  {
    hide InjectHookContext, Exchange, CallName;
  }

  lemma IsAnsweredBy(messages: seq<Message>, call: ToolCall, content: string, isError: bool, asked: ToolCall)
    requires call.id == asked.id && CallName(call) == CallName(asked)
    ensures IsAnswered(messages, messages + Exchange(call, content, isError), asked)
  {
    hide Exchange, CallName;
    var grown := messages + Exchange(call, content, isError);
    assert InjectHookContext(grown, []) == grown;
    IsAnsweredWith(messages, call, content, isError, [], asked);
  }

  lemma LocalIsHandled(s: Surroundings, at: nat, call: ToolCall, names: ToolNames, messages: seq<Message>, w: World, until: nat,
                       job: Job, session: string, iteration: nat)
    requires LocalAnswer(call, names, s.tool(at)).Some?
    ensures var answer := LocalAnswer(call, names, s.tool(at)).value;
            IsHandled(s, at, call, names, messages, messages + Exchange(call, answer.0, answer.1), None, w, w, until, job,
                      session, iteration)
  {
    hide Exchange, IsGuarded, IsDelegated;
  }

  lemma DelegationIsHandled(s: Surroundings, at: nat, call: ToolCall, names: ToolNames, messages: seq<Message>, r: seq<Message>,
                            before: World, after: World, until: nat, job: Job, session: string, iteration: nat,
                            content: string, isError: bool)
    requires LocalAnswer(call, names, s.tool(at)).None? && call.name.Some? && call.name.value in names.teammates
    requires job.place.depth > 0 && r == messages + Exchange(call, content, isError)
    requires IsDelegated(s, before, at + 1, session, call, s.tool(at).task, Below(job.place), after, until, content, isError)
    ensures IsHandled(s, at, call, names, messages, r, None, before, after, until, job, session, iteration)
  {
    hide Exchange, IsGuarded, IsDelegated;
  }

  lemma GuardedIsHandled(s: Surroundings, at: nat, call: ToolCall, names: ToolNames, messages: seq<Message>, r: seq<Message>,
                         halt: Option<Outcome>, before: World, after: World, until: nat, job: Job, session: string,
                         iteration: nat)
    requires LocalAnswer(call, names, s.tool(at)).None? && call.name.Some? && call.name.value !in names.teammates
    requires IsGuarded(s.tool(at), call, messages, r, halt, before, after, job, session, iteration)
    ensures IsHandled(s, at, call, names, messages, r, halt, before, after, until, job, session, iteration)
  {
    hide Exchange, IsGuarded, IsDelegated;
  }

  lemma SuspendsIs(c: ToolCase, asked: ToolCall)
    ensures Suspends(c) ==> !c.raises && Refusal(c, asked).None? && c.needsConfirmation
  {
  }

  lemma UpdatedIs(call: ToolCall, input: Option<string>)
    ensures Updated(call, input).id == call.id && CallName(Updated(call, input)) == CallName(call)
  {
  }

  lemma RefusalIs(c: ToolCase, asked: ToolCall)
    requires Refusal(c, asked).Some?
    ensures Refusal(c, asked).value.0.id == asked.id && CallName(Refusal(c, asked).value.0) == CallName(asked)
  {
  }

  lemma RaisingIsGuarded(c: ToolCase, asked: ToolCall, messages: seq<Message>, w: World, job: Job, session: string,
                         iteration: nat)
    requires c.raises
    ensures IsGuarded(c, asked, messages, messages, Some(Failed), w, w, job, session, iteration)
  {
    hide Exchange;
  }

  lemma RefusalIsGuarded(c: ToolCase, asked: ToolCall, messages: seq<Message>, w: World, job: Job, session: string,
                         iteration: nat)
    requires !c.raises && Refusal(c, asked).Some?
    ensures var refusal := Refusal(c, asked).value;
            IsGuarded(c, asked, messages, messages + Exchange(refusal.0, refusal.1, true), None, w, w, job, session, iteration)
  {
    hide Exchange, Updated;
  }

  lemma SuspensionIsGuarded(c: ToolCase, asked: ToolCall, messages: seq<Message>, w: World, job: Job, session: string,
                            iteration: nat)
    requires !c.raises && Refusal(c, asked).None? && c.needsConfirmation
    ensures var p := Pending(job.chain, session, job.policy, messages, Updated(asked, c.updatedInput), iteration);
            var t := w.(pending := w.pending[w.issued := p], issued := w.issued + 1);
            IsGuarded(c, asked, messages, messages, Some(if c.isStored then AwaitingConfirmation(w.issued) else Failed), w, t,
                      job, session, iteration)
  {
    hide Exchange, Updated;
  }

  lemma ExecutionIsGuarded(c: ToolCase, asked: ToolCall, messages: seq<Message>, w: World, job: Job, session: string,
                           iteration: nat)
    requires !c.raises && Refusal(c, asked).None? && !c.needsConfirmation
    ensures var answer := Exchange(Updated(asked, c.updatedInput), ResultText(c.resultIsBlocked, c.reason, c.content),
                                   c.resultIsBlocked || c.isError);
            IsGuarded(c, asked, messages, InjectHookContext(messages + answer, c.context), None, w, w, job, session, iteration)
  {
    hide Exchange, Updated, InjectHookContext, ResultText;
  }

  lemma NoneToAnswer(messages: seq<Message>)
    ensures AreAllAnswered(messages, messages, [])
  {
  }

  lemma OneMoreAnswered(given: seq<Message>, list: seq<Message>, r: seq<Message>, calls: seq<ToolCall>, i: nat)
    requires i < |calls| && AreAllAnswered(given, list, calls[..i]) && IsAnswered(list, r, calls[i])
    ensures AreAllAnswered(given, r, calls[..i + 1])
  {
    hide IsAnswered;
    assert calls[..i + 1][..i] == calls[..i];
    assert AreAnsweredVia(given, list, r, calls[..i + 1]);
  }

  lemma RaisingHalts(s: Surroundings, at: nat, until: nat, messages: seq<Message>, call: ToolCall, pending: map<nat, Pending>,
                     job: Job, session: string, iteration: nat)
    requires at < until && s.tool(at).raises
    ensures IsHaltedAt(s, at, until, messages, messages, [call], 0, Failed, pending, job, session, iteration)
  {
    NoneToAnswer(messages);
    assert [call][..0] == [];
  }

  lemma SuspensionHalts(s: Surroundings, at: nat, until: nat, messages: seq<Message>, asked: ToolCall, pending: map<nat, Pending>,
                        id: nat, job: Job, session: string, iteration: nat)
    requires at < until && id in pending
    requires pending[id] == Pending(job.chain, session, job.policy, messages, Updated(asked, s.tool(at).updatedInput), iteration)
    ensures var outcome := if s.tool(at).isStored then AwaitingConfirmation(id) else Failed;
            IsHaltedAt(s, at, until, messages, messages, [asked], 0, outcome, pending, job, session, iteration)
  {
    NoneToAnswer(messages);
    assert [asked][..0] == [];
  }

  /** What halts on a call halts on it behind those answered before. */
  lemma HaltedBehind(s: Surroundings, start: nat, since: nat, until: nat, given: seq<Message>, list: seq<Message>,
                     r: seq<Message>, calls: seq<ToolCall>, i: nat, outcome: Outcome, pending: map<nat, Pending>,
                     job: Job, session: string, iteration: nat)
    requires start <= since && i < |calls| && AreAllAnswered(given, list, calls[..i])
    requires IsHaltedAt(s, since, until, list, r, [calls[i]], 0, outcome, pending, job, session, iteration)
    ensures IsHaltedAt(s, start, until, given, r, calls, i, outcome, pending, job, session, iteration)
  {
    hide CallName;
    assert [calls[i]][..0] == [];
    assert list == r;
  }

  /** One round, given the request it sent: how it ends, or what it hands on. */
  ghost predicate IsRound(s: Surroundings, since: nat, until: nat, sent: Request, messages: seq<Message>, done: Option<Outcome>,
                          pending: map<nat, Pending>, job: Job, session: string)
  {
    if sent.reply.None? then done == Some(Failed)
    else
      var reply := sent.reply.value;
      if reply.calls == [] || sent.iteration >= sent.policy.maxIterations then
        done == Some(Completed(sent.messages, Message(Assistant, reply.parts)))
      else if done.None? then AreAllAnswered(sent.messages, messages, reply.calls)
      else
        exists k :: IsHaltedAt(s, since, until, sent.messages, messages, reply.calls, k, done.value, pending, job, session,
                               sent.iteration)
  }

  /** The chain's latest request was answered call by call, and this list is the result. */
  ghost predicate IsOpen(log: seq<Request>, n: nat, chain: nat, next: nat, messages: seq<Message>)
  {
    && n < |log| && log[n].chain == chain && log[n].iteration + 1 == next && log[n].reply.Some?
    && AreAllAnswered(log[n].messages, messages, log[n].reply.value.calls)
  }

  lemma LoopUnfolds(s: Surroundings, job: Job, names: ToolNames, before: seq<Request>, log: seq<Request>, first: nat,
                    latest: nat, start: nat, iteration: nat, given: seq<Message>, at: nat)
    requires before <= log && |log| > |before| && start <= iteration
    requires log[|before|] == SentIn(s, job, iteration, names, given, at) && IsLatest(log, |before|, job.chain)
    requires iteration == start ==> first == |before|
    requires iteration > start ==> Unfolds(s, job, names, before, first) && first <= latest
                                   && IsOpen(before, latest, job.chain, iteration, given)
    ensures Unfolds(s, job, names, log, first)
  {
    hide SentIn, AreAllAnswered, Unfolds;
    if iteration == start {
      UnfoldsFromFirst(s, job, names, log, first, iteration, given, at);
    } else {
      UnfoldsFurther(s, job, names, before, log, first, latest, given, at);
    }
  }

  lemma RoundIsOpen(s: Surroundings, since: nat, until: nat, log: seq<Request>, n: nat, messages: seq<Message>,
                    pending: map<nat, Pending>, job: Job, session: string, names: ToolNames, iteration: nat,
                    given: seq<Message>)
    requires n < |log| && IsRound(s, since, until, log[n], messages, None, pending, job, session)
    requires log[n] == SentIn(s, job, iteration, names, given, since)
    ensures IsOpen(log, n, job.chain, iteration + 1, messages)
  {
    hide AreAllAnswered, MaybeCompact, OfferedIn, IsHaltedAt;
  }

  lemma RoundIsOver(s: Surroundings, since: nat, until: nat, log: seq<Request>, start: nat, messages: seq<Message>,
                    outcome: Outcome, pending: map<nat, Pending>, job: Job, session: string, turn: seq<Message>)
    requires start < |log| && IsConversation(messages) && turn <= CurrentTurn(messages)
    requires var sent := log[start];
             && sent.chain == job.chain && sent.messages == messages && sent.iteration <= sent.policy.maxIterations
             && (sent.reply.Some? ==> sent.reply.value.calls == [] || sent.iteration >= sent.policy.maxIterations)
             && outcome == (match sent.reply
                            case None => Failed
                            case Some(reply) => Completed(messages, Message(Assistant, reply.parts)))
    ensures IsRound(s, since, until, log[start], messages, Some(outcome), pending, job, session)
    ensures IsEnd(s, log, start, pending, job.chain, turn, since, until, outcome)
  {
    hide IsConversation, CurrentTurn, IsHaltedAt, ToolRaised;
    if outcome.Completed? {
      assert IsLastWord(log[start], outcome.messages, outcome.response);
    }
  }

  lemma CallsEndRound(s: Surroundings, start: nat, asked: seq<Request>, until: nat, log: seq<Request>, n: nat,
                      messages: seq<Message>, done: Option<Outcome>, pending: map<nat, Pending>, job: Job, session: string,
                      turn: seq<Message>, since: nat)
    requires n < |asked| && asked <= log && start <= since
    requires var sent := log[n];
             && sent.reply.Some? && sent.reply.value.calls != [] && sent.iteration < sent.policy.maxIterations
             && IsConversation(sent.messages) && turn <= CurrentTurn(sent.messages)
             && (done.None? ==> AreAllAnswered(sent.messages, messages, sent.reply.value.calls))
             && (done.Some? ==> exists k :: IsHaltedAt(s, since, until, sent.messages, messages, sent.reply.value.calls, k,
                                                       done.value, pending, job, session, sent.iteration))
    ensures IsRound(s, start, until, log[n], messages, done, pending, job, session)
    ensures done.None? ==> turn <= CurrentTurn(messages)
    ensures done.Some? ==> IsEnd(s, log, n, pending, job.chain, turn, start, until, done.value)
  {
    hide IsConversation, CurrentTurn, AreAllAnswered, ToolRaised;
    var sent := log[n];
    if done.None? {
      AnswersKeepConversation(sent.messages, messages, sent.reply.value.calls);
    } else {
      var k :| IsHaltedAt(s, since, until, sent.messages, messages, sent.reply.value.calls, k, done.value, pending, job,
                          session, sent.iteration);
      RaisedEarlier(s, start, since, until);
      assert IsHaltedAt(s, start, until, sent.messages, messages, sent.reply.value.calls, k, done.value, pending, job,
                        session, sent.iteration);
    }
  }

  lemma RaisedEarlier(s: Surroundings, start: nat, since: nat, until: nat)
    requires start <= since
    ensures ToolRaised(s, since, until) ==> ToolRaised(s, start, until)
  {
  }

  lemma EndOfLonger(s: Surroundings, log: seq<Request>, start: nat, later: nat, pending: map<nat, Pending>, chain: nat,
                    turn: seq<Message>, longer: seq<Message>, since: nat, from: nat, until: nat, outcome: Outcome)
    requires IsEnd(s, log, later, pending, chain, longer, from, until, outcome) && turn <= longer
    requires start <= later && since <= from
    ensures IsEnd(s, log, start, pending, chain, turn, since, until, outcome)
  {
    hide IsConversation, CurrentTurn, IsLastWord, ToolRaised;
    RaisedEarlier(s, since, from, until);
  }

  lemma EndHolds(s: Surroundings, log: seq<Request>, start: nat, pending: map<nat, Pending>, chain: nat,
                 turn: seq<Message>, since: nat, until: nat, outcome: Outcome)
    requires IsEnd(s, log, start, pending, chain, turn, since, until, outcome)
    ensures outcome.Completed? ==> IsConversation(outcome.messages) && outcome.response.role.Assistant?
  {
    hide IsConversation, CurrentTurn, IsLastWord, ToolRaised;
  }

  lemma SavedIsFinished(s: Surroundings, before: World, chain: nat, session: string, agentId: string, turn: seq<Message>,
                        since: nat, after: World, until: nat, later: nat, ended: Outcome, outcome: Outcome)
    requires IsEnd(s, after.log, |before.log|, after.pending, chain, turn, since, until, ended) && since <= until
    requires later == if ended.Completed? then until + 1 else until
    requires outcome == if ended.Completed? && !s.isSaved(until) then Failed else ended
    requires outcome.Completed? ==>
               && (session, agentId) in after.histories
               && after.histories[(session, agentId)] == PersistedHistory(outcome.messages, outcome.response)
    ensures IsFinished(s, before, chain, session, agentId, turn, since, after, later, outcome)
  {
    hide IsConversation, CurrentTurn, IsLastWord, ToolRaised, PersistedHistory;
  }

  lemma FinishedHasNoLoopError(s: Surroundings, before: World, chain: nat, session: string, agentId: string,
                               turn: seq<Message>, since: nat, after: World, until: nat, outcome: Outcome)
    requires IsFinished(s, before, chain, session, agentId, turn, since, after, until, outcome)
    ensures outcome != RuntimeLoopError
  {
    hide IsConversation, CurrentTurn, IsLastWord, ToolRaised, PersistedHistory;
  }

  lemma TakingBack(w: World, id: nat, place: Place)
    requires IsGood(w) && id in w.pending
    ensures var p, t := w.pending[id], w.(pending := w.pending - {id});
            && p.chain in w.chains && IsGood(t) && id < w.issued && p.iteration < p.policy.maxIterations
            && Spares(w, t, {p.chain}, place)
  {
    hide IsGood, Spares, IsRunning;
    ResumptionIsGood(w, id);
  }

  lemma TakenBackRuns(w: World, id: nat, policy: Policy)
    requires IsGood(w) && id in w.pending && policy in w.agents.Values && Signature(policy) == Signature(w.pending[id].policy)
    ensures var p, t := w.pending[id], w.(pending := w.pending - {id});
            IsRunning(t, Job(p.chain, policy, ConfirmedPlace(w, id)), p.iteration, p.messages)
  {
    hide IsGood, Spares, IsRunning, Signature, IsReached;
    ResumptionIsGood(w, id);
    ConfirmationReaches(w, id);
  }

  lemma ResumedIs(s: Surroundings, before: World, at: nat, id: nat, session: string, after: World, until: nat, outcome: Outcome)
    requires |after.log| > |before.log| && HasPolicyKept(before, id) && id !in after.pending
    requires var p, a, place := before.pending[id], s.approval(at), ConfirmedPlace(before, id);
             var policy := before.agents[p.policy.id];
             var names := NamesFor(policy, before.agents, DEFAULT_TEAMMATE_DEPTH, false, a.skills, a.permitted);
             && after.log[|before.log|] == SentIn(s, Job(p.chain, policy, place), p.iteration + 1, names, Resumed(p, a), at + 1)
             && Unfolds(s, Job(p.chain, policy, place), names, after.log, |before.log|)
             && IsFinished(s, before, p.chain, session, policy.id, CurrentTurn(Resumed(p, a)), at + 1, after, until, outcome)
    ensures IsResumed(s, before, at, id, session, after, until, outcome)
  {
    hide SentIn, NamesFor, Resumed, Unfolds, IsFinished, CurrentTurn, ConfirmedPlace, Signature;
  }

  lemma FinishedFrom(s: Surroundings, claimed: World, before: World, chain: nat, session: string, agentId: string,
                     turn: seq<Message>, since: nat, after: World, until: nat, outcome: Outcome)
    requires IsFinished(s, claimed, chain, session, agentId, turn, since, after, until, outcome) && claimed.log == before.log
    ensures IsFinished(s, before, chain, session, agentId, turn, since, after, until, outcome)
  {
    hide IsEnd, PersistedHistory;
  }

  lemma BegunSends(s: Surroundings, before: World, at: nat, chain: nat, session: string, policy: Policy, user: seq<Part>,
                   isDelegated: bool, place: Place, start: Start, after: World)
    requires IsBegun(s, before, at, chain, session, policy, user, isDelegated, place, start, after)
    ensures |after.log| > |before.log|
  {
    hide SentIn, FirstMessages;
  }

  lemma FirstMessagesAreBuilt(start: Start, stored: seq<Message>, user: seq<Part>)
    ensures AppendSystemText(InjectHookContext(BuildMessages(start.system, stored, user), start.context), start.catalogue)
         == FirstMessages(start.system, start.context, start.catalogue, stored, user)
  {
    hide AppendSystemText, InjectHookContext, BuildMessages;
  }

  lemma NoneAtNoDepth(policy: Policy, agents: map<string, Policy>, depth: nat)
    ensures TeammateTools(policy, agents, depth) != {} ==> depth > 0
  {
  }

  lemma LocalAnswerIs(call: ToolCall, names: ToolNames, c: ToolCase)
    ensures LocalAnswer(call, names, c).None? ==> call.name.Some?
    ensures call.name.Some? && call.name.value != "" && call.name.value != TOOL_SEARCH_TOOL_NAME ==>
              (LocalAnswer(call, names, c).None? <==>
                call.name.value in names.teammates || (call.name.value !in names.skills
                        && call.name.value in names.permitted))
  {
  }

  /** What becomes of the nesting call. */
  lemma NestingTool(s: Surroundings, agents: map<string, Policy>, names: ToolNames, policy: Policy, depth: nat,
                    iteration: nat, at: nat)
    requires Deepens(s, agents, names, policy, depth, iteration)
    ensures var call := NestingCall(names);
            && call.name.Some? && call.name.value != "" && call.name.value != TOOL_SEARCH_TOOL_NAME
            && (depth > 0 ==> call.name.value in names.teammates && RemovePrefix(CallName(call)) in agents)
            && (depth == 0 ==> call.name.value !in names.teammates + names.skills && call.name.value in names.permitted)
    ensures Suspends(s.tool(at)) && IsTask(s.tool(at).task) && IsNesting(s, agents) && (depth == 0 ==> iteration == 0)
  {
    NestingCallIs(names, policy, depth);
  }

  lemma NestingDeepens(s: Surroundings, agents: map<string, Policy>, names: ToolNames, policy: Policy, depth: nat,
                       iteration: nat)
    requires IsNesting(s, agents) && policy in agents.Values && (depth > 0 || iteration == 0)
    requires names.teammates == TeammateTools(policy, agents, depth) && Permits(names.permitted, names.skills)
    ensures Deepens(s, agents, names, policy, depth, iteration)
  {
    hide TeammateTools, Permits, Pair;
  }

  lemma DeepensLater(s: Surroundings, agents: map<string, Policy>, names: ToolNames, policy: Policy, depth: nat,
                     start: nat, later: nat)
    requires Deepens(s, agents, names, policy, depth, start) && (later == start || depth > 0)
    ensures Deepens(s, agents, names, policy, depth, later)
  {
  }

  lemma NestingReply(s: Surroundings, agents: map<string, Policy>, names: ToolNames, policy: Policy, depth: nat,
                     iteration: nat, at: nat)
    requires Deepens(s, agents, names, policy, depth, iteration)
    ensures s.reply(at, names) == Some(Reply([], [NestingCall(names)])) && policy.allowTools
  {
    PairIs(policy);
  }

  lemma NestingStart(s: Surroundings, agents: map<string, Policy>, agentId: string, at: nat)
    requires IsNesting(s, agents) && agentId in agents
    ensures CanStart(s, agents, agentId, at) && agents[agentId] in Pair().Values && agents == Pair()
    ensures agents[agentId].allowTools && agents[agentId].maxIterations == 2
    ensures Permits(s.start(at).value.permitted, s.start(at).value.skills)
  {
    PairIs(agents[agentId]);
  }

  lemma NestingApproval(s: Surroundings, agents: map<string, Policy>, policy: Policy, at: nat)
    requires IsNesting(s, agents) && policy in agents.Values
    ensures LetsGoOn(s.approval(at)) && Permits(s.approval(at).permitted, s.approval(at).skills)
    ensures agents == Pair() && policy.id in agents && agents[policy.id] == policy
    ensures policy.enabled && policy.allowTools && policy.maxIterations == 2
  {
    PairIs(policy);
  }

  lemma RunningIsKnown(w: World, job: Job, last: int, messages: seq<Message>)
    requires IsRunning(w, job, last, messages)
    ensures job.chain in w.chains
  {
  }

  lemma LogIsKept(before: World, after: World, own: set<nat>, place: Place)
    requires Spares(before, after, own, place)
    ensures before.log <= after.log && before.agents == after.agents
  {
  }

  lemma LimitsStay(before: World, after: World, own: set<nat>, place: Place, chain: nat)
    requires Spares(before, after, own, place) && chain in before.chains
    ensures chain in after.chains && after.chains[chain].limit == before.chains[chain].limit
            && after.chains[chain].rank == before.chains[chain].rank
  {
  }

  lemma UsedIdsStayUsed(before: World, after: World, own: set<nat>, place: Place, id: nat)
    requires Spares(before, after, own, place) && id !in before.pending && id < before.issued
    ensures id !in after.pending
  {
  }

  lemma SparesItself(w: World, own: set<nat>, place: Place)
    ensures Spares(w, w, own, place)
  {
  }

  lemma RunningIsConversation(w: World, job: Job, last: int, messages: seq<Message>)
    requires IsRunning(w, job, last, messages)
    ensures IsConversation(messages)
  {
  }

  lemma StoredIsPaired(w: World, key: (string, string))
    requires IsGood(w)
    ensures key in w.histories ==> Paired(w.histories[key])
    ensures Paired([])
  {
  }

  lemma SignatureCoversLimit(a: Policy, b: Policy)
    requires Signature(a) == Signature(b)
    ensures a.maxIterations == b.maxIterations && a.allowTools == b.allowTools && a.teammates == b.teammates
  {
  }

  /** A chain begun in between is new to whoever looked before. */
  lemma NewChainIsSpared(before: World, begun: World, after: World, job: Job)
    requires job.chain !in before.chains && Spares(before, begun, {}, job.place)
    requires Spares(begun, after, {job.chain}, job.place) && IsGood(before)
    ensures Spares(before, after, {}, job.place)
  {
    hide IsConversation, CurrentTurn, Paired, IsGoodLog, HasSent, IsReached, AreReached;
    forall i | |before.log| <= i < |after.log|
      ensures after.log[i].chain !in before.chains && IsPlaced(after.log[i], {}, job.place)
      ensures after.log[i].policy in before.agents.Values {
      if i < |begun.log| {
        assert after.log[i] == begun.log[i];
      }
    }
    forall id | id in before.pending ensures before.pending[id].chain != job.chain {
      assert IsGoodPending(before.pending[id], before.chains);
    }
  }
}
