/**
 Agent definitions with their channel, account and session bindings, and their
 saved form: `AgentRegistry` in `kirara_ai/agent_runtime/core.py`.
 */
module AgentRegistry {
  import opened Wrappers
  import opened AgentIdentity
  import opened AgentDefinitions
  import opened TextUnits

  const NO_BINDINGS: map<string, seq<Binding>> :=
    map["prompt" := [], "skill" := [], "memory" := [], "mcp" := [], "hook" := []]

  const SAMPLE_AGENT := Agent("agent", None, None, true, None, ["model"], {}, {}, NO_BINDINGS, {}, true, 8, [], "inherit")

  /** The Agent objects that exist. */
  type AgentDefinition = a: Agent | IsDefinition(a) witness SAMPLE_AGENT

  /** The lists handed to a resource update hold existing bindings of any type. */
  type BindingList = s: seq<Binding> | forall i :: 0 <= i < |s| ==> IsBinding(s[i])

  datatype Caller = Caller(subject: string, isCreator: bool)

  /** `RuntimePrincipal`, whose subject is stripped and bounded when it is built. */
  type Principal = c: Caller | Trimmed(c.subject) && |c.subject| <= MAX_OWNER witness Caller("a", false)

  datatype Account = Account(channel: string, adapter: string, account: string)

  datatype SessionRef = KeyRef(key: string) | ContextRef(context: ChannelContext)

  datatype State = State(
    agents: map<string, Agent>, channels: map<string, string>, accounts: map<Account, string>,
    sessions: map<string, string>, defaultId: Option<string>)

  datatype RegistryError =
    | AlreadyRegistered | UnknownAgent | AgentDisabled
    | DefaultCannotBeDisabled | DefaultCannotBeRemoved | StillBound
    | UnsupportedChannel | EmptySession
    | OwnerMismatch | OwnerAfterCreation | OwnerTransfer | SubjectNotAscii
    | Invalid(reason: DefinitionError)
    | DanglingReference | WriteFailed | DuplicateIds

  const EMPTY := State(map[], map[], map[], map[], None)
  const SUPPORTED_CHANNELS: set<string> := {"webui", "http", "onebot", "qqbot", "telegram", "wecom"}

  datatype Op =
    | Register(agent: AgentDefinition, principal: Option<Principal>)
    | Update(agent: AgentDefinition)
    | Remove(id: string)
    | SetDefault(id: string)
    | SetEnabled(id: string, enabled: bool)
    | Configure(agent: AgentDefinition, principal: Option<Principal>, channels: seq<string>, accounts: seq<Account>,
                sessions: seq<string>, isDefault: bool, create: bool)
    | BindChannel(channel: string, id: string)
    | UnbindChannel(channel: string)
    | BindAccount(account: Account, id: string)
    | UnbindAccount(account: Account)
    | BindSession(session: SessionRef, id: string)
    | UnbindSession(session: SessionRef)
    | UpdateResources(id: string, prompt: BindingList, skill: BindingList, mcp: BindingList,
                      memory: Option<BindingList>, hook: Option<BindingList>, allowlist: Option<set<string>>)

  // ---- What each operation asks for ---------------------------------------------------------------

  function Redefine(agent: Agent): Result<Agent, RegistryError>
  {
    var defined := Define(agent);
    if defined.Err? then Err(Invalid(defined.error)) else Ok(defined.value)
  }

  predicate IsAscii(s: string)
  {
    forall i :: 0 <= i < |s| ==> s[i] as int < 128
  }

  function BindCreationOwner(agent: Agent, principal: Option<Principal>): Result<Agent, RegistryError>
  {
    var isCreator := principal.Some? && principal.value.isCreator;
    if agent.owner.None? then
      if isCreator then Redefine(agent.(owner := Some(principal.value.subject))) else Ok(agent)
    else if !isCreator then Err(OwnerMismatch)
    else if !IsAscii(principal.value.subject) || !IsAscii(agent.owner.value) then Err(SubjectNotAscii)
    else if principal.value.subject != agent.owner.value then Err(OwnerMismatch)
    else Ok(agent)
  }

  function PreserveOwner(current: Agent, replacement: Agent): Result<Agent, RegistryError>
  {
    if current.owner.None? then
      if replacement.owner.Some? then Err(OwnerAfterCreation) else Ok(replacement)
    else if replacement.owner.None? then Redefine(replacement.(owner := current.owner))
    else if !IsAscii(current.owner.value) || !IsAscii(replacement.owner.value) then Err(SubjectNotAscii)
    else if current.owner.value != replacement.owner.value then Err(OwnerTransfer)
    else Ok(replacement)
  }

  function ChannelOf(text: string): string
  {
    Lower(Clean(Some(text), "unknown"))
  }

  function AccountOf(a: Account): Account
  {
    Account(ChannelOf(a.channel), Clean(Some(a.adapter), "default"), Clean(Some(a.account), "default"))
  }

  function BeforeSlash(s: string): string
  {
    if s == "" || s[0] == '/' then "" else [s[0]] + BeforeSlash(s[1..])
  }

  function RequireEnabled(s: State, id: string): Option<RegistryError>
  {
    if id !in s.agents then Some(UnknownAgent)
    else if !s.agents[id].enabled then Some(AgentDisabled)
    else None
  }

  function Without<K(==)>(m: map<K, string>, id: string): map<K, string>
  {
    map k | k in m && m[k] != id :: m[k]
  }

  function WithAll<K(==)>(m: map<K, string>, keys: set<K>, id: string): map<K, string>
  {
    map k | k in m.Keys + keys :: if k in keys then id else m[k]
  }

  predicate AreSupported(channels: seq<string>)
  {
    forall i :: 0 <= i < |channels| ==> ChannelOf(channels[i]) in SUPPORTED_CHANNELS
  }

  predicate AreSupportedAccounts(accounts: seq<Account>)
  {
    forall i :: 0 <= i < |accounts| ==> ChannelOf(accounts[i].channel) in SUPPORTED_CHANNELS
  }

  predicate AreNamed(sessions: seq<string>)
  {
    forall i :: 0 <= i < |sessions| ==> Strip(sessions[i]) != ""
  }

  predicate AreSupportedSessions(sessions: seq<string>)
  {
    forall i :: 0 <= i < |sessions| ==> ChannelOf(BeforeSlash(Strip(sessions[i]))) in SUPPORTED_CHANNELS
  }

  function ChannelKeys(channels: seq<string>): set<string>
  {
    set i | 0 <= i < |channels| :: ChannelOf(channels[i])
  }

  function AccountKeys(accounts: seq<Account>): set<Account>
  {
    set i | 0 <= i < |accounts| :: AccountOf(accounts[i])
  }

  function SessionKeys(sessions: seq<string>): set<string>
  {
    set i | 0 <= i < |sessions| :: Strip(sessions[i])
  }

  function RefKey(session: SessionRef): string
  {
    if session.KeyRef? then session.key else SessionKey(session.context)
  }

  function RefKeys(session: SessionRef): set<string>
  {
    if session.KeyRef? then {session.key} else {SessionKey(session.context), LegacySessionKey(session.context)}
  }

  function OwnerOf(s: State, agent: Agent, create: bool, principal: Option<Principal>): Result<Agent, RegistryError>
    requires create || agent.id in s.agents
  {
    if create then BindCreationOwner(agent, principal) else PreserveOwner(s.agents[agent.id], agent)
  }

  function NextConfigure(s: State, op: Op): Result<State, RegistryError>
    requires op.Configure?
  {
    var id := op.agent.id;
    if op.create && id in s.agents then Err(AlreadyRegistered)
    else if !op.create && id !in s.agents then Err(UnknownAgent)
    else
      var owned := OwnerOf(s, op.agent, op.create, op.principal);
      if owned.Err? then Err(owned.error)
      else if !AreSupported(op.channels) || !AreSupportedAccounts(op.accounts) then Err(UnsupportedChannel)
      else if !AreNamed(op.sessions) then Err(EmptySession)
      else if !AreSupportedSessions(op.sessions) then Err(UnsupportedChannel)
      else if !op.agent.enabled && (op.isDefault || op.channels != [] || op.accounts != [] || op.sessions != []) then
        Err(AgentDisabled)
      else
        Ok(State(s.agents[id := owned.value],
                 WithAll(Without(s.channels, id), ChannelKeys(op.channels), id),
                 WithAll(Without(s.accounts, id), AccountKeys(op.accounts), id),
                 WithAll(Without(s.sessions, id), SessionKeys(op.sessions), id),
                 if op.isDefault then Some(id) else if s.defaultId == Some(id) then None else s.defaultId))
  }

  function NextBind(s: State, op: Op): Result<State, RegistryError>
    requires op.BindChannel? || op.BindAccount? || op.BindSession?
  {
    if RequireEnabled(s, op.id).Some? then Err(RequireEnabled(s, op.id).value)
    else if op.BindChannel? then
      if ChannelOf(op.channel) !in SUPPORTED_CHANNELS then Err(UnsupportedChannel)
      else Ok(s.(channels := s.channels[ChannelOf(op.channel) := op.id]))
    else if op.BindAccount? then
      if ChannelOf(op.account.channel) !in SUPPORTED_CHANNELS then Err(UnsupportedChannel)
      else Ok(s.(accounts := s.accounts[AccountOf(op.account) := op.id]))
    else
      if ChannelOf(BeforeSlash(RefKey(op.session))) !in SUPPORTED_CHANNELS then Err(UnsupportedChannel)
      else Ok(s.(sessions := s.sessions[RefKey(op.session) := op.id]))
  }

  function WithResources(agent: Agent, op: Op): Agent
    requires op.UpdateResources?
  {
    var bindings := agent.bindings["prompt" := op.prompt]["skill" := op.skill]["mcp" := op.mcp];
    var bindings := if op.memory.Some? then bindings["memory" := op.memory.value] else bindings;
    var bindings := if op.hook.Some? then bindings["hook" := op.hook.value] else bindings;
    agent.(bindings := bindings, allowlist := if op.allowlist.Some? then op.allowlist.value else agent.allowlist)
  }

  function Replaced(s: State, id: string, agent: Agent): Result<State, RegistryError>
  {
    var defined := Redefine(agent);
    if defined.Err? then Err(defined.error) else Ok(s.(agents := s.agents[id := defined.value]))
  }

  predicate IsReferenced(s: State, id: string)
  {
    || (exists k :: k in s.channels && s.channels[k] == id)
    || (exists k :: k in s.accounts && s.accounts[k] == id)
    || (exists k :: k in s.sessions && s.sessions[k] == id)
  }

  /** The state an operation commits, or the exception it raises first. */
  function Next(s: State, op: Op): Result<State, RegistryError>
  {
    if op.Register? then
      if op.agent.id in s.agents then Err(AlreadyRegistered)
      else
        var owned := BindCreationOwner(op.agent, op.principal);
        if owned.Err? then Err(owned.error)
        else
          var id := owned.value.id;
          Ok(s.(agents := s.agents[id := owned.value],
                defaultId := if s.defaultId.None? && id == "default" then Some(id) else s.defaultId))
    else if op.Update? then
      if op.agent.id !in s.agents then Err(UnknownAgent)
      else
        var owned := PreserveOwner(s.agents[op.agent.id], op.agent);
        if owned.Err? then Err(owned.error) else Ok(s.(agents := s.agents[owned.value.id := owned.value]))
    else if op.Remove? then
      if op.id !in s.agents then Ok(s)
      else if s.defaultId == Some(op.id) then Err(DefaultCannotBeRemoved)
      else if IsReferenced(s, op.id) then Err(StillBound)
      else Ok(s.(agents := s.agents - {op.id}))
    else if op.SetDefault? then
      if RequireEnabled(s, op.id).Some? then Err(RequireEnabled(s, op.id).value)
      else Ok(s.(defaultId := Some(op.id)))
    else if op.SetEnabled? then
      if op.id !in s.agents then Err(UnknownAgent)
      else if !op.enabled && s.defaultId == Some(op.id) then Err(DefaultCannotBeDisabled)
      else Replaced(s, op.id, s.agents[op.id].(enabled := op.enabled))
    else if op.Configure? then NextConfigure(s, op)
    else if op.UnbindChannel? then Ok(s.(channels := s.channels - {ChannelOf(op.channel)}))
    else if op.UnbindAccount? then Ok(s.(accounts := s.accounts - {AccountOf(op.account)}))
    else if op.UnbindSession? then Ok(s.(sessions := s.sessions - RefKeys(op.session)))
    else if op.UpdateResources? then
      if op.id !in s.agents then Err(UnknownAgent)
      else Replaced(s, op.id, WithResources(s.agents[op.id], op))
    else NextBind(s, op)
  }

  // ---- Invariants of every registry -------------------------------------------------------------------

  /** What `_validate_state` checks before each write. */
  predicate IsClosed(s: State)
  {
    && (forall k :: k in s.channels ==> s.channels[k] in s.agents)
    && (forall k :: k in s.accounts ==> s.accounts[k] in s.agents)
    && (forall k :: k in s.sessions ==> s.sessions[k] in s.agents)
    && (s.defaultId.Some? ==> s.defaultId.value in s.agents)
  }

  predicate HasCleanAccount(a: Account)
  {
    IsLowerIdentifier(a.channel) && IsIdentifier(a.adapter) && IsIdentifier(a.account)
  }

  ghost predicate HasDefinitions(agents: map<string, Agent>)
  {
    forall id :: id in agents ==> agents[id].id == id && IsDefinition(agents[id])
  }

  ghost predicate HasCleanKeys(s: State)
  {
    && (forall k :: k in s.channels ==> IsLowerIdentifier(k))
    && (forall k :: k in s.accounts ==> HasCleanAccount(k))
  }

  ghost predicate IsValid(s: State)
  {
    IsClosed(s) && HasDefinitions(s.agents) && HasCleanKeys(s)
  }

  lemma KeysAreClean(channel: string, a: Account)
    ensures IsLowerIdentifier(ChannelOf(channel)) && HasCleanAccount(AccountOf(a))
    ensures IsLowerIdentifier(channel) ==> ChannelOf(channel) == channel
    ensures HasCleanAccount(a) ==> AccountOf(a) == a
  {
    hide Clean, IsIdentifier, Lower;
    IsAgentIdentifier();
    CleaningFixesIdentifiers(Some(channel), "unknown");
    CleaningFixesIdentifiers(Some(a.channel), "unknown");
    CleaningFixesIdentifiers(Some(a.adapter), "default");
    CleaningFixesIdentifiers(Some(a.account), "default");
    LowerOfIdentifier(Clean(Some(channel), "unknown"));
    LowerOfIdentifier(Clean(Some(a.channel), "unknown"));
  }

  /** An ownership check lets through the same Agent, up to its owner. */
  lemma OwnersAreChecked(current: Agent, agent: Agent, principal: Option<Principal>)
    requires IsDefinition(agent) && IsDefinition(current)
    ensures var r := BindCreationOwner(agent, principal);
            r.Ok? ==>
              && IsDefinition(r.value) && r.value == agent.(owner := r.value.owner)
              && r.value.owner == if principal.Some? && principal.value.isCreator then Some(principal.value.subject) else None
    ensures var r := PreserveOwner(current, agent);
            r.Ok? ==> IsDefinition(r.value) && r.value == agent.(owner := current.owner)
  {
    hide IsIdentifier, IsTeam, TrimmedSet, BindingsAreDefined, Trimmed, Define;
    if principal.Some? {
      OwnedIsDefined(agent, principal.value.subject);
    }
    if current.owner.Some? {
      OwnedIsDefined(agent, current.owner.value);
    }
  }

  lemma OwnedIsDefined(agent: Agent, owner: string)
    requires IsDefinition(agent) && Trimmed(owner) && |owner| <= MAX_OWNER
    ensures var owned := agent.(owner := Some(owner));
            IsDefinition(owned) && (Redefine(owned).Ok? ==> Redefine(owned).value == owned)
  {
    hide IsIdentifier, IsTeam, TrimmedSet, BindingsAreDefined, Trimmed, Define;
    DefinitionsAreFixed(agent.(owner := Some(owner)));
  }

  lemma ReplacedIsDefined(s: State, id: string, agent: Agent)
    requires IsValid(s) && id in s.agents && agent.id == id
    requires IsDefinition(agent.(allowlist := {}, bindings := s.agents[id].bindings))
    requires BindingsMatch(agent.bindings) ==> BindingsAreDefined(agent.bindings)
    ensures Replaced(s, id, agent).Ok? ==>
              && Replaced(s, id, agent).value.agents.Keys == s.agents.Keys
              && IsValid(Replaced(s, id, agent).value)
              && Replaced(s, id, agent).value.agents[id].owner == agent.owner
              && Replaced(s, id, agent).value.agents[id].enabled == agent.enabled
  {
    hide IsTeam, BindingsMatch, BindingsAreDefined, Trimmed, Clean, AsSet, AsTuple, DistinctNames, Strip, IsIdentifier;
    if Replaced(s, id, agent).Ok? {
      DefineGivesDefinitions(agent);
      CleanKeepsIdentifiers(agent.id, "agent");
      if agent.owner.Some? {
        StripKeepsTrimmed(agent.owner.value);
      }
      assert Define(agent).value.owner == agent.owner;
    }
  }

  lemma WithAllIsClosed<K>(m: map<K, string>, keys: set<K>, id: string, agents: map<string, Agent>)
    requires id in agents && forall k :: k in m ==> m[k] in agents
    ensures forall k :: k in WithAll(Without(m, id), keys, id) ==> WithAll(Without(m, id), keys, id)[k] in agents
    ensures forall k :: k in WithAll(Without(m, id), keys, id) ==> k in keys || k in m
  {
  }

  lemma ConfigureKeepsValid(s: State, op: Op)
    requires IsValid(s) && op.Configure? && NextConfigure(s, op).Ok?
    ensures IsValid(NextConfigure(s, op).value)
  {
    hide Without, WithAll, IsDefinition, BindCreationOwner, PreserveOwner, ChannelOf, AccountOf,
         IsLowerIdentifier, HasCleanAccount, AreSupported, AreSupportedAccounts, AreSupportedSessions;
    var id := op.agent.id;
    var t := NextConfigure(s, op).value;
    OwnersAreChecked(if op.create then op.agent else s.agents[id], op.agent, op.principal);
    WithAllIsClosed(s.channels, ChannelKeys(op.channels), id, t.agents);
    WithAllIsClosed(s.accounts, AccountKeys(op.accounts), id, t.agents);
    WithAllIsClosed(s.sessions, SessionKeys(op.sessions), id, t.agents);
    forall k | k in t.channels ensures IsLowerIdentifier(k) {
      if k in ChannelKeys(op.channels) {
        var i :| 0 <= i < |op.channels| && k == ChannelOf(op.channels[i]);
        KeysAreClean(op.channels[i], Account("", "", ""));
      }
    }
    forall k | k in t.accounts ensures HasCleanAccount(k) {
      if k in AccountKeys(op.accounts) {
        var i :| 0 <= i < |op.accounts| && k == AccountOf(op.accounts[i]);
        KeysAreClean("", op.accounts[i]);
      }
    }
  }

  lemma BindKeepsValid(s: State, op: Op)
    requires IsValid(s) && (op.BindChannel? || op.BindAccount? || op.BindSession?)
    requires NextBind(s, op).Ok?
    ensures IsValid(NextBind(s, op).value)
  {
    hide IsDefinition, ChannelOf, AccountOf, IsLowerIdentifier, HasCleanAccount, RefKey, BeforeSlash;
    if op.BindChannel? {
      KeysAreClean(op.channel, Account("", "", ""));
    } else if op.BindAccount? {
      KeysAreClean("", op.account);
    }
  }

  lemma ResourcesMatchAgent(agent: Agent, op: Op)
    requires IsDefinition(agent) && op.UpdateResources?
    ensures var a := WithResources(agent, op);
            && a.(allowlist := agent.allowlist, bindings := agent.bindings) == agent
            && (BindingsMatch(a.bindings) ==> BindingsAreDefined(a.bindings))
  {
    hide IsTeam, TrimmedSet, IsIdentifier, Trimmed, IsBinding;
  }

  lemma FilingKeepsValid(s: State, agent: Agent)
    requires IsValid(s) && IsDefinition(agent)
    ensures IsValid(s.(agents := s.agents[agent.id := agent]))
  {
    hide IsDefinition, IsLowerIdentifier, HasCleanAccount;
  }

  lemma UnbindingKeepsValid(s: State, channel: string, account: Account, sessions: set<string>)
    requires IsValid(s)
    ensures IsValid(s.(channels := s.channels - {channel}))
    ensures IsValid(s.(accounts := s.accounts - {account}))
    ensures IsValid(s.(sessions := s.sessions - sessions))
  {
    hide IsDefinition, IsLowerIdentifier, HasCleanAccount;
  }

  lemma DefaultKeepsValid(s: State, id: string)
    requires IsValid(s) && id in s.agents
    ensures IsValid(s.(defaultId := Some(id)))
  {
    hide IsDefinition, IsLowerIdentifier, HasCleanAccount;
  }

  lemma RemovalKeepsValid(s: State, id: string)
    requires IsValid(s) && s.defaultId != Some(id) && !IsReferenced(s, id)
    ensures IsValid(s.(agents := s.agents - {id}))
  {
    hide IsDefinition, IsLowerIdentifier, HasCleanAccount;
  }

  /**
   No operation leaves a dangling reference, an Agent filed under a foreign
   name, or an unclean key, so the check before each write never fails.
   */
  lemma NextKeepsValid(s: State, op: Op)
    requires IsValid(s) && Next(s, op).Ok?
    ensures IsValid(Next(s, op).value)
  {
    hide IsValid, BindCreationOwner, PreserveOwner, NextConfigure, NextBind, Replaced, WithResources,
         ChannelOf, AccountOf, RefKeys, IsReferenced;
    assert HasDefinitions(s.agents) by { ValidHasDefinitions(s); }
    if op.Configure? {
      ConfigureKeepsValid(s, op);
    } else if op.BindChannel? || op.BindAccount? || op.BindSession? {
      BindKeepsValid(s, op);
    } else if op.UnbindChannel? {
      UnbindingKeepsValid(s, ChannelOf(op.channel), Account("", "", ""), {});
    } else if op.UnbindAccount? {
      UnbindingKeepsValid(s, "", AccountOf(op.account), {});
    } else if op.UnbindSession? {
      UnbindingKeepsValid(s, "", Account("", "", ""), RefKeys(op.session));
    } else if op.SetDefault? {
      DefaultKeepsValid(s, op.id);
    } else if op.SetEnabled? {
      EnabledIsDefined(s, op.id, op.enabled);
    } else if op.UpdateResources? {
      ResourcesAreDefined(s, op);
    } else if op.Register? {
      OwnersAreChecked(op.agent, op.agent, op.principal);
      var agent := BindCreationOwner(op.agent, op.principal).value;
      FilingKeepsValid(s, agent);
      if s.defaultId.None? && agent.id == "default" {
        DefaultKeepsValid(s.(agents := s.agents[agent.id := agent]), agent.id);
      }
    } else if op.Update? {
      OwnersAreChecked(s.agents[op.agent.id], op.agent, None);
      FilingKeepsValid(s, PreserveOwner(s.agents[op.agent.id], op.agent).value);
    } else if op.Remove? {
      if op.id in s.agents {
        RemovalKeepsValid(s, op.id);
      }
    }
  }

  lemma ValidHasDefinitions(s: State)
    requires IsValid(s)
    ensures HasDefinitions(s.agents)
  {
  }

  lemma EnabledIsDefined(s: State, id: string, enabled: bool)
    requires IsValid(s) && id in s.agents && Replaced(s, id, s.agents[id].(enabled := enabled)).Ok?
    ensures var t := Replaced(s, id, s.agents[id].(enabled := enabled)).value;
            && IsValid(t) && t.agents.Keys == s.agents.Keys
            && t.agents[id].owner == s.agents[id].owner && t.agents[id].enabled == enabled
  {
    hide IsTeam, IsIdentifier, Trimmed, BindingsMatch, Redefine;
    ReplacedIsDefined(s, id, s.agents[id].(enabled := enabled));
  }

  lemma ResourcesAreDefined(s: State, op: Op)
    requires IsValid(s) && op.UpdateResources? && op.id in s.agents
    requires Replaced(s, op.id, WithResources(s.agents[op.id], op)).Ok?
    ensures var t := Replaced(s, op.id, WithResources(s.agents[op.id], op)).value;
            && IsValid(t) && t.agents.Keys == s.agents.Keys
            && t.agents[op.id].owner == s.agents[op.id].owner && t.agents[op.id].enabled == s.agents[op.id].enabled
  {
    hide IsTeam, IsIdentifier, Trimmed, BindingsMatch, BindingsAreDefined, Redefine, WithResources;
    ResourcesMatchAgent(s.agents[op.id], op);
    var agent := WithResources(s.agents[op.id], op);
    assert agent.(allowlist := {}, bindings := s.agents[op.id].bindings) == s.agents[op.id].(allowlist := {});
    ReplacedIsDefined(s, op.id, agent);
  }

  /** Nothing an operation does changes the owner of an Agent that stays registered. */
  lemma NextKeepsOwners(s: State, op: Op, id: string)
    requires IsValid(s) && Next(s, op).Ok? && id in s.agents && id in Next(s, op).value.agents
    ensures Next(s, op).value.agents[id].owner == s.agents[id].owner
  {
    hide IsDefinition, BindCreationOwner, PreserveOwner, NextBind, Replaced, WithResources, Without, WithAll,
         IsLowerIdentifier, HasCleanAccount, ChannelOf, AccountOf, AreSupported, AreSupportedAccounts, AreSupportedSessions;
    if op.Configure? {
      OwnersAreChecked(if op.create then op.agent else s.agents[op.agent.id], op.agent, op.principal);
    } else if op.SetEnabled? {
      EnabledIsDefined(s, op.id, op.enabled);
      OthersAreKept(s, op.id, s.agents[op.id].(enabled := op.enabled));
    } else if op.UpdateResources? {
      ResourcesAreDefined(s, op);
      OthersAreKept(s, op.id, WithResources(s.agents[op.id], op));
    } else if op.Update? {
      OwnersAreChecked(s.agents[op.agent.id], op.agent, None);
    } else if op.BindChannel? || op.BindAccount? || op.BindSession? {
      BindKeepsAgents(s, op);
    } else if op.Register? {
      OwnersAreChecked(op.agent, op.agent, op.principal);
    }
  }

  lemma OthersAreKept(s: State, id: string, agent: Agent)
    requires Replaced(s, id, agent).Ok?
    ensures Replaced(s, id, agent).value.defaultId == s.defaultId
    ensures forall other :: other in s.agents && other != id ==>
                              other in Replaced(s, id, agent).value.agents
                              && Replaced(s, id, agent).value.agents[other] == s.agents[other]
  {
  }

  lemma BindKeepsAgents(s: State, op: Op)
    requires (op.BindChannel? || op.BindAccount? || op.BindSession?) && NextBind(s, op).Ok?
    ensures NextBind(s, op).value.agents == s.agents && NextBind(s, op).value.defaultId == s.defaultId
  {
  }

  /** A new Agent belongs to the creator who registered it, or to nobody. */
  lemma CreatorsOwnTheirAgents(s: State, op: Op, id: string)
    requires IsValid(s) && Next(s, op).Ok? && id !in s.agents && id in Next(s, op).value.agents
    ensures op.Register? || op.Configure?
    ensures Next(s, op).value.agents[id].owner ==
            if op.principal.Some? && op.principal.value.isCreator then Some(op.principal.value.subject) else None
  {
    hide IsDefinition, BindCreationOwner, PreserveOwner, NextBind, Replaced, WithResources, Without, WithAll,
         IsLowerIdentifier, HasCleanAccount, ChannelOf, AccountOf, AreSupported, AreSupportedAccounts, AreSupportedSessions;
    if op.Configure? {
      OwnersAreChecked(op.agent, op.agent, op.principal);
    } else if op.SetEnabled? {
      EnabledIsDefined(s, op.id, op.enabled);
    } else if op.UpdateResources? {
      ResourcesAreDefined(s, op);
    } else if op.Update? {
      OwnersAreChecked(s.agents[op.agent.id], op.agent, None);
    } else if op.BindChannel? || op.BindAccount? || op.BindSession? {
      BindKeepsAgents(s, op);
    } else if op.Register? {
      OwnersAreChecked(op.agent, op.agent, op.principal);
    }
  }

  /** In `after` the Agent holds exactly `keys`; other holders lose what it takes and nothing else. */
  ghost predicate IsHandedOver<K(!new)>(before: map<K, string>, after: map<K, string>, keys: set<K>, id: string)
  {
    && (forall k :: (k in after && after[k] == id) <==> k in keys)
    && (forall k :: k in before && before[k] != id && k !in keys ==> k in after && after[k] == before[k])
    && (forall k :: k in after && after[k] != id ==> k in before && after[k] == before[k])
  }

  lemma ReboundIsHandedOver<K(!new)>(m: map<K, string>, keys: set<K>, id: string)
    ensures IsHandedOver(m, WithAll(Without(m, id), keys, id), keys, id)
  {
  }

  /** Configuring an Agent leaves it with exactly the relations given, and takes no other ones away. */
  lemma ConfigureReplacesRelations(s: State, op: Op)
    requires op.Configure? && Next(s, op).Ok?
    ensures var t, id := Next(s, op).value, op.agent.id;
            && IsHandedOver(s.channels, t.channels, ChannelKeys(op.channels), id)
            && IsHandedOver(s.accounts, t.accounts, AccountKeys(op.accounts), id)
            && IsHandedOver(s.sessions, t.sessions, SessionKeys(op.sessions), id)
            && (t.defaultId == Some(id) <==> op.isDefault)
            && (!op.isDefault && s.defaultId != Some(id) ==> t.defaultId == s.defaultId)
            && t.agents.Keys == s.agents.Keys + {id}
            && forall other :: other in s.agents && other != id ==> t.agents[other] == s.agents[other]
  {
    hide BindCreationOwner, PreserveOwner, AreSupported, AreSupportedAccounts, AreSupportedSessions, AreNamed,
         ChannelKeys, AccountKeys, SessionKeys, Without, WithAll, IsHandedOver;
    ReboundIsHandedOver(s.channels, ChannelKeys(op.channels), op.agent.id);
    ReboundIsHandedOver(s.accounts, AccountKeys(op.accounts), op.agent.id);
    ReboundIsHandedOver(s.sessions, SessionKeys(op.sessions), op.agent.id);
  }

  // ---- The default Agent -------------------------------------------------------------------------------

  ghost predicate HasEnabledDefault(s: State)
  {
    s.defaultId.Some? ==> s.defaultId.value in s.agents && s.agents[s.defaultId.value].enabled
  }

  /** The two operations that do not ask whether the default Agent stays enabled. */
  predicate LeavesDefaultDisabled(s: State, op: Op)
  {
    || (op.Update? && !op.agent.enabled && s.defaultId == Some(op.agent.id))
    || (op.Register? && !op.agent.enabled && s.defaultId.None? && op.agent.id == "default")
  }

  /**
   `set_enabled` refuses to disable the default Agent, yet the promise does not
   hold of the registry: it is broken by exactly two operations.
   */
  lemma DefaultStaysEnabledIff(s: State, op: Op)
    requires IsValid(s) && HasEnabledDefault(s) && Next(s, op).Ok?
    ensures HasEnabledDefault(Next(s, op).value) <==> !LeavesDefaultDisabled(s, op)
  {
    hide IsDefinition, BindCreationOwner, PreserveOwner, NextBind, Replaced, WithResources, Without, WithAll,
         IsLowerIdentifier, HasCleanAccount, ChannelOf, AccountOf, AreSupported, AreSupportedAccounts, AreSupportedSessions;
    if op.Configure? {
      OwnersAreChecked(if op.create then op.agent else s.agents[op.agent.id], op.agent, op.principal);
    } else if op.SetEnabled? {
      OthersAreKept(s, op.id, s.agents[op.id].(enabled := op.enabled));
      EnabledIsDefined(s, op.id, op.enabled);
    } else if op.UpdateResources? {
      OthersAreKept(s, op.id, WithResources(s.agents[op.id], op));
      ResourcesAreDefined(s, op);
    } else if op.Update? {
      OwnersAreChecked(s.agents[op.agent.id], op.agent, None);
    } else if op.BindChannel? || op.BindAccount? || op.BindSession? {
      BindKeepsAgents(s, op);
    } else if op.Register? {
      OwnersAreChecked(op.agent, op.agent, op.principal);
    }
  }

  lemma DefaultCanBeDisabled()
    ensures var agent := SAMPLE_AGENT.(id := "default");
            && IsDefinition(agent)
            && var s := Next(EMPTY, Register(agent, None));
            && s.Ok? && IsValid(s.value) && HasEnabledDefault(s.value)
            && var t := Next(s.value, Update(agent.(enabled := false)));
            && t.Ok? && t.value.defaultId == Some("default") && !t.value.agents["default"].enabled
  {
  }

  // ---- Whole runs -----------------------------------------------------------------------------------------

  /** A refused operation changes nothing. */
  function After(s: State, op: Op): State
  {
    if Next(s, op).Ok? then Next(s, op).value else s
  }

  ghost function Run(s: State, ops: seq<Op>): State
  {
    if ops == [] then s else After(Run(s, ops[..|ops| - 1]), ops[|ops| - 1])
  }

  /** From the empty registry, or any loaded one, every reachable state is valid. */
  lemma {:induction false} RunsStayValid(s: State, ops: seq<Op>)
    requires IsValid(s)
    ensures IsValid(Run(s, ops))
    decreases |ops|
  {
    hide Next, IsValid;
    if ops != [] {
      var n := |ops| - 1;
      RunsStayValid(s, ops[..n]);
      if Next(Run(s, ops[..n]), ops[n]).Ok? {
        NextKeepsValid(Run(s, ops[..n]), ops[n]);
      }
    }
  }

  lemma {:induction false} OwnersAreForLife(s: State, ops: seq<Op>, id: string)
    requires IsValid(s)
    requires forall n :: 0 <= n <= |ops| ==> id in Run(s, ops[..n]).agents
    ensures id in s.agents && id in Run(s, ops).agents
    ensures Run(s, ops).agents[id].owner == s.agents[id].owner
    decreases |ops|
  {
    hide Next, IsValid;
    assert ops[..|ops|] == ops && ops[..0] == [];
    assert id in Run(s, ops[..0]).agents;
    if ops != [] {
      var n := |ops| - 1;
      var before := ops[..n];
      forall k | 0 <= k <= |before| ensures id in Run(s, before[..k]).agents {
        assert before[..k] == ops[..k];
      }
      OwnersAreForLife(s, before, id);
      RunsStayValid(s, before);
      assert id in Run(s, ops[..|ops|]).agents;
      if Next(Run(s, before), ops[n]).Ok? {
        NextKeepsOwners(Run(s, before), ops[n], id);
      }
    }
  }

  // ---- The saved form ----------------------------------------------------------------------------------------

  /** `registry.json`: lists of Agents and bindings. */
  datatype Document = Document(
    agents: seq<Agent>, defaultId: Option<string>,
    channels: seq<(string, string)>, accounts: seq<(Account, string)>, sessions: seq<(string, string)>)

  /** The list holds every entry of the dictionary once, in some order. */
  ghost predicate Lists<K(!new), V>(m: map<K, V>, items: seq<(K, V)>)
  {
    && (forall i :: 0 <= i < |items| ==> items[i].0 in m && m[items[i].0] == items[i].1)
    && (forall i, j :: 0 <= i < j < |items| ==> items[i].0 != items[j].0)
    && (forall k :: k in m ==> exists i :: 0 <= i < |items| && items[i].0 == k)
  }

  /** Distinct Agents, each as the registry holds it. */
  ghost predicate ListsSome(agents: map<string, Agent>, items: seq<Agent>)
  {
    && (forall i :: 0 <= i < |items| ==> items[i].id in agents && agents[items[i].id] == items[i])
    && (forall i, j :: 0 <= i < j < |items| ==> items[i].id != items[j].id)
  }

  ghost predicate ListsAgents(agents: map<string, Agent>, items: seq<Agent>)
  {
    && ListsSome(agents, items)
    && forall id :: id in agents ==> exists i :: 0 <= i < |items| && items[i].id == id
  }

  ghost predicate IsSaved(doc: Document, s: State)
  {
    && ListsAgents(s.agents, doc.agents) && doc.defaultId == s.defaultId
    && Lists(s.channels, doc.channels) && Lists(s.accounts, doc.accounts) && Lists(s.sessions, doc.sessions)
  }

  method Items<K(==,!new), V>(m: map<K, V>) returns (items: seq<(K, V)>)
    ensures Lists(m, items)
  {
    items := [];
    var todo := m.Keys;
    while todo != {}
      invariant todo <= m.Keys
      invariant forall i :: 0 <= i < |items| ==> items[i].0 in m && items[i].0 !in todo && m[items[i].0] == items[i].1
      invariant forall i, j :: 0 <= i < j < |items| ==> items[i].0 != items[j].0
      invariant forall k :: k in m && k !in todo ==> exists i :: 0 <= i < |items| && items[i].0 == k
      decreases |todo|
    {
      var k :| k in todo;
      ghost var before := items;
      items := items + [(k, m[k])];
      todo := todo - {k};
      assert items[|before|].0 == k;
      forall other | other in m && other !in todo ensures exists i :: 0 <= i < |items| && items[i].0 == other {
        if other != k {
          var i :| 0 <= i < |before| && before[i].0 == other;
          assert items[i].0 == other;
        }
      }
    }
  }

  method SerializeState(s: State) returns (doc: Document)
    requires HasDefinitions(s.agents)
    ensures IsSaved(doc, s)
  {
    hide IsDefinition;
    var entries := Items(s.agents);
    var agents := seq(|entries|, i requires 0 <= i < |entries| => entries[i].1);
    var channels := Items(s.channels);
    var accounts := Items(s.accounts);
    var sessions := Items(s.sessions);
    doc := Document(agents, s.defaultId, channels, accounts, sessions);
    forall id | id in s.agents ensures exists i :: 0 <= i < |agents| && agents[i].id == id {
      var i :| 0 <= i < |entries| && entries[i].0 == id;
      assert agents[i].id == id;
    }
  }

  function FromItems<K(==)>(items: seq<(K, string)>, key: K -> K): map<K, string>
  {
    if items == [] then map[]
    else
      var last := items[|items| - 1];
      FromItems(items[..|items| - 1], key)[key(last.0) := last.1]
  }

  /** `_load_binding` of every entry. */
  function LoadList(list: seq<Binding>, kind: string): Result<seq<Binding>, RegistryError>
  {
    if list == [] then Ok([])
    else
      var before := LoadList(list[..|list| - 1], kind);
      var last := DefineBinding(list[|list| - 1]);
      if before.Err? then before
      else if last.Err? then Err(Invalid(last.error))
      else if last.value.kind != kind then Err(Invalid(WrongResourceType))
      else Ok(before.value + [last.value])
  }

  predicate AreLoadable(bindings: map<string, seq<Binding>>)
  {
    bindings.Keys == RESOURCE_TYPES && forall kind :: kind in bindings ==> LoadList(bindings[kind], kind).Ok?
  }

  function LoadAgent(raw: Agent): Result<Agent, RegistryError>
  {
    if !AreLoadable(raw.bindings) then Err(Invalid(WrongResourceType))
    else Redefine(raw.(bindings := map kind | kind in raw.bindings :: LoadList(raw.bindings[kind], kind).value))
  }

  function LoadAgents(items: seq<Agent>): Result<map<string, Agent>, RegistryError>
  {
    if items == [] then Ok(map[])
    else
      var before := LoadAgents(items[..|items| - 1]);
      if before.Err? then before
      else
        var agent := LoadAgent(items[|items| - 1]);
        if agent.Err? then Err(agent.error) else Ok(before.value[agent.value.id := agent.value])
  }

  /** `_load_state`: everything is normalised again, and checked. */
  function Load(doc: Document): Result<State, RegistryError>
  {
    var agents := LoadAgents(doc.agents);
    if agents.Err? then Err(agents.error)
    else if |agents.value| != |doc.agents| then Err(DuplicateIds)
    else
      var s := State(agents.value, FromItems(doc.channels, ChannelOf), FromItems(doc.accounts, AccountOf),
                     FromItems(doc.sessions, (k: string) => k), doc.defaultId);
      if IsClosed(s) then Ok(s) else Err(DanglingReference)
  }

  lemma {:induction false} LoadedItems<K>(items: seq<(K, string)>, key: K -> K, k: K)
    ensures k in FromItems(items, key) ==> exists i :: 0 <= i < |items| && key(items[i].0) == k
  {
    if items != [] {
      var n := |items| - 1;
      LoadedItems(items[..n], key, k);
      if k in FromItems(items[..n], key) {
        var i :| 0 <= i < n && key(items[..n][i].0) == k;
        assert key(items[i].0) == k;
      }
    }
  }

  /** Reading a dictionary back from its list, under keys that are already normal. */
  lemma {:induction false} ItemsComeBack<K(!new)>(m: map<K, string>, items: seq<(K, string)>, key: K -> K)
    requires forall i :: 0 <= i < |items| ==> items[i].0 in m && m[items[i].0] == items[i].1
    requires forall k :: k in m ==> key(k) == k
    ensures forall k :: k in FromItems(items, key) <==> exists i :: 0 <= i < |items| && items[i].0 == k
    ensures forall k :: k in FromItems(items, key) ==> k in m && FromItems(items, key)[k] == m[k]
  {
    if items != [] {
      var n := |items| - 1;
      var before := FromItems(items[..n], key);
      ItemsComeBack(m, items[..n], key);
      assert FromItems(items, key) == before[items[n].0 := items[n].1];
      forall k | k in FromItems(items, key) ensures exists i :: 0 <= i < |items| && items[i].0 == k {
        if k in before {
          var i :| 0 <= i < n && items[..n][i].0 == k;
          assert items[i].0 == k;
        } else {
          assert items[n].0 == k;
        }
      }
      forall i | 0 <= i < |items| ensures items[i].0 in FromItems(items, key) {
        if i < n {
          assert items[..n][i].0 == items[i].0;
        }
      }
    }
  }

  lemma DictionaryComesBack<K(!new)>(m: map<K, string>, items: seq<(K, string)>, key: K -> K)
    requires Lists(m, items) && forall k :: k in m ==> key(k) == k
    ensures FromItems(items, key) == m
  {
    ItemsComeBack(m, items, key);
  }

  lemma {:induction false} ListComesBack(list: seq<Binding>, kind: string)
    requires forall i :: 0 <= i < |list| ==> IsBinding(list[i]) && list[i].kind == kind
    ensures LoadList(list, kind) == Ok(list)
  {
    hide IsBinding, DefineBinding;
    if list != [] {
      var n := |list| - 1;
      ListComesBack(list[..n], kind);
      BindingsAreFixed(list[n]);
      assert DefineBinding(list[n]) == Ok(list[n]);
      assert list == list[..n] + [list[n]];
    }
  }

  lemma {:induction false} LoadedListIsDefined(list: seq<Binding>, kind: string)
    requires LoadList(list, kind).Ok?
    ensures forall i :: 0 <= i < |LoadList(list, kind).value| ==>
                          IsBinding(LoadList(list, kind).value[i]) && LoadList(list, kind).value[i].kind == kind
  {
    hide IsBinding, DefineBinding;
    if list != [] {
      var n := |list| - 1;
      LoadedListIsDefined(list[..n], kind);
      BindingsAreFixed(list[n]);
    }
  }

  lemma AgentComesBack(a: Agent)
    requires IsDefinition(a)
    ensures LoadAgent(a) == if a.models == [] then Err(Invalid(NoModels)) else Ok(a)
  {
    hide Define, LoadList, IsTeam, TrimmedSet, IsIdentifier, Trimmed, IsBinding;
    DefinitionsAreFixed(a);
    forall kind | kind in a.bindings ensures LoadList(a.bindings[kind], kind) == Ok(a.bindings[kind]) {
      ListComesBack(a.bindings[kind], kind);
    }
    assert (map kind | kind in a.bindings :: LoadList(a.bindings[kind], kind).value) == a.bindings;
  }

  function Ids(items: seq<Agent>): set<string>
  {
    if items == [] then {} else Ids(items[..|items| - 1]) + {items[|items| - 1].id}
  }

  lemma {:induction false} IdsAreListed(items: seq<Agent>, id: string)
    ensures id in Ids(items) <==> exists i :: 0 <= i < |items| && items[i].id == id
  {
    if items != [] {
      var n := |items| - 1;
      IdsAreListed(items[..n], id);
      if id in Ids(items[..n]) {
        var i :| 0 <= i < n && items[..n][i].id == id;
        assert items[i].id == id;
      }
      assert forall i :: 0 <= i < n ==> items[..n][i] == items[i];
    }
  }

  ghost predicate AllHaveModels(items: seq<Agent>)
  {
    forall i :: 0 <= i < |items| ==> items[i].models != []
  }

  lemma {:induction false} AgentsLoadIff(items: seq<Agent>)
    requires forall i :: 0 <= i < |items| ==> IsDefinition(items[i])
    ensures LoadAgents(items).Ok? <==> AllHaveModels(items)
  {
    hide LoadAgent, IsDefinition;
    if items != [] {
      var n := |items| - 1;
      AgentsLoadIff(items[..n]);
      AgentComesBack(items[n]);
      assert forall i :: 0 <= i < n ==> items[..n][i] == items[i];
    }
  }

  lemma {:induction false} AgentsComeBack(agents: map<string, Agent>, items: seq<Agent>)
    requires HasDefinitions(agents) && ListsSome(agents, items) && LoadAgents(items).Ok?
    ensures var all := LoadAgents(items).value;
            && all.Keys == Ids(items) && |all| == |items|
            && forall id :: id in all ==> id in agents && all[id] == agents[id]
  {
    hide LoadAgent, IsDefinition;
    if items != [] {
      var n := |items| - 1;
      var last := items[n];
      AgentsComeBack(agents, items[..n]);
      AgentComesBack(last);
      var before, all := LoadAgents(items[..n]).value, LoadAgents(items).value;
      assert all == before[last.id := last];
      if last.id in before {
        IdsAreListed(items[..n], last.id);
        assert false;
      }
      assert all.Keys == before.Keys + {last.id};
    }
  }

  ghost predicate EveryAgentHasAModel(s: State)
  {
    forall id :: id in s.agents ==> s.agents[id].models != []
  }

  lemma BindingsComeBack(s: State, doc: Document)
    requires HasCleanKeys(s) && IsSaved(doc, s)
    ensures FromItems(doc.channels, ChannelOf) == s.channels
    ensures FromItems(doc.accounts, AccountOf) == s.accounts
    ensures FromItems(doc.sessions, (k: string) => k) == s.sessions
  {
    hide Lists, ListsAgents, FromItems, ChannelOf, AccountOf, IsLowerIdentifier, HasCleanAccount;
    forall k | k in s.channels ensures ChannelOf(k) == k {
      KeysAreClean(k, Account("", "", ""));
    }
    forall k | k in s.accounts ensures AccountOf(k) == k {
      KeysAreClean("", k);
    }
    DictionaryComesBack(s.channels, doc.channels, ChannelOf);
    DictionaryComesBack(s.accounts, doc.accounts, AccountOf);
    DictionaryComesBack(s.sessions, doc.sessions, (k: string) => k);
  }

  lemma ListedIds(agents: map<string, Agent>, items: seq<Agent>)
    requires ListsAgents(agents, items)
    ensures Ids(items) == agents.Keys
    ensures AllHaveModels(items) <==> forall id :: id in agents ==> agents[id].models != []
  {
    hide Ids;
    forall id ensures id in Ids(items) <==> id in agents {
      IdsAreListed(items, id);
    }
    if AllHaveModels(items) {
      forall id | id in agents ensures agents[id].models != [] {
        var i :| 0 <= i < |items| && items[i].id == id;
        assert agents[id] == items[i];
      }
    }
  }

  lemma ListedAgentsComeBack(agents: map<string, Agent>, items: seq<Agent>)
    requires HasDefinitions(agents) && ListsAgents(agents, items)
    ensures LoadAgents(items).Ok? <==> forall id :: id in agents ==> agents[id].models != []
    ensures LoadAgents(items).Ok? ==> LoadAgents(items).value == agents && |agents| == |items|
  {
    hide IsDefinition, LoadAgents, Ids, AllHaveModels;
    AgentsLoadIff(items);
    ListedIds(agents, items);
    if LoadAgents(items).Ok? {
      AgentsComeBack(agents, items);
      assert LoadAgents(items).value == agents;
    }
  }

  /**
   Saving and loading is the identity, whatever the order of the lists, exactly
   when every Agent has a non-blank model; otherwise the file cannot be loaded.
   */
  lemma SavedStateComesBack(s: State, doc: Document)
    requires IsValid(s) && IsSaved(doc, s)
    ensures Load(doc).Ok? <==> EveryAgentHasAModel(s)
    ensures Load(doc).Ok? ==> Load(doc).value == s
  {
    hide HasDefinitions, HasCleanKeys, ListsAgents, Lists, LoadAgents, FromItems;
    BindingsComeBack(s, doc);
    ListedAgentsComeBack(s.agents, doc.agents);
  }

  lemma {:induction false} AsTupleIsEmptyIff(values: seq<string>)
    ensures AsTuple(values) == [] <==> forall i :: 0 <= i < |values| ==> Strip(values[i]) == ""
  {
    hide Strip;
    if values != [] {
      var n := |values| - 1;
      AsTupleIsEmptyIff(values[..n]);
      assert forall i :: 0 <= i < n ==> values[..n][i] == values[i];
    }
  }

  /** Blank models are accepted and saved, and then keep the registry from starting again. */
  lemma BlankModelsBlockTheRestart(raw: Agent, s: State, op: Op, doc: Document)
    requires Define(raw).Ok? && IsValid(s) && op.Register? && Next(s, op).Ok? && op.agent == Define(raw).value
    requires IsSaved(doc, Next(s, op).value)
    ensures (forall i :: 0 <= i < |raw.models| ==> Strip(raw.models[i]) == "") ==> Load(doc).Err?
    ensures EveryAgentHasAModel(s) && (exists i :: 0 <= i < |raw.models| && Strip(raw.models[i]) != "") ==>
              Load(doc) == Ok(Next(s, op).value)
  {
    hide Load, IsDefinition, IsValid, IsSaved, AsSet, DistinctNames, Clean, Strip, BindCreationOwner;
    AsTupleIsEmptyIff(raw.models);
    NextKeepsValid(s, op);
    var t := Next(s, op).value;
    var agent := BindCreationOwner(op.agent, op.principal).value;
    assert HasDefinitions(s.agents) by { ValidHasDefinitions(s); }
    OwnersAreChecked(op.agent, op.agent, op.principal);
    SavedStateComesBack(t, doc);
    assert t.agents == s.agents[agent.id := agent] && agent.models == op.agent.models;
    assert t.agents[agent.id].models == AsTuple(raw.models);
  }

  lemma LoadedAgentIsDefined(raw: Agent)
    requires LoadAgent(raw).Ok?
    ensures IsDefinition(LoadAgent(raw).value)
  {
    hide Define, LoadList, IsTeam, TrimmedSet, IsIdentifier, Trimmed, IsBinding;
    forall kind | kind in raw.bindings
      ensures forall i :: 0 <= i < |LoadList(raw.bindings[kind], kind).value| ==>
                            && IsBinding(LoadList(raw.bindings[kind], kind).value[i])
                            && LoadList(raw.bindings[kind], kind).value[i].kind == kind {
      LoadedListIsDefined(raw.bindings[kind], kind);
    }
    DefineGivesDefinitions(raw.(bindings := map kind | kind in raw.bindings :: LoadList(raw.bindings[kind], kind).value));
  }

  lemma {:induction false} LoadedAgentsAreDefined(items: seq<Agent>)
    ensures LoadAgents(items).Ok? ==> HasDefinitions(LoadAgents(items).value)
  {
    hide LoadAgent, IsDefinition;
    if items != [] {
      var n := |items| - 1;
      LoadedAgentsAreDefined(items[..n]);
      if LoadAgents(items).Ok? {
        LoadedAgentIsDefined(items[n]);
      }
    }
  }

  /** Whatever file is accepted, the registry starts in a valid state. */
  lemma LoadedIsValid(doc: Document)
    ensures Load(doc).Ok? ==> IsValid(Load(doc).value)
  {
    hide IsDefinition, LoadAgents, FromItems, ChannelOf, AccountOf, IsLowerIdentifier, HasCleanAccount, IsClosed;
    if Load(doc).Ok? {
      var s := Load(doc).value;
      LoadedAgentsAreDefined(doc.agents);
      forall k | k in s.channels ensures IsLowerIdentifier(k) {
        LoadedItems(doc.channels, ChannelOf, k);
        var i :| 0 <= i < |doc.channels| && ChannelOf(doc.channels[i].0) == k;
        KeysAreClean(doc.channels[i].0, Account("", "", ""));
      }
      forall k | k in s.accounts ensures HasCleanAccount(k) {
        LoadedItems(doc.accounts, AccountOf, k);
        var i :| 0 <= i < |doc.accounts| && AccountOf(doc.accounts[i].0) == k;
        KeysAreClean("", doc.accounts[i].0);
      }
    }
  }

  // ---- The registry object --------------------------------------------------------------------------------------

  /** How a call ends: committed, refused before the commit, or refused by the disk. */
  ghost predicate Settles(before: State, after: State, next: Result<State, RegistryError>, r: Result<(), RegistryError>,
                          canWrite: bool)
  {
    if next.Err? then r == Err(next.error) && after == before
    else if !canWrite then r == Err(WriteFailed) && after == before
    else r == Ok(()) && after == next.value
  }

  method NormalizeChannels(channels: seq<string>) returns (r: Result<set<string>, RegistryError>)
    ensures r == if AreSupported(channels) then Ok(ChannelKeys(channels)) else Err(UnsupportedChannel)
  {
    hide ChannelOf;
    var keys: set<string> := {};
    for i := 0 to |channels|
      invariant AreSupported(channels[..i]) && keys == ChannelKeys(channels[..i])
    {
      var key := ChannelOf(channels[i]);
      if key !in SUPPORTED_CHANNELS {
        return Err(UnsupportedChannel);
      }
      assert channels[..i + 1] == channels[..i] + [channels[i]];
      keys := keys + {key};
    }
    assert channels[..|channels|] == channels;
    return Ok(keys);
  }

  method NormalizeAccounts(accounts: seq<Account>) returns (r: Result<set<Account>, RegistryError>)
    ensures r == if AreSupportedAccounts(accounts) then Ok(AccountKeys(accounts)) else Err(UnsupportedChannel)
  {
    hide ChannelOf, AccountOf;
    var keys: set<Account> := {};
    for i := 0 to |accounts|
      invariant AreSupportedAccounts(accounts[..i]) && keys == AccountKeys(accounts[..i])
    {
      if ChannelOf(accounts[i].channel) !in SUPPORTED_CHANNELS {
        return Err(UnsupportedChannel);
      }
      assert accounts[..i + 1] == accounts[..i] + [accounts[i]];
      keys := keys + {AccountOf(accounts[i])};
    }
    assert accounts[..|accounts|] == accounts;
    return Ok(keys);
  }

  class Registry {
    var agents: map<string, Agent>
    var channels: map<string, string>
    var accounts: map<Account, string>
    var sessions: map<string, string>
    var defaultId: Option<string>
    const isPersistent: bool
    var disk: Option<Document>

    function CaptureState(): State
      reads this
    {
      State(agents, channels, accounts, sessions, defaultId)
    }

    /** Besides the state: once written, the file is the saved form of this very state or loads to it. */
    ghost predicate Valid()
      reads this
    {
      && IsValid(CaptureState())
      && (isPersistent && disk.None? ==> CaptureState() == EMPTY)
      && (isPersistent && disk.Some? ==> IsSaved(disk.value, CaptureState()) || Load(disk.value) == Ok(CaptureState()))
    }

    constructor FromState(s: State, isPersistent: bool, disk: Option<Document>)
      ensures CaptureState() == s && this.isPersistent == isPersistent && this.disk == disk
    {
      agents, channels, accounts, sessions, defaultId := s.agents, s.channels, s.accounts, s.sessions, s.defaultId;
      this.isPersistent := isPersistent;
      this.disk := disk;
    }

    /** `__init__`: an existing file is loaded, and a broken one stops the start. */
    static method Open(isPersistent: bool, disk: Option<Document>) returns (r: Result<Registry, RegistryError>)
      ensures r.Err? <==> isPersistent && disk.Some? && Load(disk.value).Err?
      ensures r.Ok? ==> fresh(r.value) && r.value.Valid() && r.value.isPersistent == isPersistent
      ensures r.Ok? && isPersistent && disk.Some? ==> Ok(r.value.CaptureState()) == Load(disk.value)
    {
      hide Load, IsValid, IsSaved;
      assert IsValid(EMPTY) by { EmptyIsValid(); }
      if !isPersistent || disk.None? {
        var registry := new Registry.FromState(EMPTY, isPersistent, None);
        return Ok(registry);
      }
      var loaded := Load(disk.value);
      if loaded.Err? {
        return Err(loaded.error);
      }
      LoadedIsValid(disk.value);
      var registry := new Registry.FromState(loaded.value, true, disk);
      return Ok(registry);
    }

    /** `_commit`: check, write, and only then change the registry. */
    method Commit(next: State, writable: bool) returns (r: Result<(), RegistryError>)
      requires Valid() && IsValid(next)
      modifies this
      ensures Valid()
      ensures Settles(old(CaptureState()), CaptureState(), Ok(next), r, !isPersistent || writable)
      ensures r.Ok? && isPersistent ==> disk.Some? && IsSaved(disk.value, CaptureState())
      ensures r.Err? || !isPersistent ==> disk == old(disk)
    {
      hide Load, IsSaved, HasDefinitions, HasCleanKeys;
      if !IsClosed(next) {
        assert false;
        return Err(DanglingReference);
      }
      if isPersistent {
        if !writable {
          return Err(WriteFailed);
        }
        var doc := SerializeState(next);
        disk := Some(doc);
      }
      agents, channels, accounts, sessions, defaultId := next.agents, next.channels, next.accounts, next.sessions, next.defaultId;
      return Ok(());
    }

    method RegisterAgent(agent: AgentDefinition, principal: Option<Principal>, writable: bool)
      returns (r: Result<(), RegistryError>)
      requires Valid()
      modifies this
      ensures Valid()
      ensures var op := Register(agent, principal);
              Settles(old(CaptureState()), CaptureState(), Next(old(CaptureState()), op), r, !isPersistent || writable)
    {
      hide Load, IsSaved, IsValid, BindCreationOwner;
      if agent.id in agents {
        return Err(AlreadyRegistered);
      }
      var owned := BindCreationOwner(agent, principal);
      if owned.Err? {
        return Err(owned.error);
      }
      var next := CaptureState();
      next := next.(agents := next.agents[owned.value.id := owned.value]);
      if next.defaultId.None? && owned.value.id == "default" {
        next := next.(defaultId := Some(owned.value.id));
      }
      NextKeepsValid(CaptureState(), Register(agent, principal));
      r := Commit(next, writable);
    }

    method UpdateAgent(agent: AgentDefinition, writable: bool) returns (r: Result<(), RegistryError>)
      requires Valid()
      modifies this
      ensures Valid()
      ensures Settles(old(CaptureState()), CaptureState(), Next(old(CaptureState()), Update(agent)), r, !isPersistent || writable)
    {
      hide Load, IsSaved, IsValid, PreserveOwner;
      if agent.id !in agents {
        return Err(UnknownAgent);
      }
      var owned := PreserveOwner(agents[agent.id], agent);
      if owned.Err? {
        return Err(owned.error);
      }
      var next := CaptureState();
      next := next.(agents := next.agents[owned.value.id := owned.value]);
      NextKeepsValid(CaptureState(), Update(agent));
      r := Commit(next, writable);
    }

    method RemoveAgent(id: string, writable: bool) returns (r: Result<(), RegistryError>)
      requires Valid()
      modifies this
      ensures Valid()
      ensures id in old(agents) ==>
                Settles(old(CaptureState()), CaptureState(), Next(old(CaptureState()), Remove(id)), r, !isPersistent || writable)
      ensures id !in old(agents) ==> r == Ok(()) && CaptureState() == old(CaptureState())
    {
      hide Load, IsSaved, IsValid;
      if id !in agents {
        return Ok(());
      }
      if defaultId == Some(id) {
        return Err(DefaultCannotBeRemoved);
      }
      if exists k :: k in channels && channels[k] == id {
        return Err(StillBound);
      }
      if exists k :: k in accounts && accounts[k] == id {
        return Err(StillBound);
      }
      if exists k :: k in sessions && sessions[k] == id {
        return Err(StillBound);
      }
      var next := CaptureState();
      next := next.(agents := next.agents - {id});
      NextKeepsValid(CaptureState(), Remove(id));
      r := Commit(next, writable);
    }

    method SetDefaultAgent(id: string, writable: bool) returns (r: Result<(), RegistryError>)
      requires Valid()
      modifies this
      ensures Valid()
      ensures Settles(old(CaptureState()), CaptureState(), Next(old(CaptureState()), SetDefault(id)), r,
                      !isPersistent || writable)
    {
      hide Load, IsSaved, IsValid;
      var refusal := RequireEnabled(CaptureState(), id);
      if refusal.Some? {
        return Err(refusal.value);
      }
      NextKeepsValid(CaptureState(), SetDefault(id));
      r := Commit(CaptureState().(defaultId := Some(id)), writable);
    }

    method SetAgentEnabled(id: string, enabled: bool, writable: bool) returns (r: Result<(), RegistryError>)
      requires Valid()
      modifies this
      ensures Valid()
      ensures Settles(old(CaptureState()), CaptureState(), Next(old(CaptureState()), SetEnabled(id, enabled)), r,
                      !isPersistent || writable)
    {
      hide Load, IsSaved, IsValid, Redefine;
      if id !in agents {
        return Err(UnknownAgent);
      }
      if !enabled && defaultId == Some(id) {
        return Err(DefaultCannotBeDisabled);
      }
      var updated := Redefine(agents[id].(enabled := enabled));
      if updated.Err? {
        return Err(updated.error);
      }
      var next := CaptureState();
      next := next.(agents := next.agents[id := updated.value]);
      NextKeepsValid(CaptureState(), SetEnabled(id, enabled));
      r := Commit(next, writable);
    }

    /** `configure`: the definition and every relation of one Agent, replaced in one commit. */
    method ConfigureAgent(agent: AgentDefinition, principal: Option<Principal>, newChannels: seq<string>,
                          newAccounts: seq<Account>, newSessions: seq<string>, isDefault: bool, create: bool, writable: bool)
      returns (r: Result<(), RegistryError>)
      requires Valid()
      modifies this
      ensures Valid()
      ensures var op := Configure(agent, principal, newChannels, newAccounts, newSessions, isDefault, create);
              Settles(old(CaptureState()), CaptureState(), Next(old(CaptureState()), op), r, !isPersistent || writable)
    {
      hide Load, IsSaved, IsValid, BindCreationOwner, PreserveOwner, AreSupported, AreSupportedAccounts, AreSupportedSessions,
           AreNamed, Without, WithAll, ChannelKeys, AccountKeys, SessionKeys;
      if create && agent.id in agents {
        return Err(AlreadyRegistered);
      }
      if !create && agent.id !in agents {
        return Err(UnknownAgent);
      }
      var owned := if create then BindCreationOwner(agent, principal) else PreserveOwner(agents[agent.id], agent);
      if owned.Err? {
        return Err(owned.error);
      }
      var channelKeys := NormalizeChannels(newChannels);
      if channelKeys.Err? {
        return Err(channelKeys.error);
      }
      var accountKeys := NormalizeAccounts(newAccounts);
      if accountKeys.Err? {
        return Err(accountKeys.error);
      }
      if !AreNamed(newSessions) {
        return Err(EmptySession);
      }
      if !AreSupportedSessions(newSessions) {
        return Err(UnsupportedChannel);
      }
      if !agent.enabled && (isDefault || newChannels != [] || newAccounts != [] || newSessions != []) {
        return Err(AgentDisabled);
      }
      var next := CaptureState();
      next := next.(agents := next.agents[agent.id := owned.value]);
      next := next.(channels := WithAll(Without(next.channels, agent.id), channelKeys.value, agent.id));
      next := next.(accounts := WithAll(Without(next.accounts, agent.id), accountKeys.value, agent.id));
      next := next.(sessions := WithAll(Without(next.sessions, agent.id), SessionKeys(newSessions), agent.id));
      if isDefault {
        next := next.(defaultId := Some(agent.id));
      } else if next.defaultId == Some(agent.id) {
        next := next.(defaultId := None);
      }
      NextKeepsValid(CaptureState(), Configure(agent, principal, newChannels, newAccounts, newSessions, isDefault, create));
      r := Commit(next, writable);
    }

    method BindAgent(op: Op, writable: bool) returns (r: Result<(), RegistryError>)
      requires Valid() && (op.BindChannel? || op.BindAccount? || op.BindSession?)
      modifies this
      ensures Valid()
      ensures Settles(old(CaptureState()), CaptureState(), Next(old(CaptureState()), op), r, !isPersistent || writable)
    {
      hide Load, IsSaved, IsValid, ChannelOf, AccountOf, BeforeSlash, RefKey;
      var refusal := RequireEnabled(CaptureState(), op.id);
      if refusal.Some? {
        return Err(refusal.value);
      }
      var next := CaptureState();
      if op.BindChannel? {
        var key := ChannelOf(op.channel);
        if key !in SUPPORTED_CHANNELS {
          return Err(UnsupportedChannel);
        }
        next := next.(channels := next.channels[key := op.id]);
      } else if op.BindAccount? {
        if ChannelOf(op.account.channel) !in SUPPORTED_CHANNELS {
          return Err(UnsupportedChannel);
        }
        next := next.(accounts := next.accounts[AccountOf(op.account) := op.id]);
      } else {
        var key := RefKey(op.session);
        if ChannelOf(BeforeSlash(key)) !in SUPPORTED_CHANNELS {
          return Err(UnsupportedChannel);
        }
        next := next.(sessions := next.sessions[key := op.id]);
      }
      NextKeepsValid(CaptureState(), op);
      r := Commit(next, writable);
    }

    method UnbindAgent(op: Op, writable: bool) returns (r: Result<(), RegistryError>)
      requires Valid() && (op.UnbindChannel? || op.UnbindAccount? || op.UnbindSession?)
      modifies this
      ensures Valid()
      ensures Settles(old(CaptureState()), CaptureState(), Next(old(CaptureState()), op), r, !isPersistent || writable)
    {
      hide Load, IsSaved, IsValid, ChannelOf, AccountOf;
      var next := CaptureState();
      if op.UnbindChannel? {
        next := next.(channels := next.channels - {ChannelOf(op.channel)});
      } else if op.UnbindAccount? {
        next := next.(accounts := next.accounts - {AccountOf(op.account)});
      } else if op.session.ContextRef? {
        next := next.(sessions := next.sessions - {SessionKey(op.session.context)});
        next := next.(sessions := next.sessions - {LegacySessionKey(op.session.context)});
        assert next.sessions == sessions - RefKeys(op.session);
      } else {
        next := next.(sessions := next.sessions - {op.session.key});
      }
      NextKeepsValid(CaptureState(), op);
      r := Commit(next, writable);
    }

    method UpdateResourceBindings(op: Op, writable: bool) returns (r: Result<(), RegistryError>)
      requires Valid() && op.UpdateResources?
      modifies this
      ensures Valid()
      ensures Settles(old(CaptureState()), CaptureState(), Next(old(CaptureState()), op), r, !isPersistent || writable)
    {
      hide Load, IsSaved, IsValid, Redefine, WithResources;
      if op.id !in agents {
        return Err(UnknownAgent);
      }
      var updated := Redefine(WithResources(agents[op.id], op));
      if updated.Err? {
        return Err(updated.error);
      }
      var next := CaptureState();
      next := next.(agents := next.agents[op.id := updated.value]);
      NextKeepsValid(CaptureState(), op);
      r := Commit(next, writable);
    }
  }

  lemma EmptyIsValid()
    ensures IsValid(EMPTY)
  {
  }
}
