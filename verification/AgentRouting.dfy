/**
 Which Agent answers a conversation, and what each binding operation does to
 that: `AgentRegistry.resolve` in `kirara_ai/agent_runtime/core.py`.
 */
module AgentRouting {
  import opened Wrappers
  import opened TextUnits
  import opened AgentIdentity
  import opened AgentDefinitions
  import opened AgentRegistry

  datatype RoutingError = NoDefaultAgent | Refused(reason: RegistryError)

  function Entry<K(==)>(m: map<K, string>, k: K): Option<string>
  {
    if k in m then Some(m[k]) else None
  }

  /** The Agent bound to the conversation itself, under its session key or else its legacy key. */
  function BoundTo(s: State, c: ChannelContext): Option<string>
  {
    if SessionKey(c) in s.sessions then Some(s.sessions[SessionKey(c)]) else Entry(s.sessions, LegacySessionKey(c))
  }

  function AccountKey(c: ChannelContext): Account
  {
    Account(c.channel, c.adapter, c.account)
  }

  /** The closest binding wins: conversation, account, channel, default. */
  function Chosen(s: State, c: ChannelContext): Option<string>
  {
    if BoundTo(s, c).Some? then BoundTo(s, c)
    else if AccountKey(c) in s.accounts then Some(s.accounts[AccountKey(c)])
    else if c.channel in s.channels then Some(s.channels[c.channel])
    else s.defaultId
  }

  function Required(s: State, id: Option<string>): Result<Agent, RoutingError>
  {
    if id.None? then Err(NoDefaultAgent)
    else if RequireEnabled(s, id.value).Some? then Err(Refused(RequireEnabled(s, id.value).value))
    else Ok(s.agents[id.value])
  }

  /** `resolve`: the first candidate there is, which must be an enabled Agent. */
  method Resolve(s: State, c: ChannelContext, preferred: Option<string>) returns (r: Result<Agent, RoutingError>)
    ensures r == Required(s, if preferred.Some? then preferred else Chosen(s, c))
  {
    hide SessionKey, LegacySessionKey, RequireEnabled;
    var persisted := Entry(s.sessions, SessionKey(c));
    if persisted.None? {
      persisted := Entry(s.sessions, LegacySessionKey(c));
    }
    var candidates := [preferred, persisted, Entry(s.accounts, AccountKey(c)), Entry(s.channels, c.channel), s.defaultId];
    assert candidates[0] == preferred && candidates[1] == persisted == BoundTo(s, c) && candidates[4] == s.defaultId;
    assert candidates[2] == Entry(s.accounts, AccountKey(c)) && candidates[3] == Entry(s.channels, c.channel);
    for i := 0 to |candidates|
      invariant forall k :: 0 <= k < i ==> candidates[k].None?
    {
      if candidates[i].None? {
        continue;
      }
      var refusal := RequireEnabled(s, candidates[i].value);
      if refusal.Some? {
        return Err(Refused(refusal.value));
      }
      EnabledIsThere(s, candidates[i].value);
      return Ok(s.agents[candidates[i].value]);
    }
    return Err(NoDefaultAgent);
  }

  lemma EnabledIsThere(s: State, id: string)
    requires RequireEnabled(s, id).None?
    ensures id in s.agents && s.agents[id].enabled
  {
  }

  /** In a valid registry the search fails only for want of a default, or on a disabled Agent. */
  lemma RoutesLeadToAgents(s: State, c: ChannelContext)
    requires IsValid(s)
    ensures var r := Required(s, Chosen(s, c));
            && (r == Err(NoDefaultAgent) <==> Chosen(s, c).None?)
            && (r == Err(Refused(AgentDisabled)) <==>
                  Chosen(s, c).Some? && Chosen(s, c).value in s.agents && !s.agents[Chosen(s, c).value].enabled)
            && (r.Err? ==> r.error == NoDefaultAgent || r.error == Refused(AgentDisabled))
            && (r.Ok? ==> Some(r.value.id) == Chosen(s, c) && r.value.enabled)
  {
    hide IsDefinition, IsLowerIdentifier, HasCleanAccount, SessionKey, LegacySessionKey;
  }

  // ---- Binding ---------------------------------------------------------------------------------

  predicate Binds(op: Op)
  {
    op.BindSession? || op.BindAccount? || op.BindChannel? || op.SetDefault?
  }

  /**
   The operation decides for this conversation: it names it, or its account, its
   channel or nothing, and nothing closer is bound.
   */
  predicate Takes(s: State, op: Op, c: ChannelContext)
    requires Binds(op)
  {
    match op
    case BindSession(ContextRef(named), _) => named == c
    case BindSession(KeyRef(key), _) =>
      SessionKey(c) == key || (SessionKey(c) !in s.sessions && LegacySessionKey(c) == key)
    case BindAccount(account, _) => BoundTo(s, c).None? && AccountKey(c) == AccountOf(account)
    case BindChannel(channel, _) =>
      BoundTo(s, c).None? && AccountKey(c) !in s.accounts && c.channel == ChannelOf(channel)
    case SetDefault(_) => BoundTo(s, c).None? && AccountKey(c) !in s.accounts && c.channel !in s.channels
  }

  /** Behind the operation the conversation goes to the Agent bound, or where it went before. */
  ghost predicate IsRouted(s: State, op: Op, t: State, c: ChannelContext)
    requires Binds(op)
  {
    && Chosen(t, c) == (if Takes(s, op, c) then Some(op.id) else Chosen(s, c))
    && (Takes(s, op, c) ==> op.id in s.agents && Required(t, Chosen(t, c)) == Ok(s.agents[op.id]) && t.agents == s.agents)
  }

  /**
   A binding leads exactly the conversations it decides for to its Agent, which
   exists and is enabled, and leaves every other conversation where it was: even
   one whose legacy key could be mistaken for the key bound.
   */
  lemma BindingsRouteTheirOwn(s: State, op: Op, c: ChannelContext)
    requires Binds(op) && Next(s, op).Ok? && IsContext(c)
    requires op.BindSession? && op.session.ContextRef? ==> IsContext(op.session.context)
    ensures IsRouted(s, op, Next(s, op).value, c)
  {
    hide IsRouted, NextBind, NextConfigure, Replaced, IsContext;
    if op.BindSession? {
      SessionsRouteTheirOwn(s, op, c);
    } else if op.SetDefault? {
      DefaultsRouteTheirOwn(s, op, c);
    } else {
      ScopesRouteTheirOwn(s, op, c);
    }
  }

  lemma SessionsRouteTheirOwn(s: State, op: Op, c: ChannelContext)
    requires op.BindSession? && NextBind(s, op).Ok? && IsContext(c)
    requires op.session.ContextRef? ==> IsContext(op.session.context)
    ensures IsRouted(s, op, NextBind(s, op).value, c)
  {
    hide SessionKey, LegacySessionKey, ChannelOf, IsContext, BeforeSlash;
    if op.session.ContextRef? && op.session.context != c {
      KeysAreApart(op.session.context, c);
    }
  }

  lemma ScopesRouteTheirOwn(s: State, op: Op, c: ChannelContext)
    requires (op.BindAccount? || op.BindChannel?) && NextBind(s, op).Ok?
    ensures IsRouted(s, op, NextBind(s, op).value, c)
  {
    hide SessionKey, LegacySessionKey, ChannelOf, AccountOf;
  }

  lemma DefaultsRouteTheirOwn(s: State, op: Op, c: ChannelContext)
    requires op.SetDefault? && Next(s, op).Ok?
    ensures IsRouted(s, op, Next(s, op).value, c)
  {
    hide SessionKey, LegacySessionKey;
  }

  /** The keys of one conversation, and what they can share with those of another. */
  lemma KeysAreApart(c: ChannelContext, d: ChannelContext)
    requires IsContext(c) && IsContext(d) && c != d
    ensures SessionKey(c) != SessionKey(d)
    ensures SessionKey(c) != LegacySessionKey(d) && SessionKey(d) != LegacySessionKey(c)
  {
    hide SessionKey, LegacySessionKey, IsContext;
    if SessionKey(c) == SessionKey(d) {
      SessionKeysAreUnique(c, d);
    }
    if SessionKey(c) == LegacySessionKey(d) {
      LegacyKeysFindOnlyTheirOwn(c, d);
    }
    if SessionKey(d) == LegacySessionKey(c) {
      LegacyKeysFindOnlyTheirOwn(d, c);
    }
  }

  // ---- Unbinding ----------------------------------------------------------------------------------

  /**
   Unbinding a conversation leaves it with no Agent of its own.  Another
   conversation loses its Agent exactly when it has only a legacy binding and
   shares the legacy key.
   */
  lemma UnbindingReleases(s: State, c: ChannelContext, d: ChannelContext)
    requires IsContext(c) && IsContext(d) && Next(s, UnbindSession(ContextRef(c))).Ok?
    ensures var t := Next(s, UnbindSession(ContextRef(c))).value;
            && BoundTo(t, c).None?
            && (d != c ==>
                  BoundTo(t, d) == if SessionKey(d) !in s.sessions && LegacySessionKey(d) == LegacySessionKey(c) then None
                                   else BoundTo(s, d))
  {
    hide SessionKey, LegacySessionKey, IsContext;
    if d != c {
      KeysAreApart(c, d);
    }
  }

  /** Two conversations that share a legacy key, and one unbinding that takes the Agent from both. */
  lemma UnbindingCanReleaseAnother(s: State, c: ChannelContext, a: string, b: string, id: string)
    requires IsContext(c) && c.adapter == a + "/" + b && |b| + 1 + |c.account| <= MAX_IDENTIFIER && a != ""
    requires s.sessions == map[LegacySessionKey(c) := id]
    ensures var d := c.(adapter := a, account := b + "/" + c.account);
            && d != c && IsContext(d) && BoundTo(s, d) == Some(id)
            && var t := Next(s, UnbindSession(ContextRef(c)));
               t.Ok? && BoundTo(t.value, d).None?
  {
    hide SessionKey, LegacySessionKey, IsContext;
    var d := c.(adapter := a, account := b + "/" + c.account);
    LegacyKeysCollide(c, a, b);
    KeysAreApart(c, d);
  }

  /** Unbinding an account or a channel changes the route of just the conversations that took it from there. */
  lemma UnbindingFallsBack(s: State, op: Op, c: ChannelContext)
    requires (op.UnbindAccount? || op.UnbindChannel?) && Next(s, op).Ok?
    ensures var t := Next(s, op).value;
            Chosen(t, c)
            == if op.UnbindAccount? && BoundTo(s, c).None? && AccountKey(c) == AccountOf(op.account) then
                 if c.channel in s.channels then Some(s.channels[c.channel]) else s.defaultId
               else if op.UnbindChannel? && BoundTo(s, c).None? && AccountKey(c) !in s.accounts
                       && c.channel == ChannelOf(op.channel) then
                 s.defaultId
               else Chosen(s, c)
  {
    hide SessionKey, LegacySessionKey, ChannelOf, AccountOf;
  }

  // ---- What else an operation leaves ---------------------------------------------------------------

  /** A resource update puts the new lists in place and changes nothing else about any Agent. */
  lemma ResourcesAreReplaced(s: State, op: Op)
    requires IsValid(s) && op.UpdateResources? && Next(s, op).Ok?
    ensures var t, a, b := Next(s, op).value, s.agents[op.id], Next(s, op).value.agents[op.id];
            && b.bindings["prompt"] == op.prompt && b.bindings["skill"] == op.skill && b.bindings["mcp"] == op.mcp
            && b.bindings["memory"] == (if op.memory.Some? then op.memory.value else a.bindings["memory"])
            && b.bindings["hook"] == (if op.hook.Some? then op.hook.value else a.bindings["hook"])
            && b.allowlist == (if op.allowlist.Some? then AsSet(op.allowlist.value) else a.allowlist)
            && b.(bindings := a.bindings, allowlist := a.allowlist) == a
            && t == s.(agents := s.agents[op.id := b])
  {
    hide AsSet, IsLowerIdentifier, HasCleanAccount, IsClosed, HasCleanKeys, Define, IsDefinition;
    var a := s.agents[op.id];
    assert IsDefinition(a);
    DefinedWithResources(a, op);
  }

  lemma DefinedWithResources(a: Agent, op: Op)
    requires IsDefinition(a) && op.UpdateResources? && Define(WithResources(a, op)).Ok?
    ensures var w := WithResources(a, op);
            && Define(w).value == w.(allowlist := AsSet(w.allowlist))
            && (op.allowlist.None? ==> AsSet(w.allowlist) == a.allowlist)
            && w.bindings.Keys == RESOURCE_TYPES
  {
    hide AsSet, AsTuple, DistinctNames, Clean, Strip, IsIdentifier, IsTeam, TrimmedSet, Trimmed, IsBinding;
    DefinitionsAreFixed(a);
    AsSetFixesTrimmed(a.allowlist);
  }

  /** Enabling or disabling an Agent changes that and nothing else. */
  lemma OnlyEnabledChanges(s: State, op: Op)
    requires IsValid(s) && op.SetEnabled? && Next(s, op).Ok?
    ensures Next(s, op).value == s.(agents := s.agents[op.id := s.agents[op.id].(enabled := op.enabled)])
  {
    hide IsDefinition, Define, IsLowerIdentifier, HasCleanAccount;
    var a := s.agents[op.id].(enabled := op.enabled);
    EnabledIsDefinition(s.agents[op.id], op.enabled);
    DefinitionsAreFixed(a);
  }

  lemma EnabledIsDefinition(a: Agent, enabled: bool)
    requires IsDefinition(a)
    ensures IsDefinition(a.(enabled := enabled))
  {
  }
}
