/**
 Agent definitions and resource bindings, which normalise their fields when they
 are built: `kirara_ai/agent_runtime/core.py`.
 */
module AgentDefinitions {
  import opened Wrappers
  import opened TextUnits
  import opened AgentIdentity

  datatype DefinitionError =
    | InvalidResourceType | InvalidDigest | InvalidVersionPolicy | WrongResourceType
    | InvalidOwner | NoModels | NegativeIterations | InvalidStreamMode | SelfDelegation

  const RESOURCE_TYPES: set<string> := {"prompt", "skill", "memory", "mcp", "hook"}
  const STREAM_MODES: set<string> := {"off", "aggregate", "incremental", "inherit"}
  const MAX_OWNER := 256

  datatype Binding = Binding(
    id: string, kind: string, version: string, digest: string,
    enabled: bool, permissions: seq<string>, source: string, policy: string)

  datatype Agent = Agent(
    id: string, owner: Option<string>, displayName: Option<string>, enabled: bool, workflow: Option<string>,
    models: seq<string>, providers: set<string>, capabilities: set<string>,
    bindings: map<string, seq<Binding>>, allowlist: set<string>,
    allowTools: bool, maxIterations: int, teammates: seq<string>, streamMode: string)

  // ---- Normalised collections -------------------------------------------------------------

  function AsTuple(values: seq<string>): seq<string>
  {
    if values == [] then []
    else
      var last := Strip(values[|values| - 1]);
      AsTuple(values[..|values| - 1]) + if last == "" then [] else [last]
  }

  lemma {:induction false} AsTupleIsTrimmed(values: seq<string>)
    ensures forall i :: 0 <= i < |AsTuple(values)| ==> Trimmed(AsTuple(values)[i])
  {
    hide Strip, Trimmed;
    if values != [] {
      AsTupleIsTrimmed(values[..|values| - 1]);
      TrimmedOrBlank(values[|values| - 1]);
    }
  }

  lemma TrimmedOrBlank(s: string)
    ensures Strip(s) == "" || Trimmed(Strip(s))
    ensures Trimmed(s) ==> Strip(s) == s
  {
    StripKeepsTrimmed(s);
  }

  lemma {:induction false} AsTupleKeepsTrimmed(values: seq<string>)
    requires forall i :: 0 <= i < |values| ==> Trimmed(values[i])
    ensures AsTuple(values) == values
  {
    hide Strip, IsSpace;
    if values != [] {
      var n := |values| - 1;
      var last := values[n];
      AsTupleKeepsTrimmed(values[..n]);
      TrimmedOrBlank(last);
      assert Trimmed(last);
      assert values == values[..n] + [last];
    }
  }

  function AsSet(values: set<string>): set<string>
  {
    set v | v in values && Strip(v) != "" :: Strip(v)
  }

  predicate TrimmedSet(values: set<string>)
  {
    forall v :: v in values ==> Trimmed(v)
  }

  lemma AsSetFixesTrimmed(values: set<string>)
    ensures TrimmedSet(AsSet(values))
    ensures TrimmedSet(values) ==> AsSet(values) == values
  {
    hide Strip;
    forall v | v in values ensures (Strip(v) == v <==> v == "" || Trimmed(v)) && (Strip(v) == "" || Trimmed(Strip(v))) {
      StripKeepsTrimmed(v);
    }
    if TrimmedSet(values) {
      forall v | v in values ensures v in AsSet(values) {
        assert Strip(v) == v;
      }
    }
  }

  /** Blank names and repetitions are dropped; the order of first appearance stays. */
  function DistinctNames(candidates: seq<string>): seq<string>
  {
    if candidates == [] then []
    else
      var n := |candidates| - 1;
      var name := Strip(candidates[n]);
      var before := DistinctNames(candidates[..n]);
      if name == "" || name in before then before else before + [name]
  }

  predicate IsTeam(names: seq<string>)
  {
    && (forall i :: 0 <= i < |names| ==> Trimmed(names[i]))
    && (forall i, j :: 0 <= i < j < |names| ==> names[i] != names[j])
  }

  lemma {:induction false} DistinctNamesIsTeam(candidates: seq<string>)
    ensures IsTeam(DistinctNames(candidates))
  {
    hide Strip, Trimmed;
    if candidates != [] {
      var n := |candidates| - 1;
      var name, before := Strip(candidates[n]), DistinctNames(candidates[..n]);
      DistinctNamesIsTeam(candidates[..n]);
      TrimmedOrBlank(candidates[n]);
      if name != "" && name !in before {
        assert DistinctNames(candidates) == before + [name];
      }
    }
  }

  lemma {:induction false} DistinctNamesCover(candidates: seq<string>, i: nat)
    requires i < |candidates| && Strip(candidates[i]) != ""
    ensures Strip(candidates[i]) in DistinctNames(candidates)
  {
    hide Strip;
    var n := |candidates| - 1;
    if i < n {
      DistinctNamesCover(candidates[..n], i);
    }
  }

  lemma {:induction false} DistinctNamesKeepsTeams(names: seq<string>)
    requires IsTeam(names)
    ensures DistinctNames(names) == names
  {
    hide Strip;
    if names != [] {
      var n := |names| - 1;
      DistinctNamesKeepsTeams(names[..n]);
      StripKeepsTrimmed(names[n]);
      assert names[n] !in names[..n];
    }
  }

  /** The loop over `teammate_agent_ids`: an Agent may not be its own teammate. */
  method CollectTeammates(candidates: seq<string>, id: string) returns (r: Result<seq<string>, DefinitionError>)
    requires id != ""
    ensures r == if id in DistinctNames(candidates) then Err(SelfDelegation) else Ok(DistinctNames(candidates))
  {
    hide Strip;
    var teammates: seq<string> := [];
    for i := 0 to |candidates|
      invariant teammates == DistinctNames(candidates[..i]) && id !in teammates
    {
      assert candidates[..i + 1][..i] == candidates[..i];
      var name := Strip(candidates[i]);
      if name == "" || name in teammates {
        continue;
      }
      if name == id {
        DistinctNamesCover(candidates, i);
        assert id in DistinctNames(candidates);
        return Err(SelfDelegation);
      }
      teammates := teammates + [name];
    }
    assert candidates[..|candidates|] == candidates;
    return Ok(teammates);
  }

  // ---- Resource bindings --------------------------------------------------------------------

  predicate IsDigest(s: string)
  {
    |s| == 64 && forall i :: 0 <= i < |s| ==> '0' <= s[i] <= '9' || 'a' <= s[i] <= 'f'
  }

  function DefineBinding(raw: Binding): Result<Binding, DefinitionError>
  {
    var kind := Lower(Strip(raw.kind));
    var digest := Lower(Strip(raw.digest));
    var policy := Lower(Strip(raw.policy));
    var version := Strip(raw.version);
    if kind !in RESOURCE_TYPES then Err(InvalidResourceType)
    else if !IsDigest(digest) then Err(InvalidDigest)
    else if policy != "fixed" && policy != "current" then Err(InvalidVersionPolicy)
    else Ok(Binding(Clean(Some(raw.id), "unknown-resource"), kind, if version == "" then "unversioned" else version,
                    digest, raw.enabled, AsTuple(raw.permissions), Clean(Some(raw.source), "local"), policy))
  }

  /** The bindings that exist: what `DefineBinding` can return. */
  predicate IsBinding(b: Binding)
  {
    && b.kind in RESOURCE_TYPES && IsDigest(b.digest) && (b.policy == "fixed" || b.policy == "current")
    && IsIdentifier(b.id) && IsIdentifier(b.source) && Trimmed(b.version)
    && forall i :: 0 <= i < |b.permissions| ==> Trimmed(b.permissions[i])
  }

  lemma LowerKeepsDigest(s: string)
    requires IsDigest(s)
    ensures Lower(s) == s && Strip(s) == s
  {
    hide Strip;
    StripKeepsTrimmed(s);
  }

  predicate IsWord(s: string)
  {
    s != "" && forall i :: 0 <= i < |s| ==> 'a' <= s[i] <= 'z'
  }

  lemma LowerKeepsWords(s: string)
    requires IsWord(s)
    ensures Lower(s) == s && Strip(s) == s
  {
    hide Strip;
    StripKeepsTrimmed(s);
  }

  lemma NamesAreWords(s: string)
    requires s in RESOURCE_TYPES || s == "fixed" || s == "current"
    ensures IsWord(s)
  {
  }

  lemma BindingsAreFixed(raw: Binding)
    ensures DefineBinding(raw).Ok? ==> IsBinding(DefineBinding(raw).value)
    ensures IsBinding(raw) <==> DefineBinding(raw) == Ok(raw)
  {
    hide Clean, Strip, IsDigest, AsTuple, Lower;
    CleaningFixesIdentifiers(Some(raw.id), "unknown-resource");
    CleaningFixesIdentifiers(Some(raw.source), "local");
    StripKeepsTrimmed(raw.version);
    AsTupleIsTrimmed(raw.permissions);
    if IsBinding(raw) {
      NamesAreWords(raw.kind);
      NamesAreWords(raw.policy);
      LowerKeepsWords(raw.kind);
      LowerKeepsWords(raw.policy);
      LowerKeepsDigest(raw.digest);
      AsTupleKeepsTrimmed(raw.permissions);
    }
  }

  // ---- Agents ------------------------------------------------------------------------------------

  predicate BindingsMatch(bindings: map<string, seq<Binding>>)
  {
    && bindings.Keys == RESOURCE_TYPES
    && forall kind, i :: kind in bindings && 0 <= i < |bindings[kind]| ==> bindings[kind][i].kind == kind
  }

  /** `AgentDefinition.__post_init__`. */
  function Define(raw: Agent): Result<Agent, DefinitionError>
  {
    var id := Clean(Some(raw.id), "agent");
    var owner := if raw.owner.None? then None else Some(Strip(raw.owner.value));
    var teammates := DistinctNames(raw.teammates);
    if owner.Some? && (owner.value == "" || |owner.value| > MAX_OWNER) then Err(InvalidOwner)
    else if raw.models == [] then Err(NoModels)
    else if raw.maxIterations < 0 then Err(NegativeIterations)
    else if raw.streamMode !in STREAM_MODES then Err(InvalidStreamMode)
    else if id in teammates then Err(SelfDelegation)
    else if !BindingsMatch(raw.bindings) then Err(WrongResourceType)
    else Ok(raw.(id := id, owner := owner, models := AsTuple(raw.models), providers := AsSet(raw.providers),
                 capabilities := AsSet(raw.capabilities), allowlist := AsSet(raw.allowlist), teammates := teammates))
  }

  predicate BindingsAreDefined(bindings: map<string, seq<Binding>>)
  {
    && BindingsMatch(bindings)
    && forall kind, i :: kind in bindings && 0 <= i < |bindings[kind]| ==> IsBinding(bindings[kind][i])
  }

  /** The Agents that exist.  Their model list may be empty: only blank entries were given. */
  predicate IsDefinition(a: Agent)
  {
    && IsIdentifier(a.id)
    && (a.owner.Some? ==> Trimmed(a.owner.value) && |a.owner.value| <= MAX_OWNER)
    && (forall i :: 0 <= i < |a.models| ==> Trimmed(a.models[i]))
    && TrimmedSet(a.providers) && TrimmedSet(a.capabilities) && TrimmedSet(a.allowlist)
    && IsTeam(a.teammates) && a.id !in a.teammates
    && a.maxIterations >= 0 && a.streamMode in STREAM_MODES
    && BindingsAreDefined(a.bindings)
  }

  lemma DefineGivesDefinitions(raw: Agent)
    requires Define(raw).Ok? && (BindingsMatch(raw.bindings) ==> BindingsAreDefined(raw.bindings))
    ensures IsDefinition(Define(raw).value)
  {
    hide Clean, Strip, AsTuple, AsSet, DistinctNames, BindingsMatch, BindingsAreDefined, IsTeam, IsIdentifier, TrimmedSet;
    CleaningFixesIdentifiers(Some(raw.id), "agent") by {
      assert IsIdentifier("agent") by { IsAgentIdentifier(); }
    }
    AsTupleIsTrimmed(raw.models);
    DistinctNamesIsTeam(raw.teammates);
    AsSetFixesTrimmed(raw.providers);
    AsSetFixesTrimmed(raw.capabilities);
    AsSetFixesTrimmed(raw.allowlist);
    if raw.owner.Some? {
      StripKeepsTrimmed(raw.owner.value);
    }
  }

  lemma IsAgentIdentifier()
    ensures IsIdentifier("agent") && IsIdentifier("default") && IsIdentifier("unknown")
  {
  }

  /**
   Normalisation is idempotent up to one case: rebuilding an existing Agent
   gives it back exactly when it has a non-blank model, and fails otherwise.
   */
  lemma DefinitionsAreFixed(a: Agent)
    requires IsDefinition(a)
    ensures Define(a) == if a.models == [] then Err(NoModels) else Ok(a)
  {
    hide Clean, Strip, AsTuple, AsSet, DistinctNames, IsIdentifier, TrimmedSet, IsTeam;
    CleaningFixesIdentifiers(Some(a.id), "agent") by {
      assert IsIdentifier("agent") by { IsAgentIdentifier(); }
    }
    AsTupleKeepsTrimmed(a.models);
    AsSetFixesTrimmed(a.providers);
    AsSetFixesTrimmed(a.capabilities);
    AsSetFixesTrimmed(a.allowlist);
    DistinctNamesKeepsTeams(a.teammates);
    if a.owner.Some? {
      StripKeepsTrimmed(a.owner.value);
    }
  }
}
