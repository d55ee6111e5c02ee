/**
 Dedup receipts for inbound events: `kirara_ai/im/inbound_receipts.py`.
 Every service claims, completes and retries rows of one shared table.
 */
module InboundReceipts {
  import opened Wrappers
  import TextUnits

  const MAX_EVENT_KEY_LENGTH := 128
  const MAX_CHAT_KEY_LENGTH := 256

  datatype ReceiptError = InvalidEventKey | ChannelRequired | AdapterInstanceRequired

  /** The rows one service may touch. */
  datatype Scope = Scope(channel: string, instance: string)

  /** The unique key of the table. */
  datatype Id = Id(scope: Scope, event: string)

  datatype Status = Processing | Retryable | Completed

  datatype Row = Row(chat: string, payload: Option<string>, status: Status, created: int, updated: int, completed: Option<int>)

  type Table = map<Id, Row>

  function Clip(s: string, n: nat): string
  {
    if |s| <= n then s else s[..n]
  }

  function NormalizeEventKey(event: string): Result<string, ReceiptError>
  {
    var key := TextUnits.Strip(event);
    if key == "" || |key| > MAX_EVENT_KEY_LENGTH then Err(InvalidEventKey) else Ok(key)
  }

  datatype Call =
    | Claim(event: string, chat: string, payload: Option<string>)
    | Complete(event: string)
    | Retry(event: string)
    | RecoverOnStartup

  /** One call by the service of `scope`, at time `now`. */
  datatype Action = Action(scope: Scope, call: Call, now: int)

  /** The row a call names; none when the event key is refused, or for a recovery. */
  function Target(a: Action): Option<Id>
  {
    if a.call.RecoverOnStartup? then None
    else
      var key := NormalizeEventKey(a.call.event);
      if key.Err? then None else Some(Id(a.scope, key.value))
  }

  predicate Grants(table: Table, a: Action)
  {
    a.call.Claim? && Target(a).Some? && (Target(a).value in table ==> table[Target(a).value].status.Retryable?)
  }

  function ClaimedRow(table: Table, id: Id, call: Call, now: int): Row
    requires call.Claim?
  {
    var chat := Clip(call.chat, MAX_CHAT_KEY_LENGTH);
    if id !in table then Row(chat, call.payload, Processing, now, now, None)
    else
      var payload := if call.payload.Some? then call.payload else table[id].payload;
      Row(chat, payload, Processing, table[id].created, now, None)
  }

  function RecoveredRow(row: Row, now: int): Row
  {
    row.(status := Retryable, updated := now, completed := None)
  }

  /** The rows a recovery of this scope re-opens. */
  function Interrupted(table: Table, scope: Scope): set<Id>
  {
    set id | id in table && id.scope == scope && table[id].status.Processing?
  }

  function Recovered(table: Table, ids: set<Id>, now: int): Table
  {
    map id | id in table :: if id in ids then RecoveredRow(table[id], now) else table[id]
  }

  function Perform(table: Table, a: Action): Table
  {
    if a.call.RecoverOnStartup? then Recovered(table, Interrupted(table, a.scope), a.now)
    else if Target(a).None? then table
    else
      var id := Target(a).value;
      if a.call.Claim? then
        if Grants(table, a) then table[id := ClaimedRow(table, id, a.call, a.now)] else table
      else if id !in table then table
      else if a.call.Complete? then
        table[id := table[id].(status := Completed, payload := None, completed := Some(a.now), updated := a.now)]
      else if table[id].status.Completed? then table
      else table[id := RecoveredRow(table[id], a.now)]
  }

  // ---- The service --------------------------------------------------------------------

  class Database {
    var rows: Table

    constructor ()
      ensures rows == map[]
    {
      rows := map[];
    }
  }

  class InboundReceiptService {
    const database: Database
    const scope: Scope

    constructor (database: Database, scope: Scope)
      ensures this.database == database && this.scope == scope
    {
      this.database := database;
      this.scope := scope;
    }

    /** `__init__`: two instance names with the same first 128 characters share their rows. */
    static method Open(database: Database, channel: string, instance: string)
      returns (r: Result<InboundReceiptService, ReceiptError>)
      ensures r.Ok? <==> TextUnits.Strip(channel) != "" && TextUnits.Strip(instance) != ""
      ensures r.Ok? ==> fresh(r.value) && r.value.database == database
      ensures r.Ok? ==>
                r.value.scope == Scope(Clip(TextUnits.Strip(channel), 32), Clip(TextUnits.Strip(instance), 128))
    {
      var channelValue, instanceValue := TextUnits.Strip(channel), TextUnits.Strip(instance);
      if channelValue == "" {
        return Err(ChannelRequired);
      }
      if instanceValue == "" {
        return Err(AdapterInstanceRequired);
      }
      var service := new InboundReceiptService(database, Scope(Clip(channelValue, 32), Clip(instanceValue, 128)));
      return Ok(service);
    }

    /** True exactly when this caller now owns the event. */
    method ClaimEvent(event: string, chat: string, payload: Option<string>, now: int) returns (r: Result<bool, ReceiptError>)
      modifies database
      ensures var a := Action(scope, Claim(event, chat, payload), now);
              && database.rows == Perform(old(database.rows), a)
              && (r.Err? <==> Target(a).None?)
              && (r.Ok? ==> r.value == Grants(old(database.rows), a))
    {
      hide NormalizeEventKey, Clip, Recovered, Interrupted;
      var key := NormalizeEventKey(event);
      if key.Err? {
        return Err(key.error);
      }
      var id := Id(scope, key.value);
      if id in database.rows && database.rows[id].status != Retryable {
        return Ok(false);
      }
      if id !in database.rows {
        var row := Row(Clip(chat, MAX_CHAT_KEY_LENGTH), payload, Processing, now, now, None);
        database.rows := database.rows[id := row];
      } else {
        var row := database.rows[id].(chat := Clip(chat, MAX_CHAT_KEY_LENGTH));
        if payload.Some? {
          row := row.(payload := payload);
        }
        row := row.(status := Processing, updated := now, completed := None);
        database.rows := database.rows[id := row];
      }
      return Ok(true);
    }

    method CompleteEvent(event: string, now: int) returns (r: Result<(), ReceiptError>)
      modifies database
      ensures var a := Action(scope, Complete(event), now);
              database.rows == Perform(old(database.rows), a) && (r.Err? <==> Target(a).None?)
    {
      hide NormalizeEventKey, Clip, Recovered, Interrupted;
      var key := NormalizeEventKey(event);
      if key.Err? {
        return Err(key.error);
      }
      var id := Id(scope, key.value);
      if id in database.rows {
        var row := database.rows[id].(status := Completed, payload := None);
        row := row.(completed := Some(now), updated := now);
        database.rows := database.rows[id := row];
      }
      return Ok(());
    }

    method RetryEvent(event: string, now: int) returns (r: Result<(), ReceiptError>)
      modifies database
      ensures var a := Action(scope, Retry(event), now);
              database.rows == Perform(old(database.rows), a) && (r.Err? <==> Target(a).None?)
    {
      hide NormalizeEventKey, Clip, Recovered, Interrupted;
      var key := NormalizeEventKey(event);
      if key.Err? {
        return Err(key.error);
      }
      var id := Id(scope, key.value);
      if id in database.rows && database.rows[id].status != Completed {
        var row := database.rows[id].(status := Retryable, completed := None, updated := now);
        database.rows := database.rows[id := row];
      }
      return Ok(());
    }

    method RecoverAll(now: int) returns (count: nat)
      modifies database
      ensures database.rows == Perform(old(database.rows), Action(scope, RecoverOnStartup, now))
      ensures count == |Interrupted(old(database.rows), scope)|
    {
      ghost var before := database.rows;
      var items := set id | id in database.rows && id.scope == scope && database.rows[id].status.Processing?;
      assert items == Interrupted(before, scope);
      var todo := items;
      while todo != {}
        invariant todo <= items
        invariant database.rows == Recovered(before, items - todo, now)
        decreases |todo|
      {
        var id :| id in todo;
        database.rows := database.rows[id := RecoveredRow(database.rows[id], now)];
        todo := todo - {id};
      }
      assert items - todo == items;
      return |items|;
    }
  }

  // ---- Whole runs, over any number of services and restarts -----------------------------------

  ghost function Run(run: seq<Action>): Table
  {
    if run == [] then map[] else Perform(Run(run[..|run| - 1]), run[|run| - 1])
  }

  ghost predicate GrantedAt(run: seq<Action>, i: nat, id: Id)
    requires i < |run|
  {
    Grants(Run(run[..i]), run[i]) && Target(run[i]) == Some(id)
  }

  /** Step i took the row from being processed back to being claimable. */
  ghost predicate ReopenedAt(run: seq<Action>, i: nat, id: Id)
    requires i < |run|
  {
    && id in Run(run[..i]) && Run(run[..i])[id].status.Processing?
    && id in Run(run[..i + 1]) && Run(run[..i + 1])[id].status.Retryable?
  }

  ghost function Claims(run: seq<Action>, id: Id): nat
  {
    if run == [] then 0
    else Claims(run[..|run| - 1], id) + if GrantedAt(run, |run| - 1, id) then 1 else 0
  }

  ghost function Reopens(run: seq<Action>, id: Id): nat
  {
    if run == [] then 0
    else Reopens(run[..|run| - 1], id) + if ReopenedAt(run, |run| - 1, id) then 1 else 0
  }

  /** What one step can do to a row. */
  lemma PerformOnRow(table: Table, a: Action, id: Id)
    ensures var t := Perform(table, a);
            && (id in table ==> id in t)
            && (id in t && id !in table ==> Grants(table, a) && Target(a) == Some(id) && t[id].status.Processing?)
            && (Grants(table, a) && Target(a) == Some(id) ==> id in t && t[id].status.Processing?)
            && (id in table && table[id].status.Completed? ==>
                  t[id].status.Completed? && !(Grants(table, a) && Target(a) == Some(id)))
            && (id in table && table[id].status.Retryable? && t[id].status.Processing? ==>
                  Grants(table, a) && Target(a) == Some(id))
            && (id in table && table[id].status.Processing? ==> !(Grants(table, a) && Target(a) == Some(id)))
  {
  }

  /**
   The dedup promise, exactly: an event being processed was claimed once more
   than it was re-opened, a claimable one as often, and a completed one at
   most once more.
   */
  lemma {:induction false} ClaimsAreBalanced(run: seq<Action>, id: Id)
    ensures var t := Run(run);
            && (id !in t ==> Claims(run, id) == 0 && Reopens(run, id) == 0)
            && (id in t && t[id].status.Processing? ==> Claims(run, id) == Reopens(run, id) + 1)
            && (id in t && t[id].status.Retryable? ==> Claims(run, id) == Reopens(run, id))
            && (id in t && t[id].status.Completed? ==>
                  Reopens(run, id) <= Claims(run, id) <= Reopens(run, id) + 1)
            && (id in t ==> Claims(run, id) >= 1)
  {
    hide Perform, Grants, Target;
    if run != [] {
      var n := |run| - 1;
      ClaimsAreBalanced(run[..n], id);
      PerformOnRow(Run(run[..n]), run[n], id);
      assert run[..n + 1] == run;
    }
  }

  /** Across any run, an event is claimed at most once plus once for every re-opening. */
  lemma ClaimsAreBounded(run: seq<Action>, id: Id)
    ensures Claims(run, id) <= 1 + Reopens(run, id)
  {
    ClaimsAreBalanced(run, id);
  }

  ghost predicate Finished(table: Table, id: Id)
  {
    id in table && table[id].status.Completed?
  }

  /** Once completed, an event is never granted again, whatever follows, restarts included. */
  lemma {:induction false} CompletedIsFinal(run: seq<Action>, later: seq<Action>, id: Id)
    requires Finished(Run(run), id)
    ensures Finished(Run(run + later), id)
    ensures Claims(run + later, id) == Claims(run, id)
    ensures Reopens(run + later, id) == Reopens(run, id)
    decreases |later|
  {
    hide Perform, Grants, Target;
    if later == [] {
      assert run + later == run;
    } else {
      var n := |later| - 1;
      var longer := run + later;
      assert longer[..|longer| - 1] == run + later[..n];
      assert longer[..|longer| - 1 + 1] == longer;
      CompletedIsFinal(run, later[..n], id);
      PerformOnRow(Run(run + later[..n]), later[n], id);
    }
  }

  /** What a call leaves of the event it names; of any other event it leaves everything. */
  lemma CallsDoTheirWork(table: Table, a: Action, id: Id)
    requires Target(a) == Some(id)
    ensures var t := Perform(table, a);
            && (a.call.Complete? ==>
                  if id in table then Finished(t, id) && t[id].completed == Some(a.now) && t[id].chat == table[id].chat
                  else t == table)
            && (a.call.Retry? ==>
                  if id in table && !table[id].status.Completed? then
                    id in t && t[id].status.Retryable? && t[id].payload == table[id].payload
                  else t == table)
            && (a.call.Claim? ==>
                  if Grants(table, a) then
                    id in t && t[id].status.Processing? && t[id].completed.None?
                    && t[id].chat == Clip(a.call.chat, MAX_CHAT_KEY_LENGTH)
                  else t == table)
            && (id in t ==> t[id].created == (if id in table then table[id].created else a.now))
            && (forall other :: other != id ==> (other in t <==> other in table) && (other in t ==> t[other] == table[other]))
  {
    hide NormalizeEventKey, Clip;
  }

  /** A completion of a known event finishes it for good: whatever follows, it is never granted again. */
  lemma CompletionIsForGood(run: seq<Action>, a: Action, later: seq<Action>, id: Id)
    requires a.call.Complete? && Target(a) == Some(id) && id in Run(run)
    ensures Finished(Run(run + [a] + later), id) && Claims(run + [a] + later, id) == Claims(run + [a], id)
  {
    hide Perform, Target, Claims, Run;
    RunStep(run, a);
    CallsDoTheirWork(Run(run), a, id);
    CompletedIsFinal(run + [a], later, id);
  }

  lemma RunStep(run: seq<Action>, a: Action)
    ensures Run(run + [a]) == Perform(Run(run), a)
  {
    hide Perform;
    assert (run + [a])[..|run + [a]| - 1] == run;
  }

  /** A retry of an event under way lets the next claim of it have it. */
  lemma RetryReopens(run: seq<Action>, a: Action, again: Action, id: Id)
    requires a.call.Retry? && Target(a) == Some(id) && id in Run(run) && !Run(run)[id].status.Completed?
    requires again.call.Claim? && Target(again) == Some(id)
    ensures Grants(Run(run + [a]), again)
  {
    hide Perform, Target, Run;
    RunStep(run, a);
    CallsDoTheirWork(Run(run), a, id);
  }

  lemma {:induction false} OwnedUntilReopened(run: seq<Action>, i: nat, j: nat, id: Id)
    requires i < j <= |run| && GrantedAt(run, i, id)
    requires forall m :: i < m < j ==> !ReopenedAt(run, m, id)
    ensures id in Run(run[..j]) && !Run(run[..j])[id].status.Retryable?
  {
    hide Perform, Grants, Target;
    assert run[..j][..j - 1] == run[..j - 1];
    if j > i + 1 {
      OwnedUntilReopened(run, i, j - 1, id);
      assert !ReopenedAt(run, j - 1, id);
    }
    PerformOnRow(Run(run[..j - 1]), run[j - 1], id);
  }

  /** Exclusive ownership: between two claims of one event lies a step that re-opened it. */
  lemma ClaimsAreSeparated(run: seq<Action>, i: nat, j: nat, id: Id)
    requires i < j < |run| && GrantedAt(run, i, id) && GrantedAt(run, j, id)
    ensures exists m :: i < m < j && ReopenedAt(run, m, id)
  {
    hide Perform, Run;
    if forall m :: i < m < j ==> !ReopenedAt(run, m, id) {
      OwnedUntilReopened(run, i, j, id);
    }
  }

  /** The payload the latest paying claim of the event brought along. */
  ghost function LastPayload(run: seq<Action>, id: Id): Option<string>
  {
    if run == [] then None
    else
      var a := run[|run| - 1];
      if GrantedAt(run, |run| - 1, id) && a.call.Claim? && a.call.payload.Some? then a.call.payload
      else LastPayload(run[..|run| - 1], id)
  }

  lemma PerformOnPayload(table: Table, a: Action, id: Id)
    requires id in table && table[id].status.Completed? ==> table[id].payload.None?
    ensures var t := Perform(table, a);
            id in t ==>
              && (t[id].status.Completed? ==> t[id].payload.None?)
              && (!t[id].status.Completed? ==>
                    t[id].payload == if Grants(table, a) && Target(a) == Some(id) && a.call.payload.Some?
                                     then a.call.payload else if id in table then table[id].payload else None)
              && (Grants(table, a) ==> a.call.Claim?)
  {
    hide NormalizeEventKey, Clip, Interrupted;
  }

  /**
   An unfinished event keeps its replayable payload through claims, retries
   and restarts; a completed one keeps no copy of the message.
   */
  lemma {:induction false} PayloadsFollowTheirEvents(run: seq<Action>, id: Id)
    ensures id !in Run(run) ==> LastPayload(run, id).None?
    ensures id in Run(run) && Run(run)[id].status.Completed? ==> Run(run)[id].payload.None?
    ensures id in Run(run) && !Run(run)[id].status.Completed? ==> Run(run)[id].payload == LastPayload(run, id)
  {
    hide Perform, Grants, Target;
    if run != [] {
      var n := |run| - 1;
      PayloadsFollowTheirEvents(run[..n], id);
      PerformOnRow(Run(run[..n]), run[n], id);
      PerformOnPayload(Run(run[..n]), run[n], id);
    }
  }

  /**
   After a restart nothing of this scope is stuck: each interrupted event is
   claimable, exactly one claim of it succeeds, and other scopes see no change.
   */
  lemma RecoveryUnblocks(table: Table, scope: Scope, now: int, again: Action, rival: Action)
    requires again.scope == scope && again.call.Claim? && Target(again).Some?
    requires rival.call.Claim? && Target(rival) == Target(again)
    ensures var t := Perform(table, Action(scope, RecoverOnStartup, now));
            && Interrupted(t, scope) == {}
            && (Target(again).value in Interrupted(table, scope) ==>
                  Grants(t, again) && !Grants(Perform(t, again), rival))
            && t.Keys == table.Keys
            && (forall id :: id in table && id !in Interrupted(table, scope) ==> t[id] == table[id])
  {
  }

  lemma OtherScopesAreUntouched(table: Table, a: Action, id: Id)
    requires id.scope != a.scope
    ensures id in Perform(table, a) <==> id in table
    ensures id in table ==> Perform(table, a)[id] == table[id]
  {
    hide NormalizeEventKey, Clip;
  }

  /** Whatever other channels and adapters do, restarts included, an event's row is as this scope left it. */
  lemma {:induction false} ScopesAreSeparate(run: seq<Action>, others: seq<Action>, id: Id)
    requires forall i :: 0 <= i < |others| ==> others[i].scope != id.scope
    ensures id in Run(run + others) <==> id in Run(run)
    ensures id in Run(run) ==> Run(run + others)[id] == Run(run)[id]
    decreases |others|
  {
    hide Perform;
    if others == [] {
      assert run + others == run;
    } else {
      var n := |others| - 1;
      assert (run + others)[..|run + others| - 1] == run + others[..n];
      ScopesAreSeparate(run, others[..n], id);
      OtherScopesAreUntouched(Run(run + others[..n]), others[n], id);
    }
  }
}
