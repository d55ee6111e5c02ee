/**
 Several price catalogs bound to one file: optimistic concurrency, rotating
 backups and price lookup of `kirara_ai/llm/pricing.py`.
 */
module PriceCatalogs {
  import opened Wrappers

  /** One price; `terms` are its currency, rates and label. */
  datatype Price = Price(id: string, provider: string, model: string, from: int, terms: string)

  /** The integrity digest: SHA-256 of the canonical document, taken as injective. */
  datatype Digest = Sha256(revision: nat, prices: seq<Price>)

  datatype Document = Document(revision: nat, prices: seq<Price>, integrity: Option<Digest>)

  function Seal(revision: nat, prices: seq<Price>): Document
  {
    Document(revision, prices, Some(Sha256(revision, prices)))
  }

  predicate SameSlot(a: Price, b: Price)
  {
    a.provider == b.provider && a.model == b.model && a.from == b.from
  }

  /** Version ids and (provider, model, time) slots are unique. */
  predicate Unique(prices: seq<Price>)
  {
    forall i, j :: 0 <= i < j < |prices| ==> prices[i].id != prices[j].id && !SameSlot(prices[i], prices[j])
  }

  predicate Collides(prices: seq<Price>, p: Price)
  {
    exists q :: q in prices && (q.id == p.id || SameSlot(q, p))
  }

  /** `_add_to_mapping`: the mapping keeps insertion order. */
  function AddPrice(prices: seq<Price>, p: Price): Option<seq<Price>>
  {
    if Collides(prices, p) then None else Some(prices + [p])
  }

  function AddAll(prices: seq<Price>, more: seq<Price>): Option<seq<Price>>
    decreases |more|
  {
    if more == [] then Some(prices)
    else
      match AddPrice(prices, more[0])
      case None => None
      case Some(added) => AddAll(added, more[1..])
  }

  function Without(prices: seq<Price>, id: string): (r: seq<Price>)
    ensures forall p :: p in r <==> p in prices && p.id != id
  {
    if prices == [] then []
    else (if prices[0].id == id then [] else [prices[0]]) + Without(prices[1..], id)
  }

  predicate HasId(prices: seq<Price>, id: string)
  {
    exists p :: p in prices && p.id == id
  }

  /** `_parse_document`: the digest, when there is one, must be right; no duplicates. */
  function Parse(d: Document): Option<seq<Price>>
  {
    if d.integrity.Some? && d.integrity != Some(Sha256(d.revision, d.prices)) then None
    else AddAll([], d.prices)
  }

  // ---- Shared file and private memory -------------------------------------------------

  const GENERATIONS := 3

  /** The catalog file, its numbered backups (newest first) and the legacy copy. */
  datatype Store = Store(file: Document, backups: seq<Option<Document>>, legacy: Option<Document>)

  /** What one catalog object remembers of the file. */
  datatype Memory = Memory(prices: seq<Price>, revision: nat, integrity: Option<Digest>)

  datatype Op =
    | Add(price: Price)
    | Update(price: Price)
    | Remove(id: string)
    | Import(document: Document)
    | Refresh
    | Restore(generation: Option<nat>)

  /** How an operation changes the list it is based on; `None` when it raises. */
  function Edited(op: Op, prices: seq<Price>): Option<seq<Price>>
    requires op.Add? || op.Update? || op.Remove? || op.Import?
  {
    match op
    case Add(p) => AddPrice(prices, p)
    case Update(p) => if HasId(prices, p.id) then AddPrice(Without(prices, p.id), p) else None
    case Remove(id) => if HasId(prices, id) then Some(Without(prices, id)) else None
    case Import(d) => match Parse(d) case None => None case Some(more) => AddAll(prices, more)
  }

  /** `_check_current`. */
  predicate IsCurrent(file: Document, mem: Memory, expected: Option<nat>)
  {
    && (expected.Some? ==> expected.value == file.revision)
    && (mem.integrity.Some? ==> file.integrity == mem.integrity)
  }

  /** `_persist_document(backup=True)`: every copy sees the state before the transaction. */
  function Publish(s: Store, d: Document): Store
    requires |s.backups| == GENERATIONS
  {
    Store(d, [Some(s.file), s.backups[0], s.backups[1]], Some(s.file))
  }

  function Selected(s: Store, generation: Option<nat>): Option<Document>
    requires |s.backups| == GENERATIONS
  {
    match generation
    case Some(g) => if 1 <= g <= GENERATIONS then s.backups[g - 1] else None
    case None => if s.backups[0].Some? then s.backups[0] else s.legacy
  }

  /** The price list an operation publishes, when it gets that far. */
  function Proposed(s: Store, mem: Memory, op: Op): Option<seq<Price>>
    requires |s.backups| == GENERATIONS && !op.Refresh?
  {
    if op.Restore? then
      match Selected(s, op.generation)
      case None => None
      case Some(d) => Parse(d)
    else Edited(op, mem.prices)
  }

  /** One operation of one catalog, under the file lock; `None` is an exception. */
  function Step(s: Store, mem: Memory, op: Op, expected: Option<nat>): Option<(Store, Memory)>
    requires |s.backups| == GENERATIONS
  {
    if op.Refresh? then
      match Parse(s.file)
      case None => None
      case Some(prices) => Some((s, Memory(prices, s.file.revision, s.file.integrity)))
    else
      match Proposed(s, mem, op)
      case None => None
      case Some(prices) =>
        if !IsCurrent(s.file, mem, expected) then None
        else
          var d := Seal(s.file.revision + 1, prices);
          Some((Publish(s, d), Memory(prices, d.revision, d.integrity)))
  }

  // ---- Everybody at once -----------------------------------------------------------------

  datatype Call = Call(catalog: nat, op: Op, expected: Option<nat>)

  /** `history` lists the documents the file held, the current one last. */
  datatype System = System(store: Store, catalogs: seq<Memory>, history: seq<Document>)

  predicate IsHonest(d: Document)
  {
    Unique(d.prices) && (d.integrity.Some? ==> d == Seal(d.revision, d.prices))
  }

  predicate Remembers(mem: Memory)
  {
    Unique(mem.prices) && (mem.integrity.Some? ==> mem.integrity == Some(Sha256(mem.revision, mem.prices)))
  }

  /** Documents and memories carry right digests, and the backups are the last documents. */
  predicate Valid(y: System)
  {
    && |y.store.backups| == GENERATIONS
    && y.history != [] && y.history[|y.history| - 1] == y.store.file
    && (forall d :: d in y.history ==> IsHonest(d))
    && (forall m :: m in y.catalogs ==> Remembers(m))
    && (forall g :: 0 <= g < GENERATIONS ==>
          y.store.backups[g] == if g + 2 <= |y.history| then Some(y.history[|y.history| - 2 - g]) else None)
    && y.store.legacy == y.store.backups[0]
    && (forall i, j :: 0 <= i < j < |y.history| ==> y.history[i].revision < y.history[j].revision)
  }

  function Perform(y: System, c: Call): (z: System)
    requires |y.store.backups| == GENERATIONS
    ensures |z.store.backups| == GENERATIONS
  {
    if c.catalog >= |y.catalogs| then y
    else
      match Step(y.store, y.catalogs[c.catalog], c.op, c.expected)
      case None => y
      case Some((store, mem)) =>
        System(store, y.catalogs[c.catalog := mem],
               if c.op.Refresh? then y.history else y.history + [store.file])
  }

  function Trace(y: System, calls: seq<Call>): (z: System)
    requires |y.store.backups| == GENERATIONS
    ensures |z.store.backups| == GENERATIONS
    decreases |calls|
  {
    if calls == [] then y else Perform(Trace(y, calls[..|calls| - 1]), calls[|calls| - 1])
  }

  predicate Commits(y: System, c: Call)
    requires |y.store.backups| == GENERATIONS
  {
    !c.op.Refresh? && c.catalog < |y.catalogs| && Step(y.store, y.catalogs[c.catalog], c.op, c.expected).Some?
  }

  // ---- Unique price lists -------------------------------------------------------------------

  lemma AddKeepsUnique(prices: seq<Price>, p: Price)
    requires Unique(prices) && AddPrice(prices, p).Some?
    ensures Unique(AddPrice(prices, p).value)
  {
    var added := prices + [p];
    forall i, j | 0 <= i < j < |added| ensures added[i].id != added[j].id && !SameSlot(added[i], added[j]) {
      assert prices[i] in prices;
    }
  }

  lemma {:induction false} AddAllKeepsUnique(prices: seq<Price>, more: seq<Price>)
    requires Unique(prices) && AddAll(prices, more).Some?
    ensures Unique(AddAll(prices, more).value)
    decreases |more|
  {
    if more != [] {
      AddKeepsUnique(prices, more[0]);
      AddAllKeepsUnique(AddPrice(prices, more[0]).value, more[1..]);
    }
  }

  lemma UniqueCons(p: Price, rest: seq<Price>)
    requires Unique(rest) && forall q :: q in rest ==> p.id != q.id && !SameSlot(p, q)
    ensures Unique([p] + rest)
  {
    hide SameSlot;
    var all := [p] + rest;
    forall i, j | 0 <= i < j < |all| ensures all[i].id != all[j].id && !SameSlot(all[i], all[j]) {
      assert all[j] == rest[j - 1] && rest[j - 1] in rest;
      assert i > 0 ==> all[i] == rest[i - 1];
    }
  }

  lemma {:induction false} WithoutKeepsUnique(prices: seq<Price>, id: string)
    requires Unique(prices)
    ensures Unique(Without(prices, id))
  {
    hide SameSlot;
    if prices != [] {
      WithoutKeepsUnique(prices[1..], id);
      if prices[0].id != id {
        var rest := Without(prices[1..], id);
        forall q | q in rest ensures prices[0].id != q.id && !SameSlot(prices[0], q) {
          assert q in prices[1..];
          var j :| 0 <= j < |prices[1..]| && prices[1..][j] == q;
          assert prices[j + 1] == q;
        }
        UniqueCons(prices[0], rest);
      }
    }
  }

  /** A list without duplicates parses to itself, and nothing else parses. */
  lemma {:induction false} ParseOfUnique(prices: seq<Price>, more: seq<Price>)
    requires Unique(prices)
    ensures AddAll(prices, more) == if Unique(prices + more) then Some(prices + more) else None
    decreases |more|
  {
    if more == [] {
      assert prices + more == prices;
    } else {
      var p := more[0];
      assert (prices + [p]) + more[1..] == prices + more;
      if Collides(prices, p) {
        var q :| q in prices && (q.id == p.id || SameSlot(q, p));
        var k :| 0 <= k < |prices| && prices[k] == q;
        assert (prices + more)[k] == q && (prices + more)[|prices|] == p;
      } else {
        AddKeepsUnique(prices, p);
        ParseOfUnique(prices + [p], more[1..]);
      }
    }
  }

  lemma ProposedIsUnique(y: System, mem: Memory, op: Op)
    requires Valid(y) && Remembers(mem) && !op.Refresh? && Proposed(y.store, mem, op).Some?
    ensures Unique(Proposed(y.store, mem, op).value)
  {
    match op
    case Restore(generation) => AddAllKeepsUnique([], Selected(y.store, generation).value.prices);
    case Add(p) => AddKeepsUnique(mem.prices, p);
    case Update(p) =>
      WithoutKeepsUnique(mem.prices, p.id);
      AddKeepsUnique(Without(mem.prices, p.id), p);
    case Remove(id) => WithoutKeepsUnique(mem.prices, id);
    case Import(d) => AddAllKeepsUnique(mem.prices, Parse(d).value);
  }

  // ---- The concurrency claims -----------------------------------------------------------------

  /** Every operation of every catalog keeps the system valid. */
  lemma PerformKeepsValid(y: System, c: Call)
    requires Valid(y)
    ensures Valid(Perform(y, c))
  {
    hide Parse, Proposed, Unique;
    var z := Perform(y, c);
    if c.catalog < |y.catalogs| {
      var mem := y.catalogs[c.catalog];
      var r := Step(y.store, mem, c.op, c.expected);
      if r.Some? {
        assert mem in y.catalogs;
        assert y.store.file in y.history;
        if c.op.Refresh? {
          RefreshedRemembers(y);
        } else {
          ProposedIsUnique(y, mem, c.op);
        }
        assert Remembers(r.value.1);
        forall m | m in z.catalogs ensures Remembers(m) {
          assert m == r.value.1 || m in y.catalogs;
        }
      }
    }
  }

  lemma RefreshedRemembers(y: System)
    requires Valid(y)
    ensures Parse(y.store.file) == Some(y.store.file.prices)
  {
    assert y.store.file in y.history;
    ParseOfUnique([], y.store.file.prices);
    assert [] + y.store.file.prices == y.store.file.prices;
  }

  /**
   The guard of `_check_current`, exactly: a commit is let through when the
   expected revision is right and the catalog either remembers the very
   document in the file or was loaded from one without a digest.
   */
  lemma CommitIsLetThroughIff(y: System, mem: Memory, expected: Option<nat>)
    requires Valid(y) && Remembers(mem)
    ensures IsCurrent(y.store.file, mem, expected) <==>
            && (expected.Some? ==> expected.value == y.store.file.revision)
            && (mem.integrity.None? || Seal(mem.revision, mem.prices) == y.store.file)
  {
    assert y.store.file in y.history;
  }

  /** The file as if the operation were alone: based on the file's own prices. */
  function Serial(s: Store, op: Op): Store
    requires |s.backups| == GENERATIONS
  {
    if op.Refresh? then s
    else
      match Proposed(s, Memory(s.file.prices, s.file.revision, s.file.integrity), op)
      case None => s
      case Some(prices) => Publish(s, Seal(s.file.revision + 1, prices))
  }

  function SerialTrace(y: System, calls: seq<Call>): (s: Store)
    requires |y.store.backups| == GENERATIONS
    ensures |s.backups| == GENERATIONS
    decreases |calls|
  {
    if calls == [] then y.store
    else
      var before := calls[..|calls| - 1];
      var last := calls[|calls| - 1];
      var s := SerialTrace(y, before);
      if Commits(Trace(y, before), last) then Serial(s, last.op) else s
  }

  /** Every catalog, and the file, carry a digest. */
  predicate Guarded(y: System)
  {
    y.store.file.integrity.Some? && forall m :: m in y.catalogs ==> m.integrity.Some?
  }

  /**
   No lost update: along any interleaving, the file is what the successful
   operations give when they run one after another, each on the current file.
   */
  lemma {:induction false} NoLostUpdate(y: System, calls: seq<Call>)
    requires Valid(y) && Guarded(y)
    ensures var z := Trace(y, calls);
            Valid(z) && Guarded(z) && z.store == SerialTrace(y, calls)
    decreases |calls|
  {
    if calls != [] {
      var before, last := calls[..|calls| - 1], calls[|calls| - 1];
      NoLostUpdate(y, before);
      var z := Trace(y, before);
      PerformKeepsValid(z, last);
      PerformKeepsGuarded(z, last);
      if Commits(z, last) {
        assert z.catalogs[last.catalog] in z.catalogs;
        CommitIsLetThroughIff(z, z.catalogs[last.catalog], last.expected);
      }
    }
  }

  lemma PerformKeepsGuarded(y: System, c: Call)
    requires |y.store.backups| == GENERATIONS && Guarded(y)
    ensures Guarded(Perform(y, c))
  {
    hide Parse, Proposed;
  }

  /** A call that raises changes neither the file nor any memory; a commit adds one revision. */
  lemma FailedCallsChangeNothing(y: System, c: Call)
    requires Valid(y) && c.catalog < |y.catalogs|
    ensures var z := Perform(y, c);
            && (Step(y.store, y.catalogs[c.catalog], c.op, c.expected).None? ==> z == y)
            && (Commits(y, c) ==>
                  && z.store.file.revision == y.store.file.revision + 1
                  && z.history == y.history + [z.store.file]
                  && z.catalogs[c.catalog].prices == z.store.file.prices)
            && (!Commits(y, c) ==> z.store == y.store)
            && (forall i :: 0 <= i < |y.catalogs| && i != c.catalog ==> z.catalogs[i] == y.catalogs[i])
  {
    hide Parse, Proposed;
  }

  /** Backup g holds the document from g commits earlier, through any run from a fresh file. */
  lemma {:induction false} BackupsAreHistory(y: System, calls: seq<Call>, g: nat)
    requires Valid(y) && 1 <= g <= GENERATIONS
    ensures var z := Trace(y, calls);
            z.store.backups[g - 1] == if g < |z.history| then Some(z.history[|z.history| - 1 - g]) else None
  {
    TraceKeepsValid(y, calls);
  }

  lemma {:induction false} TraceKeepsValid(y: System, calls: seq<Call>)
    requires Valid(y)
    ensures Valid(Trace(y, calls))
    decreases |calls|
  {
    if calls != [] {
      TraceKeepsValid(y, calls[..|calls| - 1]);
      PerformKeepsValid(Trace(y, calls[..|calls| - 1]), calls[|calls| - 1]);
    }
  }

  // ---- What the operations do to the prices ---------------------------------------------------

  /** The price with this id. */
  function Find(prices: seq<Price>, id: string): Option<Price>
  {
    if prices == [] then None
    else if prices[0].id == id then Some(prices[0]) else Find(prices[1..], id)
  }

  lemma {:induction false} FindIs(prices: seq<Price>, id: string)
    ensures HasId(prices, id) <==> Find(prices, id).Some?
    ensures Find(prices, id).Some? ==> Find(prices, id).value in prices && Find(prices, id).value.id == id
  {
    if prices != [] {
      FindIs(prices[1..], id);
      assert prices == [prices[0]] + prices[1..];
    }
  }

  lemma {:induction false} FindInConcat(a: seq<Price>, b: seq<Price>, id: string)
    ensures Find(a + b, id) == if Find(a, id).Some? then Find(a, id) else Find(b, id)
  {
    if a == [] {
      assert a + b == b;
    } else {
      assert (a + b)[1..] == a[1..] + b;
      FindInConcat(a[1..], b, id);
    }
  }

  lemma {:induction false} FindInRest(prices: seq<Price>, gone: string, id: string)
    requires Unique(prices)
    ensures Find(Without(prices, gone), id) == if id == gone then None else Find(prices, id)
  {
    hide SameSlot;
    if prices != [] {
      assert Unique(prices[1..]);
      FindInRest(prices[1..], gone, id);
      FindInConcat(if prices[0].id == gone then [] else [prices[0]], Without(prices[1..], gone), id);
      FindIs(prices[1..], id);
    }
  }

  lemma AddedIsFound(prices: seq<Price>, p: Price, id: string)
    requires AddPrice(prices, p).Some?
    ensures Find(AddPrice(prices, p).value, id) == if id == p.id then Some(p) else Find(prices, id)
  {
    FindInConcat(prices, [p], id);
    FindIs(prices, id);
  }

  /** What stood under this id before an edit, and what stands there behind it. */
  predicate IsPointwise(op: Op, id: string, before: Option<Price>, after: Option<Price>)
  {
    match op
    case Add(p) => if id == p.id then before.None? && after == Some(p) else after == before
    case Update(p) => if id == p.id then before.Some? && after == Some(p) else after == before
    case Remove(gone) => if id == gone then before.Some? && after.None? else after == before
    case Import(d) =>
      && after == (if before.Some? then before else Find(d.prices, id))
      && (before.None? || Find(d.prices, id).None?)
    case _ => true
  }

  /**
   Edits, price by price: an added or updated price is found under its id, a
   removed one is not, imported ones are found unless the catalog had them, and
   every other price stays what it was.
   */
  lemma EditsArePointwise(prices: seq<Price>, op: Op, id: string)
    requires Unique(prices) && (op.Add? || op.Update? || op.Remove? || op.Import?) && Edited(op, prices).Some?
    ensures IsPointwise(op, id, Find(prices, id), Find(Edited(op, prices).value, id))
  {
    hide SameSlot, Unique, Without, Parse;
    FindIs(prices, id);
    match op
    case Add(p) => AddedIsFound(prices, p, id);
    case Update(p) =>
      AddedIsFound(Without(prices, p.id), p, id);
      FindInRest(prices, p.id, id);
    case Remove(gone) => FindInRest(prices, gone, id);
    case Import(d) =>
      ImportIsConcat(prices, d);
      FindInConcat(prices, d.prices, id);
      if Find(prices, id).Some? && Find(d.prices, id).Some? {
        FoundTwiceIsNotUnique(prices, d.prices, id);
      }
  }

  lemma ImportIsConcat(prices: seq<Price>, d: Document)
    requires Unique(prices) && Edited(Import(d), prices).Some?
    ensures Edited(Import(d), prices) == Some(prices + d.prices) && Unique(prices + d.prices)
  {
    hide SameSlot;
    ParseOfUnique([], d.prices);
    assert [] + d.prices == d.prices;
    ParseOfUnique(prices, d.prices);
  }

  lemma FoundTwiceIsNotUnique(a: seq<Price>, b: seq<Price>, id: string)
    requires Find(a, id).Some? && Find(b, id).Some?
    ensures !Unique(a + b)
  {
    hide SameSlot, Find;
    FindIs(a, id);
    FindIs(b, id);
    var i :| 0 <= i < |a| && a[i] == Find(a, id).value;
    var j :| 0 <= j < |b| && b[j] == Find(b, id).value;
    assert (a + b)[i].id == (a + b)[|a| + j].id;
  }

  /**
   Restoring generation g publishes, as the next revision, the prices of the
   document from g commits earlier; without a number, those of the one before.
   It does so exactly when there is such a document and the guard lets it through.
   */
  lemma RestoreGoesBack(y: System, c: Call)
    requires Valid(y) && c.catalog < |y.catalogs| && c.op.Restore?
    ensures var g := if c.op.generation.Some? then c.op.generation.value else 1;
            && (Commits(y, c) <==>
                  1 <= g <= GENERATIONS && g < |y.history| && IsCurrent(y.store.file, y.catalogs[c.catalog], c.expected))
            && (Commits(y, c) ==>
                  Perform(y, c).store.file == Seal(y.store.file.revision + 1, y.history[|y.history| - 1 - g].prices))
  {
    hide Parse, Unique, AddAll;
    var g := if c.op.generation.Some? then c.op.generation.value else 1;
    if 1 <= g <= GENERATIONS && g < |y.history| {
      assert y.store.backups[g - 1] == Some(y.history[|y.history| - 1 - g]);
      OldDocumentParses(y, y.history[|y.history| - 1 - g]);
    }
  }

  lemma OldDocumentParses(y: System, d: Document)
    requires Valid(y) && d in y.history
    ensures Parse(d) == Some(d.prices)
  {
    hide SameSlot;
    ParseOfUnique([], d.prices);
    assert [] + d.prices == d.prices;
  }

  /** A freshly created file and any number of catalogs bound to it. */
  function Fresh(n: nat): System
  {
    var file := Seal(0, []);
    System(Store(file, [None, None, None], None), seq(n, _ => Memory([], 0, file.integrity)), [file])
  }

  /** From a fresh file on, every run is covered by the lemmas above. */
  lemma FreshRunsAreCovered(n: nat, calls: seq<Call>)
    ensures var z := Trace(Fresh(n), calls);
            Valid(z) && Guarded(z) && z.store == SerialTrace(Fresh(n), calls)
  {
    NoLostUpdate(Fresh(n), calls);
  }

  /** Two catalogs loaded from a file without a digest: the second commit drops the first one's price. */
  lemma UnguardedUpdateIsLost(a: Price, b: Price)
    requires a.id != b.id && !SameSlot(a, b)
    ensures var file := Document(0, [], None);
            var y := System(Store(file, [None, None, None], None),
                            [Memory([], 0, None), Memory([], 0, None)], [file]);
            var calls := [Call(0, Add(a), None), Call(1, Add(b), None)];
            && Valid(y) && !Guarded(y)
            && Commits(y, calls[0]) && Commits(Perform(y, calls[0]), calls[1])
            && Perform(Perform(y, calls[0]), calls[1]).store.file.prices == [b]
  {
  }

  /**
   Exactly when a catalog without a digest loses nothing: each edit it could
   make is the edit of the file's own prices just when it holds those prices.
   Nothing in the guard checks that.
   */
  lemma UnguardedIsSerialIff(s: Store, mem: Memory)
    requires |s.backups| == GENERATIONS && mem.integrity.None?
    ensures IsCurrent(s.file, mem, None)
    ensures (forall op: Op :: !op.Refresh? ==>
               Proposed(s, mem, op) == Proposed(s, Memory(s.file.prices, s.file.revision, s.file.integrity), op))
            <==> mem.prices == s.file.prices
  {
    var current := Memory(s.file.prices, s.file.revision, s.file.integrity);
    var nothing := Import(Document(0, [], None));
    assert Proposed(s, mem, nothing) == Some(mem.prices) && Proposed(s, current, nothing) == Some(s.file.prices);
  }

  // ---- Price lookup ------------------------------------------------------------------------------

  predicate Matches(p: Price, provider: string, model: string, at: int)
  {
    p.provider == provider && p.model == model && p.from <= at
  }

  /** `resolve`: the matching price that took effect last; `None` when none matches. */
  method Resolve(prices: seq<Price>, provider: string, model: string, at: int) returns (r: Option<Price>)
    ensures r.None? <==> forall p :: p in prices ==> !Matches(p, provider, model, at)
    ensures r.Some? ==> r.value in prices && Matches(r.value, provider, model, at)
    ensures r.Some? ==> forall p :: p in prices && Matches(p, provider, model, at) ==> p.from <= r.value.from
  {
    r := None;
    for i := 0 to |prices|
      invariant r.None? <==> forall p :: p in prices[..i] ==> !Matches(p, provider, model, at)
      invariant r.Some? ==> r.value in prices && Matches(r.value, provider, model, at)
      invariant r.Some? ==> forall p :: p in prices[..i] && Matches(p, provider, model, at) ==> p.from <= r.value.from
    {
      assert prices[..i + 1] == prices[..i] + [prices[i]];
      if Matches(prices[i], provider, model, at) && (r.None? || r.value.from < prices[i].from) {
        r := Some(prices[i]);
      }
    }
    assert prices[..|prices|] == prices;
  }

  /** Slots are unique, so the price found does not depend on the order of the list. */
  lemma LatestPriceIsUnique(prices: seq<Price>, provider: string, model: string, at: int, a: Price, b: Price)
    requires Unique(prices) && a in prices && b in prices
    requires Matches(a, provider, model, at) && Matches(b, provider, model, at)
    requires forall p :: p in prices && Matches(p, provider, model, at) ==> p.from <= a.from && p.from <= b.from
    ensures a == b
  {
    var i :| 0 <= i < |prices| && prices[i] == a;
    var j :| 0 <= j < |prices| && prices[j] == b;
    if i != j {
      assert SameSlot(a, b);
    }
  }

  // ---- The objects --------------------------------------------------------------------------------

  /** The file and its backups, shared by every catalog bound to it. */
  class SharedFile {
    var store: Store

    constructor (store: Store)
      ensures this.store == store
    {
      this.store := store;
    }
  }

  class PriceCatalog {
    const shared: SharedFile
    var prices: seq<Price>
    var revision: nat
    var integrity: Option<Digest>

    /** `load`: the document in the file. */
    constructor (shared: SharedFile)
      requires |shared.store.backups| == GENERATIONS && Parse(shared.store.file).Some?
      ensures this.shared == shared
      ensures View() == Memory(Parse(shared.store.file).value, shared.store.file.revision, shared.store.file.integrity)
    {
      this.shared := shared;
      prices := Parse(shared.store.file).value;
      revision := shared.store.file.revision;
      integrity := shared.store.file.integrity;
    }

    function View(): Memory
      reads this
    {
      Memory(prices, revision, integrity)
    }

    /** The new state of file and catalog is `r`, or nothing changed and the call raised. */
    twostate predicate Becomes(r: Option<(Store, Memory)>, ok: bool)
      reads this, shared
    {
      && (ok <==> r.Some?)
      && shared.store == (if ok then r.value.0 else old(shared.store))
      && View() == (if ok then r.value.1 else old(View()))
    }

    /** `_commit_versions`: read, check, persist with backups, and only then remember. */
    method CommitVersions(updated: seq<Price>, expected: Option<nat>) returns (ok: bool)
      requires |shared.store.backups| == GENERATIONS
      modifies this, shared
      ensures ok <==> IsCurrent(old(shared.store.file), old(View()), expected)
      ensures ok ==> var d := Seal(old(shared.store.file.revision) + 1, updated);
                     shared.store == Publish(old(shared.store), d) && View() == Memory(updated, d.revision, d.integrity)
      ensures !ok ==> shared.store == old(shared.store) && View() == old(View())
    {
      var current := shared.store.file;
      if !IsCurrent(current, View(), expected) {
        return false;
      }
      var document := Seal(current.revision + 1, updated);
      shared.store := Publish(shared.store, document);
      prices, revision, integrity := updated, document.revision, document.integrity;
      return true;
    }

    method AddVersion(p: Price, expected: Option<nat>) returns (ok: bool)
      requires |shared.store.backups| == GENERATIONS
      modifies this, shared
      ensures Becomes(Step(old(shared.store), old(View()), Add(p), expected), ok)
    {
      var updated := AddPrice(prices, p);
      if updated.None? {
        return false;
      }
      ok := CommitVersions(updated.value, expected);
    }

    method UpdateVersion(p: Price, expected: Option<nat>) returns (ok: bool)
      requires |shared.store.backups| == GENERATIONS
      modifies this, shared
      ensures Becomes(Step(old(shared.store), old(View()), Update(p), expected), ok)
    {
      if !HasId(prices, p.id) {
        return false;
      }
      var updated := AddPrice(Without(prices, p.id), p);
      if updated.None? {
        return false;
      }
      ok := CommitVersions(updated.value, expected);
    }

    method RemoveVersion(id: string, expected: Option<nat>) returns (ok: bool)
      requires |shared.store.backups| == GENERATIONS
      modifies this, shared
      ensures Becomes(Step(old(shared.store), old(View()), Remove(id), expected), ok)
    {
      if !HasId(prices, id) {
        return false;
      }
      ok := CommitVersions(Without(prices, id), expected);
    }

    method ImportDocument(d: Document, expected: Option<nat>) returns (ok: bool)
      requires |shared.store.backups| == GENERATIONS
      modifies this, shared
      ensures Becomes(Step(old(shared.store), old(View()), Import(d), expected), ok)
    {
      var imported := Parse(d);
      if imported.None? {
        return false;
      }
      var updated: Option<seq<Price>> := Some(prices);
      var i := 0;
      while i < |imported.value| && updated.Some?
        invariant 0 <= i <= |imported.value|
        invariant AddAll(prices, imported.value)
               == if updated.Some? then AddAll(updated.value, imported.value[i..]) else None
        decreases |imported.value| - i
      {
        assert imported.value[i..][1..] == imported.value[i + 1..];
        updated := AddPrice(updated.value, imported.value[i]);
        i := i + 1;
      }
      if updated.None? {
        return false;
      }
      ok := CommitVersions(updated.value, expected);
    }

    method RefreshCatalog() returns (ok: bool)
      requires |shared.store.backups| == GENERATIONS
      modifies this
      ensures Becomes(Step(old(shared.store), old(View()), Refresh, None), ok)
    {
      var parsed := Parse(shared.store.file);
      if parsed.None? {
        return false;
      }
      prices, revision, integrity := parsed.value, shared.store.file.revision, shared.store.file.integrity;
      return true;
    }

    method RestoreBackup(generation: Option<nat>, expected: Option<nat>) returns (ok: bool)
      requires |shared.store.backups| == GENERATIONS
      modifies this, shared
      ensures Becomes(Step(old(shared.store), old(View()), Restore(generation), expected), ok)
    {
      var selected := Selected(shared.store, generation);
      if selected.None? || !IsCurrent(shared.store.file, View(), expected) {
        return false;
      }
      var parsed := Parse(selected.value);
      if parsed.None? {
        return false;
      }
      var document := Seal(shared.store.file.revision + 1, parsed.value);
      shared.store := Publish(shared.store, document);
      prices, revision, integrity := parsed.value, document.revision, document.integrity;
      return true;
    }
  }
}
