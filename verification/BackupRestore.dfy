/**
 Restoring a backup by renames, all or nothing: `_restore_backup`,
 `_replace_component` and `_restore_previous_components`.
 */
module BackupRestore {
  type Component = string
  type Content = string
  type Tree = map<Component, Content>

  /** Every component of `restored` comes from `staged`, every other one from `before`. */
  ghost predicate IsRestored(data: Tree, before: Tree, staged: Tree, restored: set<Component>)
  {
    forall c ::
      && (c in restored ==> c in staged && c in data && data[c] == staged[c])
      && (c !in restored ==> (c in data <==> c in before) && (c in data ==> data[c] == before[c]))
  }

  /** What the directory of previous versions must hold to undo `restored`. */
  ghost predicate CanUndo(previous: Tree, before: Tree, restored: set<Component>)
  {
    forall c ::
      && (c in previous <==> c in restored && c in before)
      && (c in previous ==> previous[c] == before[c])
  }

  /** A restore decides the data: what was restored is staged, and nothing else moved. */
  lemma RestoredIsUnique(a: Tree, b: Tree, before: Tree, staged: Tree, restored: set<Component>)
    requires IsRestored(a, before, staged, restored) && IsRestored(b, before, staged, restored)
    ensures a == b
  {
    forall c ensures (c in a <==> c in b) && (c in a ==> a[c] == b[c]) {
      assert c in restored || c !in restored;
    }
    assert a.Keys == b.Keys;
  }

  /** Some file-system step in this stretch of time raised. */
  ghost predicate Raised(fails: nat -> bool, start: nat, end: nat)
  {
    exists t :: start <= t < end && fails(t)
  }

  /** Two of them did. */
  ghost predicate RaisedTwice(fails: nat -> bool, start: nat, end: nat)
  {
    exists f, t :: start <= f < t < end && fails(f) && fails(t)
  }

  lemma RaisedLonger(fails: nat -> bool, start: nat, from: nat, to: nat, end: nat)
    requires start <= from && to <= end
    ensures Raised(fails, from, to) ==> Raised(fails, start, end)
    ensures RaisedTwice(fails, from, to) ==> RaisedTwice(fails, start, end)
  {
  }

  lemma StepRaised(fails: nat -> bool, start: nat, t: nat)
    requires start <= t
    ensures Raised(fails, start, t + 1) <==> Raised(fails, start, t) || fails(t)
  {
  }

  lemma NothingRaised(fails: nat -> bool, start: nat)
    ensures !Raised(fails, start, start)
  {
  }

  lemma RaisedInEither(fails: nat -> bool, start: nat, middle: nat, end: nat)
    requires start <= middle <= end
    ensures Raised(fails, start, end) <==> Raised(fails, start, middle) || Raised(fails, middle, end)
  {
  }

  lemma RaisedInBoth(fails: nat -> bool, start: nat, middle: nat, end: nat)
    requires start <= middle <= end && Raised(fails, start, middle) && Raised(fails, middle, end)
    ensures RaisedTwice(fails, start, end)
  {
    var f :| start <= f < middle && fails(f);
    var t :| middle <= t < end && fails(t);
    assert start <= f < t < end && fails(f) && fails(t);
  }

  class DataDirectory {
    var data: Tree
    var staged: Tree
    var previous: Tree
    var clock: nat
    /** Which file-system steps raise. */
    const fails: nat -> bool
    /** What a deletion that raises leaves of a component. */
    const debris: nat -> Content

    constructor (data: Tree, staged: Tree, fails: nat -> bool, debris: nat -> Content)
      ensures this.data == data && this.staged == staged && previous == map[]
      ensures this.fails == fails && this.debris == debris && clock == 0
    {
      this.data, this.staged, this.fails, this.debris := data, staged, fails, debris;
      previous, clock := map[], 0;
    }

    method Step() returns (ok: bool)
      modifies `clock
      ensures ok == !fails(old(clock)) && clock == old(clock) + 1
    {
      ok := !fails(clock);
      clock := clock + 1;
    }

    /** `os.replace(target, previous)`. */
    method MoveAside(c: Component) returns (ok: bool)
      requires c in data
      modifies `clock, `data, `previous
      ensures ok == !fails(old(clock)) && clock == old(clock) + 1
      ensures ok ==> data == old(data) - {c} && previous == old(previous)[c := old(data)[c]]
      ensures !ok ==> data == old(data) && previous == old(previous)
    {
      ok := Step();
      if ok {
        previous := previous[c := data[c]];
        data := data - {c};
      }
    }

    /** `os.replace(staged, target)`: raises too when nothing was staged under the name. */
    method Install(c: Component) returns (ok: bool)
      modifies `clock, `data, `staged
      ensures ok == (!fails(old(clock)) && c in old(staged)) && clock == old(clock) + 1
      ensures ok ==> data == old(data)[c := old(staged)[c]] && staged == old(staged) - {c}
      ensures !ok ==> data == old(data) && staged == old(staged)
    {
      ok := Step();
      if ok && c in staged {
        data := data[c := staged[c]];
        staged := staged - {c};
      } else {
        ok := false;
      }
    }

    /** `os.replace(previous, target)`. */
    method PutBack(c: Component) returns (ok: bool)
      requires c in previous
      modifies `clock, `data, `previous
      ensures ok == !fails(old(clock)) && clock == old(clock) + 1
      ensures ok ==> data == old(data)[c := old(previous)[c]] && previous == old(previous) - {c}
      ensures !ok ==> data == old(data) && previous == old(previous)
    {
      ok := Step();
      if ok {
        data := data[c := previous[c]];
        previous := previous - {c};
      }
    }

    /** `_remove_path`: not atomic, a directory may be half deleted. */
    method RemovePath(c: Component) returns (ok: bool)
      modifies `clock, `data
      ensures ok ==> data == old(data) - {c} && !Raised(fails, old(clock), clock)
      ensures !ok ==> Raised(fails, old(clock), clock) && forall d :: d != c ==> AgreeAt(data, old(data), d)
      ensures clock >= old(clock)
    {
      ok := true;
      if c in data {
        var left := debris(clock);
        ok := Step();
        if ok {
          data := data - {c};
        } else {
          data := data[c := left];
        }
      }
    }

    /**
     `_replace_component`: it works exactly when no step raises and the component
     was staged; `undone` is false only when its own undo raised as well.
     */
    method ReplaceComponent(c: Component) returns (ok: bool, undone: bool)
      requires c !in previous
      modifies `clock, `data, `staged, `previous
      ensures clock >= old(clock)
      ensures ok <==> c in old(staged) && !Raised(fails, old(clock), clock)
      ensures !undone ==> !ok && Raised(fails, old(clock), clock)
      ensures !undone ==> c !in old(staged) || RaisedTwice(fails, old(clock), clock)
      ensures ok ==>
                && data == old(data)[c := old(staged)[c]] && staged == old(staged) - {c}
                && previous == (if c in old(data) then old(previous)[c := old(data)[c]] else old(previous))
      ensures !ok && undone ==> data == old(data) && staged == old(staged) && previous == old(previous)
      ensures !ok ==> forall d :: d != c ==> AgreeAt(data, old(data), d)
    {
      undone := true;
      ok := Step();
      if !ok {
        return;
      }
      var movedPrevious := false;
      if c in data {
        ok := MoveAside(c);
        if !ok {
          return;
        }
        movedPrevious := true;
      }
      ghost var installing := clock;
      ok := Install(c);
      if !ok {
        MoveBackUndoes(old(data), old(previous), c);
        if movedPrevious && c in previous {
          undone := PutBack(c);
          if !undone {
            assert fails(installing + 1);
            assert c in old(staged) ==> fails(installing);
          }
        }
      }
    }

    /** `_restore_previous_components`: last restored first; it fails only when one of its own steps raises. */
    method RestorePreviousComponents(restored: seq<Component>) returns (ok: bool)
      requires Distinct(restored)
      modifies `clock, `data, `previous
      ensures clock >= old(clock) && (ok <==> !Raised(fails, old(clock), clock))
      ensures ok ==> forall c :: c in restored ==> AgreeAt(data, old(previous), c)
      ensures forall c :: c !in restored ==> AgreeAt(data, old(data), c)
    {
      hide Raised;
      NothingRaised(fails, clock);
      ok := true;
      var k := |restored|;
      while k > 0
        invariant 0 <= k <= |restored| && ok
        invariant clock >= old(clock) && !Raised(fails, old(clock), clock)
        invariant forall c :: c in restored[k..] ==> AgreeAt(data, old(previous), c)
        invariant forall c :: c !in restored[k..] ==> AgreeAt(previous, old(previous), c)
        invariant forall c :: c !in restored ==> AgreeAt(data, old(data), c)
      {
        var c := restored[k - 1];
        assert restored[k - 1..] == [c] + restored[k..];
        assert c in restored && c !in restored[k..];
        ghost var before, start := data, clock;
        ok := RemovePath(c);
        RaisedInEither(fails, old(clock), start, clock);
        if !ok {
          forall d | d !in restored ensures AgreeAt(data, old(data), d) {
            assert AgreeAt(data, before, d) && AgreeAt(before, old(data), d);
          }
          return;
        }
        if c in previous {
          StepRaised(fails, old(clock), clock);
          ok := PutBack(c);
          if !ok {
            return;
          }
        }
        k := k - 1;
      }
      assert restored[0..] == restored;
    }

    /** The loop of `_restore_backup`: `k` components were replaced, the next one raised. */
    method ReplaceAll(components: seq<Component>) returns (k: nat, undone: bool)
      requires previous == map[] && Distinct(components)
      modifies `clock, `data, `staged, `previous
      ensures k <= |components| && (k == |components| ==> undone) && clock >= old(clock)
      ensures k == |components| <==> AreStaged(components, old(staged)) && !Raised(fails, old(clock), clock)
      ensures !undone ==> Raised(fails, old(clock), clock)
      ensures !undone ==> !AreStaged(components, old(staged)) || RaisedTwice(fails, old(clock), clock)
      ensures undone ==> IsRestored(data, old(data), old(staged), SetOf(components[..k]))
      ensures undone ==> CanUndo(previous, old(data), SetOf(components[..k]))
      ensures forall c :: c !in components ==> AgreeAt(data, old(data), c)
    {
      hide Raised, RaisedTwice, IsRestored, CanUndo, IsLeft, SetOf;
      k, undone := 0, true;
      NothingRestored(data, staged, previous, components);
      NothingRaised(fails, clock);
      while k < |components|
        invariant k <= |components| && undone
        invariant clock >= old(clock) && !Raised(fails, old(clock), clock)
        invariant AreStaged(components[..k], old(staged))
        invariant IsRestored(data, old(data), old(staged), SetOf(components[..k]))
        invariant CanUndo(previous, old(data), SetOf(components[..k]))
        invariant IsLeft(staged, old(staged), SetOf(components[..k]))
        invariant forall c :: c !in components ==> AgreeAt(data, old(data), c)
      {
        DropLast(components, k + 1);
        ghost var halfway, left, held, start := data, staged, previous, clock;
        NotYetRestored(previous, staged, old(data), old(staged), components, k);
        var ok;
        ok, undone := ReplaceComponent(components[k]);
        RaisedLonger(fails, old(clock), start, clock, clock);
        RaisedInEither(fails, old(clock), start, clock);
        if !ok {
          assert components[k] in components;
          forall c | c !in components ensures AgreeAt(data, old(data), c) {
            assert AgreeAt(data, halfway, c) && AgreeAt(halfway, old(data), c);
          }
          return;
        }
        assert components[..k + 1] == components[..k] + [components[k]];
        OneMoreRestored(data, halfway, old(data), staged, left, old(staged), previous, held,
                        SetOf(components[..k]), components[k]);
        k := k + 1;
      }
      assert components[..k] == components;
    }

    /**
     `_restore_backup` behind the extraction: `components` are the manifest's,
     sorted.  It works exactly when everything was staged and no step raises,
     and then exactly they are replaced; when any rename raises, at whatever
     position, all data is as it was, unless a step of the undo raised as well,
     behind the first failure.
     */
    method RestoreBackup(components: seq<Component>) returns (ok: bool, undone: bool)
      requires previous == map[] && Distinct(components)
      modifies `clock, `data, `staged, `previous
      ensures clock >= old(clock)
      ensures ok <==> AreStaged(components, old(staged)) && !Raised(fails, old(clock), clock)
      ensures ok ==> undone && IsRestored(data, old(data), old(staged), SetOf(components))
      ensures !ok && undone ==> data == old(data)
      ensures !undone ==> Raised(fails, old(clock), clock)
      ensures !undone ==> !AreStaged(components, old(staged)) || RaisedTwice(fails, old(clock), clock)
      ensures forall c :: c !in components ==> AgreeAt(data, old(data), c)
    {
      var k;
      k, undone := ReplaceAll(components);
      if k == |components| {
        assert components[..k] == components;
        return true, true;
      }
      ghost var halfway, held, start := data, previous, clock;
      var others := RestorePreviousComponents(components[..k]);
      forall c | c !in components ensures AgreeAt(data, old(data), c) {
        assert c !in components[..k];
        assert AgreeAt(data, halfway, c) && AgreeAt(halfway, old(data), c);
      }
      RaisedLonger(fails, old(clock), old(clock), start, clock);
      RaisedLonger(fails, old(clock), start, clock, clock);
      if !others && Raised(fails, old(clock), start) {
        RaisedInBoth(fails, old(clock), start, clock);
      }
      ok, undone := false, undone && others;
      if undone {
        UndoneIsBefore(data, halfway, old(data), old(staged), held, components[..k]);
      }
    }
  }

  predicate AreStaged(components: seq<Component>, staged: Tree)
  {
    forall c :: c in components ==> c in staged
  }

  function SetOf(cs: seq<Component>): set<Component> { set c | c in cs }

  predicate Distinct(cs: seq<Component>)
  {
    forall i, j :: 0 <= i < j < |cs| ==> cs[i] != cs[j]
  }

  predicate AgreeAt(a: Tree, b: Tree, c: Component)
  {
    (c in a <==> c in b) && (c in a ==> a[c] == b[c])
  }

  /** Every restored component taken back from the previous versions, every other one never moved. */
  lemma UndoneIsBefore(data: Tree, halfway: Tree, before: Tree, staged: Tree, previous: Tree, restored: seq<Component>)
    requires IsRestored(halfway, before, staged, SetOf(restored)) && CanUndo(previous, before, SetOf(restored))
    requires forall c :: c in restored ==> AgreeAt(data, previous, c)
    requires forall c :: c !in restored ==> AgreeAt(data, halfway, c)
    ensures data == before
  {
    forall c ensures AgreeAt(data, before, c) {
      if c in restored {
        assert c in SetOf(restored) && AgreeAt(data, previous, c);
      } else {
        assert c !in SetOf(restored) && AgreeAt(data, halfway, c);
      }
    }
    assert data.Keys == before.Keys by {
      forall c ensures c in data <==> c in before {
        assert AgreeAt(data, before, c);
      }
    }
    forall c | c in data ensures data[c] == before[c] {
      assert AgreeAt(data, before, c);
    }
  }

  /** What is still staged. */
  ghost predicate IsLeft(staged: Tree, all: Tree, restored: set<Component>)
  {
    forall c :: (c in staged <==> c in all && c !in restored) && (c in staged ==> staged[c] == all[c])
  }

  lemma NothingRestored(data: Tree, staged: Tree, previous: Tree, cs: seq<Component>)
    requires previous == map[]
    ensures IsRestored(data, data, staged, SetOf(cs[..0])) && CanUndo(previous, data, SetOf(cs[..0]))
    ensures IsLeft(staged, staged, SetOf(cs[..0]))
  {
  }

  lemma NotYetRestored(previous: Tree, staged: Tree, before: Tree, all: Tree, cs: seq<Component>, k: nat)
    requires k < |cs| && cs[k] !in cs[..k]
    requires CanUndo(previous, before, SetOf(cs[..k])) && IsLeft(staged, all, SetOf(cs[..k]))
    ensures cs[k] !in SetOf(cs[..k]) && cs[k] !in previous && (cs[k] in staged <==> cs[k] in all)
  {
  }

  lemma OneMoreRestored(data: Tree, halfway: Tree, before: Tree, staged: Tree, left: Tree, all: Tree,
                        previous: Tree, held: Tree, restored: set<Component>, c: Component)
    requires IsRestored(halfway, before, all, restored) && CanUndo(held, before, restored) && IsLeft(left, all, restored)
    requires c !in restored && c in left && data == halfway[c := left[c]] && staged == left - {c}
    requires previous == if c in halfway then held[c := halfway[c]] else held
    ensures IsRestored(data, before, all, restored + {c}) && CanUndo(previous, before, restored + {c})
    ensures IsLeft(staged, all, restored + {c})
  {
  }

  lemma MoveBackUndoes(data: Tree, previous: Tree, c: Component)
    requires c !in previous
    ensures c in data ==> (data - {c})[c := data[c]] == data && previous[c := data[c]] - {c} == previous
  {
  }

  lemma DropLast(cs: seq<Component>, k: nat)
    requires 0 < k <= |cs| && Distinct(cs)
    ensures SetOf(cs[..k]) == SetOf(cs[..k - 1]) + {cs[k - 1]}
    ensures cs[k - 1] !in cs[..k - 1]
  {
    assert cs[..k] == cs[..k - 1] + [cs[k - 1]];
  }
}
