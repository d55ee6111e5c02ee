/**
 The write-ahead journal of `scripts/version.py`: a release sync writes many
 files, and a crash after any file-system step must leave either all of the
 old contents or all of the new ones once a recovery has returned.
 */
module VersionSync {
  import opened Wrappers

  type Path = string
  type Bytes = string
  type Files = map<Path, Bytes>

  /** `manifest.json`: which targets have a saved copy, and which did not exist. */
  datatype Manifest = Manifest(files: set<Path>, missing: set<Path>)

  /** A journal directory, whole or partly written or partly deleted: its `snapshot` directory and its manifest. */
  datatype Journal = Journal(snapshot: Option<Files>, manifest: Option<Manifest>)

  /** What happens to one file-system step: it works, it raises, or the machine stops. */
  datatype Fate = Works | Raises | PowerLoss

  datatype Exit = Returned | Raised | Crashed

  /** The one target every sync reads first. */
  const PYPROJECT: Path := "pyproject.toml"

  // ---- What the contents of the disk mean --------------------------------------------

  ghost predicate Same(files: Files, reference: Files, targets: set<Path>)
  {
    forall p :: p in targets ==>
      && (p in files <==> p in reference)
      && (p in files ==> files[p] == reference[p])
  }

  /** The two file systems agree outside the targets. */
  ghost predicate KeptOutside(files: Files, reference: Files, targets: set<Path>)
  {
    forall p :: p !in targets ==> (p in files <==> p in reference) && (p in files ==> files[p] == reference[p])
  }

  /** The checks of `_recover_version_transaction`: a manifest, a snapshot directory and every copy listed. */
  predicate Readable(j: Journal)
  {
    && j.manifest.Some? && j.snapshot.Some?
    && j.manifest.value.files <= j.snapshot.value.Keys
    && j.manifest.value.files !! j.manifest.value.missing
  }

  /** Undoing with this journal gives every target its content in `pre`. */
  ghost predicate Saves(j: Journal, targets: set<Path>, pre: Files)
    requires j.manifest.Some?
  {
    var m := j.manifest.value;
    && m.files + m.missing == targets
    && (forall p :: p in m.missing ==> p !in pre)
    && (forall p :: p in m.files ==>
          p in pre && j.snapshot.Some? && p in j.snapshot.value && j.snapshot.value[p] == pre[p])
  }

  /** All targets old, or all targets new. */
  ghost predicate AtRest(files: Files, targets: set<Path>, pre: Files, post: Files)
  {
    Same(files, pre, targets) || Same(files, post, targets)
  }

  /**
   What every step keeps: a journal that recovery would accept saves the old
   contents; without one, or with one it refuses, the targets are all old or
   all new.
   */
  ghost predicate Safe(files: Files, journal: Option<Journal>, targets: set<Path>, pre: Files, post: Files)
  {
    match journal
    case None => AtRest(files, targets, pre, post)
    case Some(j) => if Readable(j) then Saves(j, targets, pre) else AtRest(files, targets, pre, post)
  }

  /** Once the manifest, the snapshot directory or a listed copy is gone, recovery refuses the journal. */
  lemma DeletionMakesUnreadable(j: Journal, p: Path)
    requires Readable(j)
    ensures !Readable(j.(manifest := None)) && !Readable(j.(snapshot := None))
    ensures p in j.manifest.value.files <==> !Readable(j.(snapshot := Some(j.snapshot.value - {p})))
  {
    if p in j.manifest.value.files {
      assert p !in (j.snapshot.value - {p}).Keys;
    } else {
      assert j.manifest.value.files <= (j.snapshot.value - {p}).Keys;
    }
  }

  /** The new contents: the writes of the sync, applied in order. */
  function Written(files: Files, writes: seq<(Path, Bytes)>): Files
  {
    if writes == [] then files
    else
      var before := Written(files, writes[..|writes| - 1]);
      before[writes[|writes| - 1].0 := writes[|writes| - 1].1]
  }

  lemma PersistedJournalSaves(snapshot: Files, missing: set<Path>, tracked: set<Path>, files: Files)
    requires snapshot == map p | p in tracked && p in files :: files[p]
    requires missing == set p | p in tracked && p !in files
    ensures var j := Journal(Some(snapshot), Some(Manifest(snapshot.Keys, missing)));
            Readable(j) && Saves(j, tracked, files)
  {
    assert snapshot.Keys + missing == tracked;
  }

  lemma ProjectIsFound(files: Files, found: Files, journal: Option<Journal>, targets: set<Path>, pre: Files)
    requires if journal.Some? then Same(files, pre, targets) && KeptOutside(files, found, targets) else files == found
    ensures FindsProject(found, journal, targets, pre) <==> PYPROJECT in files
  {
  }

  lemma StartIsSafe(files: Files, snapshot: Files, missing: set<Path>, tracked: set<Path>, post: Files)
    requires PYPROJECT in tracked && PYPROJECT in files
    requires snapshot == map p | p in tracked && p in files :: files[p]
    requires missing == set p | p in tracked && p !in files
    ensures var j := Journal(SnapshotOf(snapshot), Some(Manifest(snapshot.Keys, missing)));
            && Readable(j) && Safe(files, Some(j), tracked, files, post)
            && Safe(files, None, tracked, files, post) && KeptOutside(files, files, tracked)
  {
    PersistedJournalSaves(snapshot, missing, tracked, files);
    assert PYPROJECT in snapshot;
  }

  /**
   The contents a sync starts from, given what it found: these very contents,
   or, when a journal was left behind, the old ones on the targets of that sync.
   */
  ghost predicate IsBase(base: Files, found: Files, journal: Option<Journal>, targets: set<Path>, pre: Files)
  {
    if journal.None? then base == found else Same(base, pre, targets) && KeptOutside(base, found, targets)
  }

  /** Every step in this stretch of time worked. */
  ghost predicate AllWork(fate: nat -> Fate, start: nat, end: nat)
  {
    forall t :: start <= t < end ==> fate(t).Works?
  }

  /** The machine stopped in this stretch of time. */
  ghost predicate Stops(fate: nat -> Fate, start: nat, end: nat)
  {
    exists t :: start <= t < end && fate(t).PowerLoss?
  }

  /** Exactly one step in this stretch of time raised, and every other one worked. */
  ghost predicate OneRaises(fate: nat -> Fate, start: nat, end: nat)
  {
    exists t :: start <= t < end && RaisesOnlyAt(fate, start, t, end)
  }

  ghost predicate RaisesOnlyAt(fate: nat -> Fate, start: nat, t: nat, end: nat)
  {
    fate(t).Raises? && AllWork(fate, start, t) && AllWork(fate, t + 1, end)
  }

  /**
   Something first goes wrong just before `undoing`, in a rewrite of `n` carriers
   that begins at `start`: a step raised, or all carriers were written and what
   was written is rejected.
   */
  ghost predicate GoesWrong(fate: nat -> Fate, start: nat, n: nat, rejected: bool, undoing: nat)
  {
    if rejected && undoing == start + n && AllWork(fate, start, undoing) then true
    else start < undoing && fate(undoing - 1).Raises? && AllWork(fate, start, undoing - 1) && (rejected ==> undoing <= start + n)
  }

  /** The last step in this stretch of time was the first that did not work. */
  ghost predicate FailsLast(fate: nat -> Fate, start: nat, end: nat, f: Fate)
  {
    start < end && f == fate(end - 1) && !f.Works? && AllWork(fate, start, end - 1)
  }

  /** There is only one point at which a rewrite first goes wrong. */
  lemma FirstFailureIs(fate: nat -> Fate, start: nat, n: nat, rejected: bool, end: nat, f: Fate, undoing: nat)
    requires if rejected && end == start + n && f.Raises? && AllWork(fate, start, end) then true
             else FailsLast(fate, start, end, f) && (rejected ==> end <= start + n)
    requires GoesWrong(fate, start, n, rejected, undoing)
    ensures undoing == end && f.Raises?
  {
  }

  /** Where nothing went wrong before the rewrite, the one failing step is a step of it. */
  lemma FailureIsBehind(fate: nat -> Fate, begin: nat, start: nat, end: nat, n: nat)
    requires begin <= start <= end && OneRaises(fate, begin, end) && AllWork(fate, begin, start)
    ensures exists undoing: nat ::
              GoesWrong(fate, start, n, false, undoing) && undoing <= end && AllWork(fate, undoing, end)
  {
    var t :| begin <= t < end && RaisesOnlyAt(fate, begin, t, end);
    assert GoesWrong(fate, start, n, false, t + 1);
  }

  /** Recovery would not refuse what it finds. */
  predicate IsRecoverable(journal: Option<Journal>)
  {
    journal.Some? ==> Readable(journal.value)
  }

  /** The first target exists once recovery is done. */
  ghost predicate FindsProject(files: Files, journal: Option<Journal>, targets: set<Path>, pre: Files)
  {
    if journal.Some? && PYPROJECT in targets then PYPROJECT in pre else PYPROJECT in files
  }

  // ---- The workspace -------------------------------------------------------------------

  class Workspace {
    var files: Files
    var staging: Option<Journal>
    var journal: Option<Journal>
    var clock: nat
    const fate: nat -> Fate
    /** What an interrupted write leaves in the file; `None` when it never opened it. */
    const torn: nat -> Option<Bytes>

    /** The last sync: its tracked targets and their contents before and after. */
    var targets: set<Path>
    ghost var pre: Files
    ghost var post: Files

    constructor (files: Files, fate: nat -> Fate, torn: nat -> Option<Bytes>)
      ensures Ok() && this.files == files && targets == {}
    {
      this.files, this.fate, this.torn := files, fate, torn;
      staging, journal, clock := None, None, 0;
      targets, pre, post := {}, files, files;
    }

    ghost predicate Ok()
      reads this
    {
      Safe(files, journal, targets, pre, post)
    }

    /** Files no sync owns keep their contents. */
    twostate predicate OthersKept()
      reads this
    {
      KeptOutside(files, old(files), targets)
    }

    ghost function Seen(): Moment
      reads this
    {
      Moment(files, journal, targets, pre, post, clock)
    }

    method Step() returns (f: Fate)
      modifies `clock
      ensures f == fate(old(clock)) && clock == old(clock) + 1
    {
      f := fate(clock);
      clock := clock + 1;
    }

    /** `path.write_bytes(contents)`: opened, truncated and written; not atomic. */
    method WriteFile(p: Path, contents: Bytes) returns (f: Fate)
      modifies `clock, `files
      ensures clock == old(clock) + 1 && f == fate(old(clock))
      ensures f.Works? ==> files == old(files)[p := contents]
      ensures forall q :: q != p ==> (q in files <==> q in old(files)) && (q in files ==> files[q] == old(files[q]))
    {
      var debris := torn(clock);
      f := Step();
      if f.Works? {
        files := files[p := contents];
      } else if debris.Some? {
        files := files[p := debris.value];
      }
    }

    method Unlink(p: Path) returns (f: Fate)
      modifies `clock, `files
      ensures clock == old(clock) + 1 && f == fate(old(clock))
      ensures files == if f.Works? then old(files) - {p} else old(files)
    {
      f := Step();
      if f.Works? {
        files := files - {p};
      }
    }

    /** `shutil.rmtree` of the staging directory. */
    method RemoveStaging() returns (f: Fate)
      modifies `clock, `staging
      ensures clock >= old(clock) && (f.Works? <==> AllWork(fate, old(clock), clock))
      ensures f.Works? ==> staging.None?
      ensures f.PowerLoss? ==> Stops(fate, old(clock), clock)
    {
      f := Works;
      while staging.Some? && f.Works?
        invariant clock >= old(clock) && (f.Works? <==> AllWork(fate, old(clock), clock))
        invariant f.PowerLoss? ==> Stops(fate, old(clock), clock)
        decreases Remaining(staging), f.Works?
      {
        f := Step();
        if f.Works? {
          var left := RemoveEntry(staging.value);
          staging := left;
        }
      }
    }

    /** `_remove_version_transaction`: entries go one by one, in any order, then the directory. */
    method RemoveJournal() returns (f: Fate)
      requires Ok() && AtRest(files, targets, pre, post)
      modifies `clock, `journal
      ensures Ok()
      ensures clock >= old(clock) && (f.Works? <==> AllWork(fate, old(clock), clock))
      ensures f.Works? <==> journal.None?
      ensures journal.None? || old(journal).Some?
      ensures f.Works? || FailsLast(fate, old(clock), clock, f)
    {
      f := Works;
      while journal.Some? && f.Works?
        invariant clock >= old(clock) && (f.Works? <==> AllWork(fate, old(clock), clock))
        invariant Ok() && (journal.None? || old(journal).Some?) && (journal.None? ==> f.Works?)
        invariant f.Works? || FailsLast(fate, old(clock), clock, f)
        decreases Remaining(journal), f.Works?
      {
        f := Step();
        if f.Works? {
          var left := RemoveEntry(journal.value);
          RemovedStaysSafe(journal.value, left, files, targets, pre, post);
          journal := left;
        }
      }
    }

    /** `_recover_version_transaction`. */
    method Recover() returns (exit: Exit)
      requires Ok()
      modifies `clock, `files, `staging, `journal
      ensures Ok() && OthersKept() && clock >= old(clock)
      ensures exit.Returned? <==> AllWork(fate, old(clock), clock) && IsRecoverable(old(journal))
      ensures exit.Returned? ==>
                && staging.None? && journal.None?
                && AtRest(files, targets, pre, post)
                && (if old(journal).Some? then Same(files, pre, targets) else files == old(files))
      ensures old(journal).Some? && !Readable(old(journal).value) ==>
                !exit.Returned? && files == old(files) && journal == old(journal)
      ensures exit.Crashed? ==> Stops(fate, old(clock), clock)
      ensures old(journal).None? ==> journal.None? && files == old(files)
      ensures old(journal).Some? && journal.None? ==> exit.Returned? && Same(files, pre, targets)
    {
      if staging.Some? {
        var f := RemoveStaging();
        if !f.Works? {
          return ExitOf(f);
        }
      }
      if journal.None? {
        return Returned;
      }
      if !Readable(journal.value) {
        return Raised;
      }
      var f := RestoreWorkspace(journal.value);
      if !f.Works? {
        return ExitOf(f);
      }
      f := RemoveJournal();
      if !f.Works? {
        return ExitOf(f);
      }
      return Returned;
    }

    /** `_restore_workspace`: deletes what was missing, rewrites what was saved. */
    method RestoreWorkspace(j: Journal) returns (f: Fate)
      requires Ok() && journal == Some(j) && Readable(j)
      modifies `clock, `files
      ensures Ok() && OthersKept()
      ensures clock >= old(clock) && (f.Works? <==> AllWork(fate, old(clock), clock))
      ensures f.PowerLoss? ==> Stops(fate, old(clock), clock)
      ensures f.Works? ==> Same(files, pre, targets)
    {
      var m := j.manifest.value;
      f := Works;
      var rest := m.missing;
      while rest != {}
        invariant rest <= m.missing && Ok() && OthersKept() && f.Works?
        invariant clock >= old(clock) && AllWork(fate, old(clock), clock)
        invariant forall p :: p in m.missing - rest ==> p !in files
        decreases rest
      {
        var p :| p in rest;
        if p in files {
          f := Unlink(p);
          if !f.Works? {
            return;
          }
        }
        rest := rest - {p};
      }
      rest := m.files;
      while rest != {}
        invariant rest <= m.files && Ok() && OthersKept() && f.Works?
        invariant clock >= old(clock) && AllWork(fate, old(clock), clock)
        invariant forall p :: p in m.missing ==> p !in files
        invariant forall p :: p in m.files - rest ==> p in files && files[p] == j.snapshot.value[p]
        decreases rest
      {
        var p :| p in rest;
        f := WriteFile(p, j.snapshot.value[p]);
        if !f.Works? {
          return;
        }
        rest := rest - {p};
      }
    }

    /**
     `_persist_version_transaction`: written aside, then published by one rename.
     The directory flush behind the rename can still fail, with the journal in place.
     */
    method Persist(snapshot: Files, missing: set<Path>) returns (f: Fate)
      requires journal.None? && staging.None?
      modifies `clock, `staging, `journal
      ensures clock >= old(clock) && (f.Works? <==> AllWork(fate, old(clock), clock))
      ensures f.PowerLoss? ==> Stops(fate, old(clock), clock)
      ensures f.Works? || OneRaises(fate, old(clock), clock) ==> staging.None?
      ensures f.Works? ==> journal.Some?
      ensures journal.Some? ==>
                staging.None? && journal == Some(Journal(SnapshotOf(snapshot), Some(Manifest(snapshot.Keys, missing))))
    {
      hide SnapshotOf;
      f := Step();
      if !f.Works? {
        return;
      }
      staging := Some(Journal(None, None));
      var rest := snapshot.Keys;
      NothingCopied(snapshot);
      while rest != {}
        invariant rest <= snapshot.Keys && f.Works? && journal.None?
        invariant clock >= old(clock) && AllWork(fate, old(clock), clock)
        invariant staging == Some(Journal(SnapshotOf(snapshot - rest), None))
        decreases rest
      {
        var p :| p in rest;
        f := Step();
        if !f.Works? {
          f := AbandonStaging(f);
          return;
        }
        CopyOneMore(snapshot, rest, p);
        var copied := if staging.value.snapshot.None? then map[] else staging.value.snapshot.value;
        staging := Some(Journal(Some(copied[p := snapshot[p]]), None));
        rest := rest - {p};
      }
      assert snapshot - {} == snapshot;
      f := Step();
      if !f.Works? {
        f := AbandonStaging(f);
        return;
      }
      staging := Some(Journal(staging.value.snapshot, Some(Manifest(snapshot.Keys, missing))));
      f := Step();
      if !f.Works? {
        f := AbandonStaging(f);
        return;
      }
      journal, staging := staging, None;
      f := Step();
    }

    /** An exception while staging removes the staging directory again; a crash does not. */
    method AbandonStaging(cause: Fate) returns (f: Fate)
      requires !cause.Works?
      modifies `clock, `staging
      ensures !f.Works? && clock >= old(clock)
      ensures f.PowerLoss? ==> cause.PowerLoss? || Stops(fate, old(clock), clock)
      ensures cause.Raises? && AllWork(fate, old(clock), clock) ==> staging.None?
    {
      f := cause;
      if cause.Raises? {
        var removed := RemoveStaging();
        if !removed.Works? {
          f := removed;
        }
      }
    }

    /**
     `_set_version_unlocked`.  `writes` are the carriers in the order they are
     rewritten, `rejected` the failure of `uv lock` or of the final check, and
     `tracked` the targets outside the protected files.
     */
    method SetVersion(tracked: set<Path>, writes: seq<(Path, Bytes)>, rejected: bool) returns (exit: Exit)
      requires Ok()
      requires PYPROJECT in tracked && forall w :: w in writes ==> w.0 in tracked
      modifies this
      ensures Ok()
      // success: every target new; a sync that raised and could undo: every target old
      ensures rejected && AllWork(fate, old(clock), clock) && IsRecoverable(old(journal))
              && FindsProject(old(files), old(journal), old(targets), old(pre)) ==>
                && exit.Raised? && Began(tracked, writes)
                && journal.None? && staging.None? && Same(files, pre, tracked)
      ensures OneRaises(fate, old(clock), clock) && !rejected ==>
                && exit.Raised?
                && (|| StayedOut()
                    || (Began(tracked, writes) && Same(files, pre, tracked))
                    || (Began(tracked, writes) && files == post && journal.Some? && !Readable(journal.value)))
      ensures exit.Returned? ==>
                && targets == tracked && !rejected
                && files == post == Written(pre, writes)
                && journal.None? && staging.None?
      ensures exit.Raised? && old(journal).None? && journal.None? ==> Same(files, old(files), tracked)
      ensures clock >= old(clock)
      ensures exit.Returned? <==>
                && AllWork(fate, old(clock), clock) && !rejected && IsRecoverable(old(journal))
                && FindsProject(old(files), old(journal), old(targets), old(pre))
      // it began, from the contents it found or the recovered ones, or it changed no sync's business
      ensures || Began(tracked, writes)
              || (!exit.Returned? && StayedOut())
    {
      exit := Begin(tracked, writes);
      if exit.Returned? {
        ghost var start := clock;
        exit := Rewrite(writes, rejected);
        if rejected && AllWork(fate, start, clock) {
          assert GoesWrong(fate, start, |writes|, rejected, start + |writes|);
        } else if !rejected && OneRaises(fate, old(clock), clock) {
          FailureIsBehind(fate, old(clock), start, clock, |writes|);
        }
      }
    }

    /** The sync got past its recovery: `pre` is what it started from, `post` what it is to become. */
    twostate predicate Began(tracked: set<Path>, writes: seq<(Path, Bytes)>)
      reads this
    {
      && targets == tracked && post == Written(pre, writes)
      && IsBase(pre, old(files), old(journal), old(targets), old(pre))
      && KeptOutside(files, pre, tracked)
    }

    /** Only the recovery of an earlier sync may have changed anything. */
    twostate predicate StayedOut()
      reads this
    {
      && targets == old(targets) && pre == old(pre) && post == old(post)
      && KeptOutside(files, old(files), targets)
      && (old(journal).None? ==> files == old(files) && journal.None?)
    }

    /** Up to the published journal: recover, look at the targets, persist their contents. */
    method Begin(tracked: set<Path>, ghost writes: seq<(Path, Bytes)>) returns (exit: Exit)
      requires Ok() && PYPROJECT in tracked
      modifies this
      ensures Ok()
      ensures exit.Returned? ==> journal.Some? && staging.None? && Readable(journal.value)
      ensures || (Began(tracked, writes) && pre == files)
              || (!exit.Returned? && StayedOut())
      ensures old(journal).None? ==> files == old(files)
      ensures clock >= old(clock) && (exit.Crashed? ==> Stops(fate, old(clock), clock))
      ensures exit.Returned? <==>
                && AllWork(fate, old(clock), clock) && IsRecoverable(old(journal))
                && FindsProject(old(files), old(journal), old(targets), old(pre))
    {
      hide Safe, Same, KeptOutside, Saves, AtRest, Written, SnapshotOf, FindsProject;
      exit := Recover();
      if !exit.Returned? {
        return;
      }
      ProjectIsFound(files, old(files), old(journal), targets, pre);
      if PYPROJECT !in files {
        return Raised;
      }
      var snapshot := map p | p in tracked && p in files :: files[p];
      var missing := set p | p in tracked && p !in files;
      targets, pre, post := tracked, files, Written(files, writes);
      var f := Persist(snapshot, missing);
      StartIsSafe(files, snapshot, missing, tracked, post);
      return ExitOf(f);
    }

    /** Behind the published journal: rewrite, check, and give the journal up. */
    method Rewrite(writes: seq<(Path, Bytes)>, rejected: bool) returns (exit: Exit)
      requires Ok() && journal.Some? && staging.None? && Readable(journal.value) && files == pre
      requires post == Written(pre, writes) && forall w :: w in writes ==> w.0 in targets
      modifies `clock, `files, `staging, `journal
      ensures Ok()
      ensures exit.Returned? ==> !rejected && files == post && journal.None? && staging.None?
      ensures !exit.Returned? && journal.None? ==> Same(files, pre, targets)
      // whatever went wrong, an undo that meets no failing step brings the old contents back,
      // unless the journal was already being given up: then all is new, and recovery refuses the rest of it
      ensures forall undoing: nat ::
                GoesWrong(fate, old(clock), |writes|, rejected, undoing) && undoing <= clock && AllWork(fate, undoing, clock) ==>
                  && exit.Raised?
                  && if journal.None? then staging.None? && Same(files, pre, targets)
                     else undoing > old(clock) + |writes| && !Readable(journal.value) && files == post
      ensures KeptOutside(files, pre, targets)
      ensures clock >= old(clock) && (exit.Returned? <==> AllWork(fate, old(clock), clock) && !rejected)
      ensures AllWork(fate, old(clock), clock) ==> clock >= old(clock) + |writes|
    {
      var f := WriteCarriers(journal.value, writes);
      if f.Works? && rejected {
        f := Raises;
      }
      if f.Works? {
        f := RemoveJournal();
      }
      if !f.Works? {
        ghost var failed, kept := clock, journal.value;
        exit := UndoUnlessCrashed(f);
        forall undoing: nat | GoesWrong(fate, old(clock), |writes|, rejected, undoing) ensures undoing == failed && f.Raises? {
          FirstFailureIs(fate, old(clock), |writes|, rejected, failed, f, undoing);
        }
        return;
      }
      return Returned;
    }

    /** The carriers are rewritten one by one; the journal covers them all. */
    method WriteCarriers(j: Journal, writes: seq<(Path, Bytes)>) returns (f: Fate)
      requires Ok() && journal == Some(j) && Readable(j) && files == pre
      requires forall w :: w in writes ==> w.0 in targets
      modifies `clock, `files
      ensures Ok() && OthersKept()
      ensures clock >= old(clock) && (f.Works? <==> AllWork(fate, old(clock), clock))
      ensures f.Works? ==> files == Written(pre, writes) && clock == old(clock) + |writes|
      ensures !f.Works? ==> FailsLast(fate, old(clock), clock, f) && clock <= old(clock) + |writes|
    {
      f := Works;
      for i := 0 to |writes|
        invariant Ok() && OthersKept() && f.Works?
        invariant clock == old(clock) + i && AllWork(fate, old(clock), clock)
        invariant files == Written(pre, writes[..i])
      {
        assert writes[..i + 1][..i] == writes[..i];
        assert writes[i] in writes;
        f := WriteFile(writes[i].0, writes[i].1);
        if !f.Works? {
          return;
        }
      }
      assert writes[..|writes|] == writes;
    }

    /** Somebody edits a file the last sync does not own. */
    method EditOther(p: Path, contents: Bytes)
      requires Ok()
      modifies `files
      ensures Ok() && files == if p in targets then old(files) else old(files)[p := contents]
    {
      if p !in targets {
        files := files[p := contents];
      }
    }

    /**
     The `except` branch: undo, then raise again.  The old contents are back, and
     no journal is left, exactly when the journal can be read and no step fails.
     */
    method UndoUnlessCrashed(cause: Fate) returns (exit: Exit)
      requires Ok() && !cause.Works? && journal.Some?
      modifies `clock, `files, `staging, `journal
      ensures Ok() && !exit.Returned? && OthersKept() && clock >= old(clock)
      ensures journal.None? <==> cause.Raises? && Readable(old(journal).value) && AllWork(fate, old(clock), clock)
      ensures journal.None? ==> exit.Raised? && staging.None? && Same(files, pre, targets)
      ensures cause.Raises? && !Readable(old(journal).value) && AllWork(fate, old(clock), clock) ==>
                exit.Raised? && files == old(files) && journal == old(journal)
      ensures cause.PowerLoss? ==> exit.Crashed? && files == old(files) && journal == old(journal)
    {
      if cause.PowerLoss? {
        return Crashed;
      }
      var undone := Recover();
      return if undone.Crashed? then Crashed else Raised;
    }
  }

  function ExitOf(f: Fate): Exit
  {
    match f
    case Works => Returned
    case Raises => Raised
    case PowerLoss => Crashed
  }

  /** The snapshot directory appears with its first copy. */
  function SnapshotOf(copies: Files): Option<Files>
  {
    if copies == map[] then None else Some(copies)
  }

  lemma NothingCopied(snapshot: Files)
    ensures SnapshotOf(snapshot - snapshot.Keys) == None
  {
    assert snapshot - snapshot.Keys == map[];
  }

  lemma CopyOneMore(snapshot: Files, rest: set<Path>, p: Path)
    requires p in rest && rest <= snapshot.Keys
    ensures var copied := match SnapshotOf(snapshot - rest) case None => map[] case Some(copies) => copies;
            SnapshotOf(snapshot - (rest - {p})) == Some(copied[p := snapshot[p]])
  {
    var longer := (snapshot - rest)[p := snapshot[p]];
    assert longer == snapshot - (rest - {p}) && p in longer;
  }

  /** `r` is `j` without one entry, or nothing when `j` was an empty directory. */
  ghost predicate OneGone(j: Journal, r: Option<Journal>)
  {
    match r
    case None => j == Journal(None, None)
    case Some(k) =>
      || (j.manifest.Some? && k == j.(manifest := None))
      || (j.snapshot == Some(map[]) && k == j.(snapshot := None))
      || (j.snapshot.Some? && exists p :: p in j.snapshot.value && k == j.(snapshot := Some(j.snapshot.value - {p})))
  }

  method RemoveEntry(j: Journal) returns (r: Option<Journal>)
    ensures OneGone(j, r)
    ensures r.Some? ==> Entries(r.value) < Entries(j)
  {
    if j.manifest.None? && j.snapshot.None? {
      return None;
    }
    if {
      case j.manifest.Some? =>
        r := Some(j.(manifest := None));
      case j.snapshot.Some? =>
        var copies := j.snapshot.value;
        if copies == map[] {
          return Some(j.(snapshot := None));
        }
        var p :| p in copies;
        r := Some(j.(snapshot := Some(copies - {p})));
        assert copies.Keys == (copies - {p}).Keys + {p};
    }
  }

  function Entries(j: Journal): nat
  {
    (if j.snapshot.Some? then 1 + |j.snapshot.value.Keys| else 0) + if j.manifest.Some? then 1 else 0
  }

  /** How much `rmtree` has left to do. */
  function Remaining(journal: Option<Journal>): nat
  {
    if journal.None? then 0 else 1 + Entries(journal.value)
  }

  /** Deleting from the journal of settled targets keeps every state safe, at every step. */
  lemma RemovedStaysSafe(j: Journal, r: Option<Journal>, files: Files, targets: set<Path>, pre: Files, post: Files)
    requires AtRest(files, targets, pre, post) && OneGone(j, r)
    requires Readable(j) ==> Saves(j, targets, pre)
    ensures Safe(files, r, targets, pre, post)
  {
    if r.Some? && Readable(r.value) {
      assert r.value.manifest == j.manifest && j.snapshot.Some?;
      assert r.value.snapshot.value.Keys <= j.snapshot.value.Keys;
      assert Readable(j);
    }
  }

  // ---- Any number of syncs, recoveries, crashes and edits ------------------------------------

  datatype Event =
    | Sync(tracked: set<Path>, writes: seq<(Path, Bytes)>, rejected: bool)
    | Recovery
    | Edit(path: Path, contents: Bytes)

  predicate IsSync(e: Event)
  {
    e.Sync? ==> PYPROJECT in e.tracked && forall w :: w in e.writes ==> w.0 in e.tracked
  }

  /** What is on the disk at some time, and the last sync begun: its targets and their old and new contents. */
  datatype Moment = Moment(
    files: Files, journal: Option<Journal>, targets: set<Path>, pre: Files, post: Files, clock: nat)

  /** A sync got past its recovery; old and new contents are always those of real files. */
  ghost predicate HasBegun(a: Moment, tracked: set<Path>, writes: seq<(Path, Bytes)>, b: Moment)
  {
    && b.targets == tracked && b.post == Written(b.pre, writes)
    && IsBase(b.pre, a.files, a.journal, a.targets, a.pre) && KeptOutside(b.files, b.pre, tracked)
  }

  /** Only a recovery may have changed anything. */
  ghost predicate OnlyRecovered(a: Moment, b: Moment)
  {
    && b.targets == a.targets && b.pre == a.pre && b.post == a.post
    && KeptOutside(b.files, a.files, a.targets)
    && (a.journal.None? ==> b.files == a.files && b.journal.None?)
  }

  /** How one event moves the disk on. */
  ghost predicate Follows(a: Moment, e: Event, b: Moment)
  {
    match e
    case Sync(tracked, writes, _) => HasBegun(a, tracked, writes, b) || OnlyRecovered(a, b)
    case Recovery => OnlyRecovered(a, b)
    case Edit(p, contents) =>
      && b.(files := a.files) == a
      && b.files == if p in a.targets then a.files else a.files[p := contents]
  }

  /** When an event settles the disk: no step fails, and nothing stands in its way. */
  ghost predicate Settles(fate: nat -> Fate, a: Moment, e: Event, b: Moment)
  {
    AllWork(fate, a.clock, b.clock) && IsRecoverable(a.journal) &&
    match e
    case Sync(_, _, _) => FindsProject(a.files, a.journal, a.targets, a.pre)
    case Recovery => true
    case Edit(_, _) => false
  }

  /**
   What a settled event leaves: the new contents behind a sync, the old ones when
   what it wrote is rejected, or behind a recovery that found a journal.
   */
  ghost predicate IsSettled(a: Moment, e: Event, b: Moment)
  {
    && b.journal.None?
    && match e
       case Sync(tracked, writes, rejected) =>
         HasBegun(a, tracked, writes, b) && if rejected then Same(b.files, b.pre, tracked) else b.files == b.post
       case Recovery => a.journal.Some? ==> Same(b.files, b.pre, b.targets)
       case Edit(_, _) => true
  }

  predicate IsRejected(e: Event)
  {
    e.Sync? && e.rejected
  }

  /** One step of a sync raises, and every other step works. */
  ghost predicate FailsOnce(fate: nat -> Fate, a: Moment, e: Event, b: Moment)
  {
    e.Sync? && !e.rejected && OneRaises(fate, a.clock, b.clock)
  }

  /** It never began, or all is old, or all is new and recovery refuses what is left of the journal. */
  ghost predicate IsUndone(a: Moment, e: Event, b: Moment)
    requires e.Sync?
  {
    || OnlyRecovered(a, b)
    || (&& HasBegun(a, e.tracked, e.writes, b)
        && (|| Same(b.files, b.pre, e.tracked)
            || (b.files == b.post && b.journal.Some? && !Readable(b.journal.value))))
  }

  /** Every target of the last sync begun is old, or every one is new, unless a journal waits to make them old. */
  ghost predicate IsSafe(m: Moment)
  {
    Safe(m.files, m.journal, m.targets, m.pre, m.post)
  }

  /**
   How one event went: it returned exactly when it settles the disk and nothing is
   rejected; when it settles, all is in place; and one failing step is undone.
   */
  ghost predicate IsRecorded(fate: nat -> Fate, a: Moment, e: Event, b: Moment, returned: bool)
  {
    && Follows(a, e, b)
    && (returned <==> Settles(fate, a, e, b) && !IsRejected(e))
    && (Settles(fate, a, e, b) ==> IsSettled(a, e, b))
    && (FailsOnce(fate, a, e, b) ==> IsUndone(a, e, b))
  }

  /**
   Whatever the events and whatever fails between them: at any moment without a
   journal, every target of the last sync begun has the content that sync found,
   or every target has the content it was to write; a sync or a recovery returns
   exactly when no step of it fails, nothing stands in its way and nothing is
   rejected.  Then no journal is left, and neither is one behind a rejected sync
   whose steps all work: it has put everything back.  So has a sync of which one
   step failed.  Edits are of files that sync does not own.
   */
  method History(w: Workspace, events: seq<Event>) returns (returned: seq<bool>, ghost trace: seq<Moment>)
    requires w.Ok() && forall e :: e in events ==> IsSync(e)
    modifies w
    ensures w.Ok() && |returned| == |events| && |trace| == |events| + 1
    ensures trace[0] == old(w.Seen()) && trace[|events|] == w.Seen()
    ensures forall i :: 0 <= i <= |events| ==> IsSafe(trace[i])
    ensures forall i :: 0 <= i < |events| ==> IsRecorded(w.fate, trace[i], events[i], trace[i + 1], returned[i])
  {
    hide IsSafe, IsRecorded;
    returned, trace := [], [w.Seen()];
    SeenIsSafe(w);
    for i := 0 to |events|
      invariant w.Ok() && |returned| == i && |trace| == i + 1
      invariant trace[0] == old(w.Seen()) && trace[i] == w.Seen()
      invariant forall k :: 0 <= k <= i ==> IsSafe(trace[k])
      invariant forall k :: 0 <= k < i ==> IsRecorded(w.fate, trace[k], events[k], trace[k + 1], returned[k])
    {
      assert events[i] in events;
      var done := Happen(w, events[i]);
      SeenIsSafe(w);
      returned, trace := returned + [done], trace + [w.Seen()];
    }
  }

  lemma SeenIsSafe(w: Workspace)
    requires w.Ok()
    ensures IsSafe(w.Seen())
  {
  }

  method Happen(w: Workspace, e: Event) returns (done: bool)
    requires w.Ok() && IsSync(e)
    modifies w
    ensures w.Ok() && IsRecorded(w.fate, old(w.Seen()), e, w.Seen(), done)
  {
    hide Safe, Same, KeptOutside, IsBase, AllWork, Stops, OneRaises, FindsProject;
    done := false;
    match e {
      case Sync(tracked, writes, rejected) =>
        done := HappenSync(w, tracked, writes, rejected);
      case Recovery =>
        var exit := w.Recover();
        done := exit.Returned?;
      case Edit(p, contents) =>
        w.EditOther(p, contents);
    }
  }

  method HappenSync(w: Workspace, tracked: set<Path>, writes: seq<(Path, Bytes)>, rejected: bool) returns (done: bool)
    requires w.Ok() && IsSync(Sync(tracked, writes, rejected))
    modifies w
    ensures w.Ok() && IsRecorded(w.fate, old(w.Seen()), Sync(tracked, writes, rejected), w.Seen(), done)
  {
    hide Safe, Same, KeptOutside, IsBase, AllWork, Stops, OneRaises, FindsProject;
    var exit := w.SetVersion(tracked, writes, rejected);
    done := exit.Returned?;
  }

  /**
   Crash atomicity of one sync, in real contents: it may crash anywhere, and so
   may every recovery behind it.  No other file ever changes; whenever no journal
   is left, all tracked files are as they were or all are as written; when
   nothing fails they are as written, and when all that fails is the check of
   what was written, they are as they were.
   */
  method SyncAndRecover(w: Workspace, tracked: set<Path>, writes: seq<(Path, Bytes)>, rejected: bool, tries: nat)
    returns (recovered: bool)
    requires w.Ok() && w.journal.None?
    requires PYPROJECT in tracked && forall w :: w in writes ==> w.0 in tracked
    modifies w
    ensures KeptOutside(w.files, old(w.files), tracked)
    ensures w.journal.None? ==>
              Same(w.files, old(w.files), tracked) || Same(w.files, Written(old(w.files), writes), tracked)
    ensures recovered ==> w.journal.None?
    ensures AllWork(w.fate, old(w.clock), w.clock) && PYPROJECT in old(w.files) ==>
              && w.journal.None?
              && if rejected then Same(w.files, old(w.files), tracked)
                 else recovered && Same(w.files, Written(old(w.files), writes), tracked)
  {
    hide Stops, OneRaises;
    var exit := w.SetVersion(tracked, writes, rejected);
    recovered := exit.Returned?;
    ghost var began := w.targets == tracked && w.pre == old(w.files) && w.post == Written(old(w.files), writes);
    ghost var synced := w.clock;
    for i := 0 to tries
      invariant w.Ok() && w.clock >= synced && (recovered && exit.Returned? ==> w.files == Written(old(w.files), writes))
      invariant AllWork(w.fate, old(w.clock), synced) && PYPROJECT in old(w.files) ==>
                  if rejected then w.journal.None? && Same(w.files, old(w.files), tracked) else recovered && exit.Returned?
      invariant began == (w.targets == tracked && w.pre == old(w.files) && w.post == Written(old(w.files), writes))
      invariant if began then KeptOutside(w.files, old(w.files), tracked) else w.files == old(w.files) && w.journal.None?
      invariant recovered ==> w.journal.None?
    {
      if recovered {
        return;
      }
      var again := w.Recover();
      recovered := again.Returned?;
    }
  }
}
