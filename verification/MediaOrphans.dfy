/** No media file is forgotten: what is on disk and not named by a job is about to be deleted, unless its removal failed or
    a crash lost track of it. */
module MediaOrphans {
  import opened MediaHistory
  import opened MediaRun

  ghost predicate InStore(stores: map<nat, Store>, f: File) { exists id :: id in stores && Holds(stores[id], f) }

  predicate Holds(s: Store, f: File) {
    match s
    case Writing(created) => f in Files(created)
    case Undoing(left) => f in left
  }

  /** The save under way will look at f. */
  predicate Due(p: Persist, f: File) {
    match p
    case Idle => false
    case Saving(_, taken) => f in taken
    case Deleting(_, todo) => f in todo
  }

  /** A job names f, or it waits to be deleted, or a store has it in hand. */
  ghost predicate Accounted(h: History, f: File) {
    Names(h.jobs, f) || f in h.retired || Due(h.persist, f) || InStore(h.stores, f)
  }

  /** The index that the deletions go by names nothing but what jobs name or what is retired again. */
  ghost predicate Dropped(h: History, f: File) {
    h.persist.Deleting? && Names(h.persist.saved, f) && !Names(h.jobs, f) ==> f in h.retired
  }

  ghost predicate Tracked(h: History, f: File) { Dropped(h, f) && (f in h.files ==> Accounted(h, f)) }

  /** The step that loses f: its removal fails, or the process is killed when only the memory knew of it. */
  ghost predicate Slips(h: History, a: Action, f: File) {
    match a
    case PersistDelete(ok) => !ok && h.persist.Deleting? && h.persist.todo != [] && h.persist.todo[0] == f
    case StoreUndo(id, ok) => !ok && id in h.stores && h.stores[id].Undoing? && h.stores[id].left != [] && h.stores[id].left[0] == f
    case Restart(_) => !Names(h.index, f)
    case _ => false
  }

  /** Jobs may leave, but only into the list of files to delete. */
  lemma PrunedTracked(h: History, f: File)
    requires Tracked(h, f) && Owned(h.jobs)
    ensures Tracked(Pruned(h, h.jobs, h.retired), f)
  {
    PruneRetires(h.jobs, h.nextId);
  }

  lemma FinishTracked(h: History, id: nat, f: File)
    requires Inv(h) && Tracked(h, f)
    ensures Tracked(Step(h, Finish(id)), f)
  {
    var now := if id in h.jobs then h.jobs[id := h.jobs[id].(running := false)] else h.jobs;
    assert Names(now, f) <==> Names(h.jobs, f);
    PrunedTracked(h.(jobs := now), f);
  }

  lemma SaveTracked(h: History, ok: bool, f: File)
    requires Inv(h) && Tracked(h, f)
    ensures Tracked(Step(h, PersistSave(ok)), f)
  {
  }

  lemma DeleteTracked(h: History, ok: bool, f: File)
    requires Inv(h) && Tracked(h, f) && !Slips(h, PersistDelete(ok), f)
    ensures Tracked(Step(h, PersistDelete(ok)), f)
  {
    if h.persist.Deleting? && h.persist.todo != [] {
      RetainedIsNamed(h.persist.saved, h.persist.todo[0]);
    }
  }

  /** Only the store of one job changes. */
  lemma StoreTracked(h: History, g: History, id: nat, f: File)
    requires Tracked(h, f) && g == h.(stores := g.stores, files := g.files) && (f in g.files ==> f in h.files || InStore(g.stores, f))
    requires forall j | j in h.stores && j != id :: j in g.stores && g.stores[j] == h.stores[j]
    requires f in g.files && id in h.stores && Holds(h.stores[id], f) ==> id in g.stores && Holds(g.stores[id], f)
    ensures Tracked(g, f)
  {
    if InStore(h.stores, f) && f in g.files {
      var j :| j in h.stores && Holds(h.stores[j], f);
      assert j in g.stores && Holds(g.stores[j], f);
    }
  }

  lemma WriteTracked(h: History, id: nat, o: Output, f: File)
    requires Tracked(h, f) && id in h.stores && h.stores[id].Writing?
    ensures Tracked(Step(h, StoreWrite(id, o)), f)
  {
    var created := h.stores[id].created;
    assert Files(created + [o]) == Files(created) + [o.file];
    var g := Step(h, StoreWrite(id, o));
    assert f == o.file ==> Holds(g.stores[id], f);
    StoreTracked(h, g, id, f);
  }

  lemma UndoTracked(h: History, id: nat, ok: bool, f: File)
    requires Tracked(h, f) && !Slips(h, StoreUndo(id, ok), f) && id in h.stores && h.stores[id].Undoing?
    ensures Tracked(Step(h, StoreUndo(id, ok)), f)
  {
    StoreTracked(h, Step(h, StoreUndo(id, ok)), id, f);
  }

  lemma CommitTracked(h: History, id: nat, f: File)
    requires Inv(h) && Tracked(h, f) && id in h.stores && h.stores[id].Writing?
    ensures Tracked(Step(h, StoreCommit(id)), f)
  {
    if id in h.jobs {
      var created := h.stores[id].created;
      var g := Replaced(h, id, created);
      ReplacedOwned(h, id, created);
      ReplacedTracked(h, id, f);
      PrunedTracked(g, f);
    } else {
      StoreTracked(h, Step(h, StoreCommit(id)), id, f);
    }
  }

  lemma ReplacedTracked(h: History, id: nat, f: File)
    requires Inv(h) && Tracked(h, f) && id in h.stores && h.stores[id].Writing? && id in h.jobs
    ensures Tracked(Replaced(h, id, h.stores[id].created), f)
  {
    var created := h.stores[id].created;
    ReplacedNames(h, id, created, f);
    assert StoreOk(h, id, h.stores[id]);
    if f in Files(created) {
      var i :| 0 <= i < |created| && created[i].file == f;
    }
    if InStore(h.stores, f) && !Holds(h.stores[id], f) {
      var j :| j in h.stores && Holds(h.stores[j], f);
      assert j in Replaced(h, id, created).stores;
    }
  }

  lemma RestartTracked(h: History, next: nat, f: File)
    requires Inv(h) && Enabled(h, Restart(next)) && Names(h.index, f)
    ensures Tracked(Step(h, Restart(next)), f)
  {
    RestartKeeps(h, next);
  }

  lemma StepTracked(h: History, a: Action, f: File)
    requires Inv(h) && Enabled(h, a) && Tracked(h, f) && !Slips(h, a, f)
    ensures Tracked(Step(h, a), f)
  {
    match a
    case Begin =>
    case Finish(id) => FinishTracked(h, id, f);
    case PersistStart =>
    case PersistSave(ok) => SaveTracked(h, ok, f);
    case PersistDelete(ok) => DeleteTracked(h, ok, f);
    case StoreStart(id) => StoreTracked(h, Step(h, a), id, f);
    case StoreWrite(id, o) => if id in h.stores && h.stores[id].Writing? { WriteTracked(h, id, o, f); }
    case StoreAbort(id) => if id in h.stores && h.stores[id].Writing? { StoreTracked(h, Step(h, a), id, f); }
    case StoreUndo(id, ok) => if id in h.stores && h.stores[id].Undoing? { UndoTracked(h, id, ok, f); }
    case StoreCommit(id) => if id in h.stores && h.stores[id].Writing? { CommitTracked(h, id, f); }
    case Restart(next) => RestartTracked(h, next, f);
  }

  /** If f has not slipped in any step. */
  lemma {:induction false} RunTracked(steps: seq<Action>, f: File)
    requires Allowed(START, steps) && forall i | 0 <= i < |steps| :: !Slips(Run(START, steps[..i]), steps[i], f)
    ensures Tracked(Run(START, steps), f)
  {
    if steps != [] {
      var n := |steps| - 1;
      forall i | 0 <= i < n ensures !Slips(Run(START, steps[..n][..i]), steps[..n][i], f) {
        assert steps[..n][..i] == steps[..i];
        assert !Slips(Run(START, steps[..i]), steps[i], f);
      }
      RunTracked(steps[..n], f);
      RunInv(START, steps[..n]);
      StepTracked(Run(START, steps[..n]), steps[n], f);
    }
  }

  /** In every run a file on disk is named by a job, waits to be deleted, or is being stored, unless some step of the run
      failed to remove this very file, or was a restart whose index does not name it. */
  lemma NothingForgotten(steps: seq<Action>, f: File)
    requires Allowed(START, steps) && f in Run(START, steps).files
    ensures Accounted(Run(START, steps), f) || exists i :: 0 <= i < |steps| && Slips(Run(START, steps[..i]), steps[i], f)
  {
    if forall i | 0 <= i < |steps| :: !Slips(Run(START, steps[..i]), steps[i], f) {
      RunTracked(steps, f);
    }
  }

  /** Once a run has come to rest, with nothing left to delete, and has lost nothing: the files on disk are exactly the
      outputs of the jobs. */
  lemma FilesAreTheOutputs(steps: seq<Action>)
    requires Allowed(START, steps)
    requires forall f: File, i | 0 <= i < |steps| :: !Slips(Run(START, steps[..i]), steps[i], f)
    requires var h := Run(START, steps); h.persist.Idle? && h.stores == map[] && h.retired == []
    ensures forall f: File :: f in Run(START, steps).files <==> Names(Run(START, steps).jobs, f)
  {
    RunInv(START, steps);
    forall f: File ensures f in Run(START, steps).files <==> Names(Run(START, steps).jobs, f) {
      RunTracked(steps, f);
    }
  }
}
