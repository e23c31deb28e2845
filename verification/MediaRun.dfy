/** Interleaved steps of the threads that store media outputs and save the index, with failures and crashes. */
module MediaRun {
  import opened MediaHistory

  /** The thread that holds the persistence lock. */
  datatype Persist = Idle | Saving(snapshot: Jobs, taken: seq<File>) | Deleting(saved: Jobs, todo: seq<File>)

  /** A job's outputs being written, or being taken back. */
  datatype Store = Writing(created: seq<Output>) | Undoing(left: seq<File>)

  /** index and files are on disk, the rest is in memory; sealed are the jobs that have stored their outputs. */
  datatype History = History(
    jobs: Jobs, retired: seq<File>, nextId: nat, persist: Persist, stores: map<nat, Store>, sealed: set<nat>,
    index: Jobs, files: set<File>)

  datatype Action =
    | Begin
    | Finish(id: nat)
    | PersistStart
    | PersistSave(ok: bool)
    | PersistDelete(ok: bool)
    | StoreStart(id: nat)
    | StoreWrite(id: nat, output: Output)
    | StoreAbort(id: nat)
    | StoreUndo(id: nat, ok: bool)
    | StoreCommit(id: nat)
    | Restart(next: nat)

  // ---- the steps ----

  function Pruned(h: History, jobs: Jobs, retired: seq<File>): History {
    var r := Prune(jobs, h.nextId);
    h.(jobs := r.0, retired := retired + r.1)
  }

  function SaveStep(h: History, ok: bool): History {
    match h.persist
    case Saving(snapshot, taken) =>
      if ok then h.(index := snapshot, persist := Deleting(snapshot, taken))
      else h.(retired := h.retired + taken, persist := Idle)
    case _ => h
  }

  predicate Retained(jobs: Jobs, f: File) { exists id :: id in jobs && f in Files(jobs[id].outputs) }

  function DeleteStep(h: History, ok: bool): History {
    match h.persist
    case Deleting(saved, todo) =>
      if todo == [] then h.(persist := Idle)
      else
        var left := h.(persist := Deleting(saved, todo[1..]));
        if Retained(saved, todo[0]) || !ok then left else left.(files := h.files - {todo[0]})
    case _ => h
  }

  function CommitStep(h: History, id: nat, created: seq<Output>): History {
    if id !in h.jobs then h.(stores := h.stores[id := Undoing(Files(created))])
    else
      var jobs := h.jobs[id := h.jobs[id].(outputs := created)];
      var now := Pruned(h, jobs, h.retired + Files(h.jobs[id].outputs));
      now.(stores := h.stores - {id}, sealed := h.sealed + {id})
  }

  function UndoStep(h: History, id: nat, left: seq<File>, ok: bool): History {
    if left == [] then h.(stores := h.stores - {id})
    else
      var now := h.(stores := h.stores[id := Undoing(left[1..])]);
      if ok then now.(files := h.files - {left[0]}) else now
  }

  function Present(os: seq<Output>, files: set<File>): seq<Output> {
    if os == [] then [] else (if os[0].file in files then [os[0]] else []) + Present(os[1..], files)
  }

  /** What configure_media_history reads back: no job is running any more, missing outputs are left out. */
  function Loaded(index: Jobs, files: set<File>): Jobs {
    map id | id in index :: Job(false, Present(index[id].outputs, files))
  }

  function RestartStep(h: History, next: nat): History {
    var start := History(map[], [], next, Idle, map[], h.index.Keys, h.index, h.files);
    Pruned(start, Loaded(h.index, h.files), [])
  }

  function Step(h: History, a: Action): History {
    match a
    case Begin => h.(jobs := h.jobs[h.nextId := Job(true, [])], nextId := h.nextId + 1)
    case Finish(id) => Pruned(h, if id in h.jobs then h.jobs[id := h.jobs[id].(running := false)] else h.jobs, h.retired)
    case PersistStart => h.(persist := Saving(h.jobs, h.retired), retired := [])
    case PersistSave(ok) => SaveStep(h, ok)
    case PersistDelete(ok) => DeleteStep(h, ok)
    case StoreStart(id) => h.(stores := h.stores[id := Writing([])])
    case StoreWrite(id, o) =>
      if id in h.stores && h.stores[id].Writing? then
        h.(stores := h.stores[id := Writing(h.stores[id].created + [o])], files := h.files + {o.file})
      else h
    case StoreAbort(id) =>
      if id in h.stores && h.stores[id].Writing? then h.(stores := h.stores[id := Undoing(Files(h.stores[id].created))]) else h
    case StoreUndo(id, ok) =>
      if id in h.stores && h.stores[id].Undoing? then UndoStep(h, id, h.stores[id].left, ok) else h
    case StoreCommit(id) =>
      if id in h.stores && h.stores[id].Writing? then CommitStep(h, id, h.stores[id].created) else h
    case Restart(next) => RestartStep(h, next)
  }

  /** What the thread that is saving has snapped. */
  function Snapped(p: Persist): Jobs { match p case Saving(snapshot, _) => snapshot case _ => map[] }

  /** f will be deleted by the save under way. */
  ghost predicate Sentenced(p: Persist, f: File) {
    match p
    case Idle => false
    case Saving(snapshot, taken) => f in taken && !Names(snapshot, f)
    case Deleting(saved, todo) => f in todo && !Names(saved, f)
  }

  /** f is named by the index, by a job, or by the index being saved. */
  ghost predicate Needed(h: History, f: File) { Names(h.index, f) || Names(h.jobs, f) || Names(Snapped(h.persist), f) }

  ghost predicate NoneNeeded(h: History, created: seq<Output>) {
    forall i | 0 <= i < |created| :: !Needed(h, created[i].file)
  }

  /** What the code itself sees to: one save at a time, one store of a job at a time, names made from the job's
      identifier, and identifiers that go on behind those of the index. */
  ghost predicate Possible(h: History, a: Action) {
    match a
    case PersistStart => h.persist.Idle?
    case StoreStart(id) => id < h.nextId && id !in h.stores
    case StoreWrite(id, o) => o.file.id == id
    case Restart(next) => (forall id | id in h.index :: id < next) && (next == 1 || (next > 0 && next - 1 in h.index))
    case _ => true
  }

  predicate Open(h: History, id: nat) { id in h.stores && h.stores[id].Writing? }

  /** f is on disk and will not be deleted by the save under way. */
  ghost predicate Landed(h: History, f: File) { f in h.files && !Sentenced(h.persist, f) }

  ghost predicate AllLanded(h: History, created: seq<Output>) { forall i | 0 <= i < |created| :: Landed(h, created[i].file) }

  /** A store is committed if its files have landed or its job is pruned at once, and takes back only files that nobody
      names.  For a job that has not stored outputs before this is always so (FirstStoreIsFree). */
  ghost predicate Enabled(h: History, a: Action) {
    && Possible(h, a)
    && match a
       case StoreAbort(id) => Open(h, id) ==> NoneNeeded(h, h.stores[id].created)
       case StoreCommit(id) =>
         Open(h, id) ==>
           if id in h.jobs then id in Step(h, a).jobs ==> AllLanded(h, h.stores[id].created)
           else NoneNeeded(h, h.stores[id].created)
       case _ => true
  }

  // ---- what every step keeps ----

  /** Every file that the jobs name is on disk and belongs to a job that has stored its outputs. */
  ghost predicate OnDisk(jobs: Jobs, files: set<File>, sealed: set<nat>) {
    Owned(jobs) && forall f: File | Names(jobs, f) :: f in files && f.id in sealed
  }

  ghost predicate AllSealed(fs: seq<File>, sealed: set<nat>) { forall f: File | f in fs :: f.id in sealed }

  /** A store writes files of its job; what the first store of a job has written stays on disk while it is open. */
  ghost predicate StoreOk(h: History, id: nat, s: Store) {
    && id < h.nextId
    && match s
       case Writing(created) =>
         forall i | 0 <= i < |created| :: created[i].file.id == id && (id !in h.sealed ==> created[i].file in h.files)
       case Undoing(left) => forall f: File | f in left :: f.id == id && !Needed(h, f)
  }

  ghost predicate StoresOk(h: History) { forall id | id in h.stores :: StoreOk(h, id, h.stores[id]) }

  ghost predicate PersistOk(h: History) {
    match h.persist
    case Idle => true
    case Saving(snapshot, taken) =>
      && OnDisk(snapshot, h.files, h.sealed) && Below(snapshot, h.nextId) && AllSealed(taken, h.sealed)
      && forall f: File | Names(snapshot, f) && !Names(h.jobs, f) :: f in h.retired
    case Deleting(saved, todo) => saved == h.index && AllSealed(todo, h.sealed)
  }

  ghost predicate Bounds(h: History) {
    Below(h.jobs, h.nextId) && Below(h.index, h.nextId) && (forall id | id in h.sealed :: id < h.nextId) && h.nextId >= 1
  }

  ghost predicate JobsOk(h: History) {
    OnDisk(h.jobs, h.files, h.sealed) && forall f: File | Names(h.jobs, f) :: !Sentenced(h.persist, f)
  }

  ghost predicate Inv(h: History) {
    && Bounds(h)
    && OnDisk(h.index, h.files, h.sealed)
    && JobsOk(h)
    && AllSealed(h.retired, h.sealed)
    && StoresOk(h)
    && PersistOk(h)
  }

  /** A job that has not stored outputs may commit and take back as it likes. */
  lemma FirstStoreIsFree(h: History, id: nat)
    requires Inv(h) && id !in h.sealed
    ensures Enabled(h, StoreAbort(id)) && Enabled(h, StoreCommit(id))
  {
    assert forall f: File | f.id == id :: !Needed(h, f) && !Sentenced(h.persist, f);
    assert id in h.stores ==> StoreOk(h, id, h.stores[id]);
  }

  lemma OnDiskMore(jobs: Jobs, files: set<File>, sealed: set<nat>, files': set<File>, sealed': set<nat>)
    requires OnDisk(jobs, files, sealed) && sealed <= sealed'
    requires forall f: File | f in files && f !in files' :: !Names(jobs, f)
    ensures OnDisk(jobs, files', sealed')
  {
  }

  /** now has fewer jobs than jobs, and at least what they named is retired. */
  ghost predicate Shrunk(jobs: Jobs, now: Jobs, retired: seq<File>) {
    && now.Keys <= jobs.Keys && (forall id | id in now :: now[id] == jobs[id])
    && forall f: File | Names(jobs, f) && f.id !in now :: f in retired
  }

  lemma ShrunkNames(jobs: Jobs, now: Jobs, retired: seq<File>, f: File)
    requires Shrunk(jobs, now, retired)
    ensures Names(now, f) ==> Names(jobs, f)
    ensures Names(jobs, f) && !Names(now, f) ==> f in retired
    ensures f.id in now ==> (Names(now, f) <==> Names(jobs, f))
  {
  }

  lemma ShrinkStore(h: History, now: Jobs, more: seq<File>, id: nat)
    requires Shrunk(h.jobs, now, more) && id in h.stores && StoreOk(h, id, h.stores[id])
    ensures StoreOk(h.(jobs := now, retired := h.retired + more), id, h.stores[id])
  {
    var g := h.(jobs := now, retired := h.retired + more);
    if h.stores[id].Undoing? {
      forall f: File | f in h.stores[id].left ensures !Needed(g, f) {
        ShrunkNames(h.jobs, now, more, f);
      }
    }
  }

  lemma ShrinkPersist(h: History, now: Jobs, more: seq<File>)
    requires Shrunk(h.jobs, now, more) && PersistOk(h)
    ensures PersistOk(h.(jobs := now, retired := h.retired + more))
  {
    if h.persist.Saving? {
      forall f: File | Names(h.persist.snapshot, f) && !Names(now, f) ensures f in h.retired + more {
        ShrunkNames(h.jobs, now, more, f);
      }
    }
  }

  /** Jobs may leave when the files they name are retired. */
  lemma ShrinkInv(h: History, now: Jobs, more: seq<File>)
    requires Inv(h) && Shrunk(h.jobs, now, more) && AllSealed(more, h.sealed)
    ensures Inv(h.(jobs := now, retired := h.retired + more))
  {
    forall f: File | Names(now, f) ensures Names(h.jobs, f) { }
    forall id | id in h.stores ensures StoreOk(h.(jobs := now, retired := h.retired + more), id, h.stores[id]) {
      ShrinkStore(h, now, more, id);
    }
    ShrinkPersist(h, now, more);
    forall f: File | f in h.retired + more ensures f.id in h.sealed { }
  }

  /** Pruning, in whatever step it happens. */
  lemma PruneInv(h: History)
    requires Inv(h)
    ensures Inv(Pruned(h, h.jobs, h.retired))
  {
    PruneRetires(h.jobs, h.nextId);
    var now, more := Prune(h.jobs, h.nextId).0, Prune(h.jobs, h.nextId).1;
    ShrinkInv(h, now, more);
  }

  /** Jobs that name the same files, in front of the same stores. */
  ghost predicate SameNames(jobs: Jobs, now: Jobs) { forall f: File :: Names(now, f) <==> Names(jobs, f) }

  lemma RenameInv(h: History, now: Jobs, next: nat)
    requires Inv(h) && SameNames(h.jobs, now) && Owned(now) && Below(now, next) && h.nextId <= next
    ensures Inv(h.(jobs := now, nextId := next))
  {
    var g := h.(jobs := now, nextId := next);
    forall id | id in h.stores ensures StoreOk(g, id, g.stores[id]) {
      assert StoreOk(h, id, h.stores[id]);
    }
  }

  lemma BeginInv(h: History)
    requires Inv(h)
    ensures Inv(Step(h, Begin))
  {
    RenameInv(h, h.jobs[h.nextId := Job(true, [])], h.nextId + 1);
  }

  lemma FinishInv(h: History, id: nat)
    requires Inv(h)
    ensures Inv(Step(h, Finish(id)))
  {
    var now := if id in h.jobs then h.jobs[id := h.jobs[id].(running := false)] else h.jobs;
    RenameInv(h, now, h.nextId);
    PruneInv(h.(jobs := now));
  }

  lemma PersistStartInv(h: History)
    requires Inv(h) && h.persist.Idle?
    ensures Inv(Step(h, PersistStart))
  {
    var g := Step(h, PersistStart);
    forall id | id in h.stores ensures StoreOk(g, id, g.stores[id]) {
      assert StoreOk(h, id, h.stores[id]);
    }
  }

  lemma SaveInv(h: History, ok: bool)
    requires Inv(h)
    ensures Inv(Step(h, PersistSave(ok)))
  {
    var g := Step(h, PersistSave(ok));
    if h.persist.Saving? {
      forall id | id in h.stores ensures StoreOk(g, id, g.stores[id]) {
        assert StoreOk(h, id, h.stores[id]);
      }
    }
  }

  lemma RetainedIsNamed(jobs: Jobs, f: File)
    requires Owned(jobs)
    ensures Retained(jobs, f) <==> Names(jobs, f)
  {
    if Retained(jobs, f) {
      var id :| id in jobs && f in Files(jobs[id].outputs);
    }
  }

  /** A file that the saved index does not name may be deleted: no job names it, no store has written it. */
  lemma DeleteInv(h: History, ok: bool)
    requires Inv(h)
    ensures Inv(Step(h, PersistDelete(ok)))
  {
    var g := Step(h, PersistDelete(ok));
    if h.persist.Deleting? && h.persist.todo != [] {
      var p := h.persist.todo[0];
      RetainedIsNamed(h.index, p);
      assert p in h.persist.todo;
      OnDiskMore(h.index, h.files, h.sealed, g.files, h.sealed);
      OnDiskMore(h.jobs, h.files, h.sealed, g.files, h.sealed);
      forall id | id in h.stores ensures StoreOk(g, id, g.stores[id]) {
        assert StoreOk(h, id, h.stores[id]);
      }
    } else if h.persist.Deleting? {
      forall id | id in h.stores ensures StoreOk(g, id, g.stores[id]) {
        assert StoreOk(h, id, h.stores[id]);
      }
    }
  }

  lemma StartInv(h: History, id: nat)
    requires Inv(h) && Enabled(h, StoreStart(id))
    ensures Inv(Step(h, StoreStart(id)))
  {
    var g := Step(h, StoreStart(id));
    forall j | j in g.stores ensures StoreOk(g, j, g.stores[j]) {
      assert j in h.stores ==> StoreOk(h, j, h.stores[j]);
    }
  }

  lemma WriteInv(h: History, id: nat, o: Output)
    requires Inv(h) && Enabled(h, StoreWrite(id, o))
    ensures Inv(Step(h, StoreWrite(id, o)))
  {
    var g := Step(h, StoreWrite(id, o));
    OnDiskMore(h.index, h.files, h.sealed, g.files, h.sealed);
    OnDiskMore(h.jobs, h.files, h.sealed, g.files, h.sealed);
    if h.persist.Saving? {
      OnDiskMore(h.persist.snapshot, h.files, h.sealed, g.files, h.sealed);
    }
    forall j | j in g.stores ensures StoreOk(g, j, g.stores[j]) {
      assert j in h.stores && StoreOk(h, j, h.stores[j]);
    }
  }

  /** Taking back begins with files that nobody names. */
  lemma TakeBackInv(h: History, id: nat)
    requires Inv(h) && id in h.stores && h.stores[id].Writing? && NoneNeeded(h, h.stores[id].created)
    ensures Inv(h.(stores := h.stores[id := Undoing(Files(h.stores[id].created))]))
  {
    var created := h.stores[id].created;
    var g := h.(stores := h.stores[id := Undoing(Files(created))]);
    forall j | j in g.stores ensures StoreOk(g, j, g.stores[j]) {
      assert StoreOk(h, j, h.stores[j]);
      if j == id {
        forall f: File | f in Files(created) ensures f.id == id && !Needed(g, f) {
          var i :| 0 <= i < |created| && created[i].file == f;
        }
      }
    }
  }

  /** A file taken back is named by nobody. */
  lemma UndoInv(h: History, id: nat, ok: bool)
    requires Inv(h)
    ensures Inv(Step(h, StoreUndo(id, ok)))
  {
    var g := Step(h, StoreUndo(id, ok));
    if id in h.stores && h.stores[id].Undoing? {
      var left := h.stores[id].left;
      assert StoreOk(h, id, h.stores[id]);
      if left != [] {
        assert left[0] in left && !Needed(h, left[0]);
      }
      OnDiskMore(h.index, h.files, h.sealed, g.files, h.sealed);
      OnDiskMore(h.jobs, h.files, h.sealed, g.files, h.sealed);
      if h.persist.Saving? {
        OnDiskMore(h.persist.snapshot, h.files, h.sealed, g.files, h.sealed);
      }
      forall j | j in g.stores ensures StoreOk(g, j, g.stores[j]) {
        assert StoreOk(h, j, h.stores[j]);
      }
    }
  }

  /** The state right after the job's outputs have been replaced, before pruning. */
  ghost function Replaced(h: History, id: nat, created: seq<Output>): History
    requires id in h.jobs
  {
    h.(jobs := h.jobs[id := h.jobs[id].(outputs := created)], retired := h.retired + Files(h.jobs[id].outputs),
       stores := h.stores - {id}, sealed := h.sealed + {id})
  }

  lemma ReplacedNames(h: History, id: nat, created: seq<Output>, f: File)
    requires id in h.jobs
    ensures var g := Replaced(h, id, created);
            && (f.id != id ==> (Names(g.jobs, f) <==> Names(h.jobs, f)) && (Owned(h.jobs) ==> (f in g.retired <==> f in h.retired)))
            && (f.id == id ==> (Names(g.jobs, f) <==> f in Files(created)))
            && (f.id == id && Names(h.jobs, f) ==> f in g.retired)
  {
    if f in Files(h.jobs[id].outputs) {
      var i :| 0 <= i < |h.jobs[id].outputs| && h.jobs[id].outputs[i].file == f;
    }
  }

  lemma ReplacedOnDisk(h: History, id: nat, created: seq<Output>)
    requires Inv(h) && id in h.jobs && id in h.stores && h.stores[id] == Writing(created) && AllLanded(h, created)
    ensures JobsOk(Replaced(h, id, created))
  {
    var g := Replaced(h, id, created);
    assert StoreOk(h, id, h.stores[id]);
    forall f: File | Names(g.jobs, f) ensures f in g.files && f.id in g.sealed && !Sentenced(g.persist, f) {
      ReplacedNames(h, id, created, f);
      if f.id == id {
        var i :| 0 <= i < |created| && created[i].file == f;
      }
    }
  }

  lemma ReplacedStore(h: History, id: nat, created: seq<Output>, j: nat)
    requires Inv(h) && id in h.jobs && j in h.stores && j != id
    ensures StoreOk(Replaced(h, id, created), j, h.stores[j])
  {
    var g := Replaced(h, id, created);
    assert StoreOk(h, j, h.stores[j]);
    if h.stores[j].Undoing? {
      forall f: File | f in h.stores[j].left ensures !Needed(g, f) {
        ReplacedNames(h, id, created, f);
      }
    }
  }

  lemma ReplacedPersist(h: History, id: nat, created: seq<Output>)
    requires Inv(h) && id in h.jobs
    ensures PersistOk(Replaced(h, id, created))
  {
    var g := Replaced(h, id, created);
    if h.persist.Saving? {
      OnDiskMore(h.persist.snapshot, h.files, h.sealed, h.files, g.sealed);
      forall f: File | Names(h.persist.snapshot, f) && !Names(g.jobs, f) ensures f in g.retired {
        ReplacedNames(h, id, created, f);
      }
    }
  }

  lemma ReplacedInv(h: History, id: nat, created: seq<Output>)
    requires Inv(h) && id in h.jobs && id in h.stores && h.stores[id] == Writing(created) && AllLanded(h, created)
    ensures Inv(Replaced(h, id, created))
  {
    var g := Replaced(h, id, created);
    OnDiskMore(h.index, h.files, h.sealed, h.files, g.sealed);
    ReplacedOnDisk(h, id, created);
    ReplacedPersist(h, id, created);
    forall j | j in g.stores ensures StoreOk(g, j, g.stores[j]) {
      ReplacedStore(h, id, created, j);
    }
    forall f: File | f in g.retired ensures f.id in g.sealed {
      ReplacedNames(h, id, created, f);
    }
  }

  /** The state without the job whose store is committed: what it named is retired. */
  ghost function Given(h: History, id: nat): History
    requires id in h.jobs
  {
    h.(jobs := h.jobs - {id}, retired := h.retired + Files(h.jobs[id].outputs), stores := h.stores - {id}, sealed := h.sealed + {id})
  }

  lemma NamedFiles(jobs: Jobs, id: nat, f: File)
    requires id in jobs && Owned(jobs) && f in Files(jobs[id].outputs)
    ensures f.id == id && Names(jobs, f)
  {
    var i :| 0 <= i < |jobs[id].outputs| && jobs[id].outputs[i].file == f;
  }

  lemma GivenInv(h: History, id: nat)
    requires Inv(h) && id in h.jobs && id in h.stores
    ensures Inv(Given(h, id))
  {
    var more := Files(h.jobs[id].outputs);
    forall f: File | f in more ensures f.id in h.sealed {
      NamedFiles(h.jobs, id, f);
    }
    assert StoreOk(h, id, h.stores[id]);
    ShrinkInv(h, h.jobs - {id}, more);
    SealInv(h.(jobs := h.jobs - {id}, retired := h.retired + more), id);
  }

  /** A job that is gone may be called one that has stored. */
  lemma SealInv(h: History, id: nat)
    requires Inv(h) && id < h.nextId
    ensures Inv(h.(stores := h.stores - {id}, sealed := h.sealed + {id}))
  {
    var g := h.(stores := h.stores - {id}, sealed := h.sealed + {id});
    forall j | j in g.stores ensures StoreOk(g, j, g.stores[j]) {
      assert StoreOk(h, j, h.stores[j]);
    }
    forall f: File | f in h.retired ensures f.id in g.sealed { }
  }

  /** A store whose job is pruned by its own commit leaves nothing behind but retired files. */
  lemma PrunedCommitInv(h: History, id: nat, created: seq<Output>)
    requires Inv(h) && id in h.jobs && id in h.stores && h.stores[id] == Writing(created)
    requires id !in Step(h, StoreCommit(id)).jobs
    ensures Inv(Step(h, StoreCommit(id)))
  {
    var jobs := Replaced(h, id, created).jobs;
    var r, g := Prune(jobs, h.nextId), Given(h, id);
    ReplacedOwned(h, id, created);
    PruneRetires(jobs, h.nextId);
    GivenInv(h, id);
    forall f: File | f in r.1 ensures f.id in g.sealed {
      PrunedIsSealed(h, id, created, f);
    }
    ShrinkInv(g, r.0, r.1);
  }

  lemma ReplacedOwned(h: History, id: nat, created: seq<Output>)
    requires Inv(h) && id in h.jobs && id in h.stores && h.stores[id] == Writing(created)
    ensures Owned(Replaced(h, id, created).jobs) && Below(Replaced(h, id, created).jobs, h.nextId)
  {
    assert StoreOk(h, id, h.stores[id]);
  }

  lemma PrunedIsSealed(h: History, id: nat, created: seq<Output>, f: File)
    requires Inv(h) && id in h.jobs && Names(Replaced(h, id, created).jobs, f)
    ensures f.id in h.sealed + {id}
  {
    if f.id != id {
      assert Names(h.jobs, f);
    }
  }

  lemma CommitInv(h: History, id: nat)
    requires Inv(h) && Enabled(h, StoreCommit(id))
    ensures Inv(Step(h, StoreCommit(id)))
  {
    if id in h.stores && h.stores[id].Writing? {
      var created := h.stores[id].created;
      if id in h.jobs && id in Step(h, StoreCommit(id)).jobs {
        ReplacedInv(h, id, created);
        PruneInv(Replaced(h, id, created));
      } else if id in h.jobs {
        PrunedCommitInv(h, id, created);
      } else {
        TakeBackInv(h, id);
      }
    }
  }

  lemma {:induction false} PresentFiles(os: seq<Output>, files: set<File>, i: nat)
    requires i < |Present(os, files)|
    ensures Present(os, files)[i].file in files && Present(os, files)[i] in os
  {
    if os[0].file in files {
      if i > 0 {
        PresentFiles(os[1..], files, i - 1);
      }
    } else {
      PresentFiles(os[1..], files, i);
    }
  }

  lemma LoadedOnDisk(index: Jobs, files: set<File>)
    requires Owned(index)
    ensures OnDisk(Loaded(index, files), files, index.Keys)
  {
    var jobs := Loaded(index, files);
    forall id, i | id in jobs && 0 <= i < |jobs[id].outputs|
      ensures jobs[id].outputs[i].file.id == id && jobs[id].outputs[i].file in files
    {
      PresentFiles(index[id].outputs, files, i);
    }
  }

  /** After a crash in any state what is on disk is enough to start again. */
  lemma RestartInv(h: History, next: nat)
    requires Inv(h) && Enabled(h, Restart(next))
    ensures Inv(Step(h, Restart(next)))
  {
    LoadedOnDisk(h.index, h.files);
    var start := History(Loaded(h.index, h.files), [], next, Idle, map[], h.index.Keys, h.index, h.files);
    assert OnDisk(h.index, h.files, h.index.Keys);
    assert Inv(start);
    PruneInv(start);
  }

  /** Reading outputs back takes them one by one: those on disk, in their order. */
  lemma {:induction false} PresentSplit(a: seq<Output>, b: seq<Output>, files: set<File>)
    ensures Present(a + b, files) == Present(a, files) + Present(b, files)
  {
    if a == [] {
      assert a + b == b;
    } else {
      assert (a + b)[1..] == a[1..] + b && (a + b)[0] == a[0];
      PresentSplit(a[1..], b, files);
      var rest := Present(a[1..], files) + Present(b, files);
      assert Present(a + b, files) == (if a[0].file in files then [a[0]] + rest else rest);
    }
  }

  lemma {:induction false} PresentAll(os: seq<Output>, files: set<File>)
    requires forall i | 0 <= i < |os| :: os[i].file in files
    ensures Present(os, files) == os
  {
    if os == [] {
    } else {
      PresentAll(os[1..], files);
    }
  }

  /** The jobs of the index, none of them running, with all their outputs. */
  function Indexed(index: Jobs): Jobs { map id | id in index :: Job(false, index[id].outputs) }

  lemma LoadedIsIndexed(h: History)
    requires Inv(h)
    ensures Loaded(h.index, h.files) == Indexed(h.index)
  {
    forall id | id in h.index ensures Present(h.index[id].outputs, h.files) == h.index[id].outputs {
      forall i | 0 <= i < |h.index[id].outputs| ensures h.index[id].outputs[i].file in h.files {
        assert Files(h.index[id].outputs)[i] == h.index[id].outputs[i].file;
        assert Names(h.index, h.index[id].outputs[i].file);
      }
      PresentAll(h.index[id].outputs, h.files);
    }
  }

  /** A restart keeps the history: index and files stay, every job that is there has all the outputs that the index names,
      in order, and is not running; every job of the index is there unless the limits demand otherwise, and then the
      files of exactly those that are not are retired. */
  lemma RestartKeeps(h: History, next: nat)
    requires Inv(h) && Enabled(h, Restart(next))
    ensures var g := Step(h, Restart(next));
            && g.index == h.index && g.files == h.files && g.nextId == next && g.persist.Idle? && g.stores == map[]
            && (forall id | id in g.jobs :: id in h.index && g.jobs[id] == Job(false, h.index[id].outputs))
            && (forall f: File :: f in g.retired <==> Names(h.index, f) && f.id !in g.jobs)
            && (!Over(Indexed(h.index), next) ==> g.jobs == Indexed(h.index) && g.retired == [])
            && !Over(g.jobs, next)
  {
    var jobs := Indexed(h.index);
    LoadedIsIndexed(h);
    IndexedOwned(h.index);
    PruneRetires(jobs, next);
    PruneKeepsTheNewest(jobs, next);
    NoneRunning(Prune(jobs, next).0, next);
  }

  lemma IndexedOwned(index: Jobs)
    requires Owned(index)
    ensures Owned(Indexed(index)) && forall f: File :: Names(Indexed(index), f) <==> Names(index, f)
  {
  }

  /** Without jobs there is nothing to limit. */
  lemma NoneRunning(jobs: Jobs, n: nat)
    requires (forall id | id in jobs :: !jobs[id].running) && (Over(jobs, n) ==> forall id | id in jobs :: jobs[id].running)
    ensures !Over(jobs, n)
  {
    if Over(jobs, n) {
      assert forall id :: id !in jobs;
      assert jobs == map[];
      EmptyBytes(jobs, n);
    }
  }

  lemma StepInv(h: History, a: Action)
    requires Inv(h) && Enabled(h, a)
    ensures Inv(Step(h, a))
  {
    match a
    case Begin => BeginInv(h);
    case Finish(id) => FinishInv(h, id);
    case PersistStart => PersistStartInv(h);
    case PersistSave(ok) => SaveInv(h, ok);
    case PersistDelete(ok) => DeleteInv(h, ok);
    case StoreStart(id) => StartInv(h, id);
    case StoreWrite(id, o) => WriteInv(h, id, o);
    case StoreAbort(id) =>
      if id in h.stores && h.stores[id].Writing? {
        TakeBackInv(h, id);
      }
    case StoreUndo(id, ok) => UndoInv(h, id, ok);
    case StoreCommit(id) => CommitInv(h, id);
    case Restart(next) => RestartInv(h, next);
  }

  // ---- runs ----

  const START := History(map[], [], 1, Idle, map[], {}, map[], {})

  function Run(h: History, steps: seq<Action>): History {
    if steps == [] then h else Step(Run(h, steps[..|steps| - 1]), steps[|steps| - 1])
  }

  ghost predicate Allowed(h: History, steps: seq<Action>) {
    steps != [] ==>
      Allowed(h, steps[..|steps| - 1]) && Enabled(Run(h, steps[..|steps| - 1]), steps[|steps| - 1])
  }

  ghost predicate Feasible(h: History, steps: seq<Action>) {
    steps != [] ==>
      Feasible(h, steps[..|steps| - 1]) && Possible(Run(h, steps[..|steps| - 1]), steps[|steps| - 1])
  }

  lemma {:induction false} RunInv(h: History, steps: seq<Action>)
    requires Inv(h) && Allowed(h, steps)
    ensures Inv(Run(h, steps))
  {
    if steps == [] {
    } else {
      RunInv(h, steps[..|steps| - 1]);
      StepInv(Run(h, steps[..|steps| - 1]), steps[|steps| - 1]);
    }
  }

  /** At every point of every run, however the threads interleave, whatever fails and whenever the process is
      killed and started again: each output that the index on disk names is on disk. */
  lemma IndexIsBacked(steps: seq<Action>, id: nat, i: nat)
    requires Allowed(START, steps)
    requires id in Run(START, steps).index && i < |Run(START, steps).index[id].outputs|
    ensures Run(START, steps).index[id].outputs[i].file in Run(START, steps).files
  {
    RunInv(START, steps);
    var h := Run(START, steps);
    var f := h.index[id].outputs[i].file;
    assert Files(h.index[id].outputs)[i] == f;
    assert Names(h.index, f);
  }

  /** So is each output of a job in memory: it can be served. */
  lemma OutputsCanBeServed(steps: seq<Action>, id: nat, i: nat)
    requires Allowed(START, steps)
    requires id in Run(START, steps).jobs && i < |Run(START, steps).jobs[id].outputs|
    ensures Run(START, steps).jobs[id].outputs[i].file in Run(START, steps).files
  {
    RunInv(START, steps);
    var h := Run(START, steps);
    var f := h.jobs[id].outputs[i].file;
    assert Files(h.jobs[id].outputs)[i] == f;
    assert Names(h.jobs, f);
  }

  // ---- jobs that store once ----

  /** Possible steps, in which a job that has stored outputs does not begin to store again. */
  ghost predicate Once(h: History, steps: seq<Action>) {
    steps != [] ==>
      var now, a := Run(h, steps[..|steps| - 1]), steps[|steps| - 1];
      Once(h, steps[..|steps| - 1]) && Possible(now, a) && (a.StoreStart? ==> a.id !in now.sealed)
  }

  /** The jobs that are storing have not stored before. */
  predicate Unsealed(h: History) { forall id | id in h.stores :: id !in h.sealed }

  lemma OnceStep(h: History, a: Action)
    requires Inv(h) && Unsealed(h) && Possible(h, a) && (a.StoreStart? ==> a.id !in h.sealed)
    ensures Enabled(h, a) && Unsealed(Step(h, a))
  {
    if a.StoreAbort? || a.StoreCommit? {
      if a.id in h.stores {
        FirstStoreIsFree(h, a.id);
      }
    }
  }

  lemma {:induction false} OnceIsAllowed(h: History, steps: seq<Action>)
    requires Inv(h) && Unsealed(h) && Once(h, steps)
    ensures Allowed(h, steps) && Unsealed(Run(h, steps))
  {
    if steps == [] {
    } else {
      OnceIsAllowed(h, steps[..|steps| - 1]);
      RunInv(h, steps[..|steps| - 1]);
      OnceStep(Run(h, steps[..|steps| - 1]), steps[|steps| - 1]);
    }
  }

  /** Crash consistency where each job stores once: whatever is written, aborted, committed, saved, deleted, pruned and
      restarted in between, at every point the index names only files on disk, and so do the jobs in memory. */
  lemma StoringOnceIsSafe(steps: seq<Action>, f: File)
    requires Once(START, steps)
    ensures var h := Run(START, steps); Names(h.index, f) || Names(h.jobs, f) ==> f in h.files
  {
    OnceIsAllowed(START, steps);
    RunInv(START, steps);
  }

  /** h is what the steps lead to from start. */
  ghost predicate Leads(start: History, steps: seq<Action>, h: History) { Allowed(start, steps) && Run(start, steps) == h }

  /** h is what possible steps lead to from start; they are allowed if safe. */
  ghost predicate Reaches(start: History, steps: seq<Action>, h: History, safe: bool) {
    Run(start, steps) == h && Feasible(start, steps) && (safe ==> Allowed(start, steps))
  }

  lemma ReachesOn(start: History, steps: seq<Action>, h: History, a: Action, now: History, safe: bool)
    requires Reaches(start, steps, h, safe) && Possible(h, a) && (safe ==> Enabled(h, a)) && Step(h, a) == now
    ensures Reaches(start, steps + [a], now, safe)
  {
    assert (steps + [a])[..|steps|] == steps;
  }

  lemma {:induction false} LeadsReaches(start: History, steps: seq<Action>, h: History)
    requires Leads(start, steps, h)
    ensures Reaches(start, steps, h, true)
  {
    if steps == [] {
    } else {
      LeadsReaches(start, steps[..|steps| - 1], Run(start, steps[..|steps| - 1]));
    }
  }

  lemma LeadsOn(start: History, steps: seq<Action>, h: History, a: Action, now: History)
    requires Leads(start, steps, h) && Enabled(h, a) && Step(h, a) == now
    ensures Leads(start, steps + [a], now)
  {
    RunSnoc(start, steps, a);
  }

  lemma LeadsInv(start: History, steps: seq<Action>, h: History)
    requires Leads(start, steps, h) && Inv(start)
    ensures Inv(h)
  {
    RunInv(start, steps);
  }

  lemma RunLast(h: History, steps: seq<Action>, a: Action)
    ensures Run(h, steps + [a]) == Step(Run(h, steps), a)
  {
    assert (steps + [a])[..|steps|] == steps;
  }

  lemma RunSnoc(h: History, steps: seq<Action>, a: Action)
    requires Allowed(h, steps) && Enabled(Run(h, steps), a)
    ensures Allowed(h, steps + [a]) && Run(h, steps + [a]) == Step(Run(h, steps), a)
  {
    assert (steps + [a])[..|steps|] == steps;
  }
}
