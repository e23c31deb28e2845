/** Jobs that store outputs more than once: exactly when that is safe, and two runs in which it is not. */
module MediaTwice {
  import opened MediaHistory
  import opened MediaRun

  /** Every file that is named is on disk. */
  ghost predicate Backed(h: History) { forall f: File | Needed(h, f) :: f in h.files }

  // ---- taking a store back ----

  ghost function Minus(files: set<File>, fs: seq<File>): set<File> { set f | f in files && f !in fs }

  lemma MinusNext(files: set<File>, fs: seq<File>, n: nat)
    requires n < |fs|
    ensures Minus(files, fs[..n + 1]) == Minus(files, fs[..n]) - {fs[n]}
  {
    assert fs[..n + 1] == fs[..n] + [fs[n]];
  }

  /** What n files taken back leave. */
  ghost function TakenBack(h: History, id: nat, fs: seq<File>, n: nat): History
    requires n <= |fs|
  {
    h.(stores := h.stores[id := Undoing(fs[n..])], files := Minus(h.files, fs[..n]))
  }

  lemma UndoIs(h: History, id: nat, fs: seq<File>, n: nat, g: History)
    requires n < |fs| && g == TakenBack(h, id, fs, n)
    ensures Step(g, StoreUndo(id, true)) == TakenBack(h, id, fs, n + 1)
  {
    MinusNext(h.files, fs, n);
    assert fs[n..][0] == fs[n] && fs[n..][1..] == fs[n + 1..];
    assert g.stores[id := Undoing(fs[n + 1..])] == h.stores[id := Undoing(fs[n + 1..])];
  }

  lemma AbortIs(h: History, id: nat, fs: seq<File>)
    requires id in h.stores && h.stores[id].Writing? && Files(h.stores[id].created) == fs
    ensures Step(h, StoreAbort(id)) == TakenBack(h, id, fs, 0)
  {
    assert fs[0..] == fs && fs[..0] == [];
    assert Minus(h.files, []) == h.files;
  }

  lemma RunOn(h: History, steps: seq<Action>, a: Action, g: History, g': History)
    requires Run(h, steps) == g && Step(g, a) == g'
    ensures Run(h, steps + [a]) == g'
  {
    RunLast(h, steps, a);
  }

  function TakeBack(id: nat, n: nat): seq<Action> { if n == 0 then [] + [StoreAbort(id)] else TakeBack(id, n - 1) + [StoreUndo(id, true)] }

  lemma {:induction false} TakeBackRuns(h: History, id: nat, fs: seq<File>, n: nat)
    requires id in h.stores && h.stores[id].Writing? && Files(h.stores[id].created) == fs && n <= |fs|
    ensures Run(h, TakeBack(id, n)) == TakenBack(h, id, fs, n)
  {
    if n == 0 {
      AbortIs(h, id, fs);
      RunOn(h, [], StoreAbort(id), h, TakenBack(h, id, fs, 0));
    } else {
      TakeBackRuns(h, id, fs, n - 1);
      UndoIs(h, id, fs, n - 1, TakenBack(h, id, fs, n - 1));
      RunOn(h, TakeBack(id, n - 1), StoreUndo(id, true), TakenBack(h, id, fs, n - 1), TakenBack(h, id, fs, n));
    }
  }

  lemma TakenIsBacked(h: History, id: nat, created: seq<Output>, n: nat)
    requires Inv(h) && NoneNeeded(h, created) && n <= |created|
    ensures Backed(TakenBack(h, id, Files(created), n))
  {
    var g := TakenBack(h, id, Files(created), n);
    forall f: File | Needed(g, f) ensures f in g.files {
      assert Needed(h, f);
      assert f in h.files;
    }
  }

  lemma TakenIsNotBacked(h: History, id: nat, created: seq<Output>, i: nat)
    requires i < |created| && Needed(h, created[i].file)
    ensures !Backed(TakenBack(h, id, Files(created), i + 1))
  {
    var g := TakenBack(h, id, Files(created), i + 1);
    assert Files(created)[..i + 1][i] == created[i].file;
    assert Needed(g, created[i].file) && created[i].file !in g.files;
  }

  /** Taking a store back -- aborting it and removing its first n files -- leaves every named file on disk for every
      n if and only if nobody names a file that the store has written. */
  lemma TakeBackIff(h: History, id: nat)
    requires Inv(h) && id in h.stores && h.stores[id].Writing?
    ensures (forall n | 0 <= n <= |h.stores[id].created| :: Backed(Run(h, TakeBack(id, n)))) <==> NoneNeeded(h, h.stores[id].created)
  {
    var created := h.stores[id].created;
    forall n | 0 <= n <= |created| ensures Run(h, TakeBack(id, n)) == TakenBack(h, id, Files(created), n) {
      TakeBackRuns(h, id, Files(created), n);
    }
    if NoneNeeded(h, created) {
      forall n | 0 <= n <= |created| ensures Backed(Run(h, TakeBack(id, n))) {
        TakenIsBacked(h, id, created, n);
      }
    } else {
      var i :| 0 <= i < |created| && Needed(h, created[i].file);
      TakenIsNotBacked(h, id, created, i);
      assert !Backed(Run(h, TakeBack(id, i + 1)));
    }
  }

  // ---- what saves lead to ----

  /** The steps are those of saves that succeed, and all of them are allowed. */
  ghost predicate Saves(start: History, steps: seq<Action>, h: History) {
    && Leads(start, steps, h)
    && forall i | 0 <= i < |steps| :: steps[i] in {PersistStart, PersistSave(true), PersistDelete(true)}
  }

  lemma SavesOn(start: History, steps: seq<Action>, h: History, a: Action, now: History)
    requires Saves(start, steps, h) && Possible(h, a) && a in {PersistStart, PersistSave(true), PersistDelete(true)}
    requires Step(h, a) == now
    ensures Saves(start, steps + [a], now)
  {
    LeadsOn(start, steps, h, a, now);
  }

  /** g is h after n files of the list todo have been dealt with. */
  ghost predicate Cleared(h: History, g: History, saved: Jobs, todo: seq<File>, n: nat)
    requires n <= |todo|
  {
    && g == h.(persist := Deleting(saved, todo[n..]), files := g.files) && g.files <= h.files
    && forall i | 0 <= i < n && !Retained(saved, todo[i]) :: todo[i] !in g.files
  }

  lemma ClearNext(h: History, g: History, saved: Jobs, todo: seq<File>, n: nat)
    requires n < |todo| && Cleared(h, g, saved, todo, n)
    ensures Cleared(h, Step(g, PersistDelete(true)), saved, todo, n + 1)
  {
    assert todo[n..][0] == todo[n] && todo[n..][1..] == todo[n + 1..];
  }

  lemma {:induction false} Deletes(start: History, before: seq<Action>, h: History, saved: Jobs, todo: seq<File>, n: nat)
    returns (steps: seq<Action>, g: History)
    requires Saves(start, before, h) && h.persist == Deleting(saved, todo) && n <= |todo|
    ensures Saves(start, steps, g) && Cleared(h, g, saved, todo, n)
  {
    if n == 0 {
      steps, g := before, h;
      assert todo[0..] == todo;
    } else {
      var s, k := Deletes(start, before, h, saved, todo, n - 1);
      steps, g := s + [PersistDelete(true)], Step(k, PersistDelete(true));
      SavesOn(start, s, k, PersistDelete(true), g);
      ClearNext(h, k, saved, todo, n - 1);
    }
  }

  /** What only the saving thread changes is what the two states differ in. */
  ghost predicate SameMemory(h: History, g: History) { g == h.(persist := g.persist, index := g.index, files := g.files) }

  /** The saved index does not name files of one job in the outputs of another. */
  ghost predicate Tidy(p: Persist) {
    match p case Idle => true case Saving(snapshot, _) => Owned(snapshot) case Deleting(saved, _) => Owned(saved)
  }

  /** The save under way can end. */
  lemma SaveEnds(start: History, before: seq<Action>, h: History) returns (steps: seq<Action>, g: History)
    requires Saves(start, before, h)
    ensures Saves(start, steps, g) && g.persist.Idle? && SameMemory(h, g)
  {
    if h.persist.Idle? {
      return before, h;
    }
    steps, g := SaveGoesOn(start, before, h);
    var todo := g.persist.todo;
    steps, g := Deletes(start, steps, g, g.persist.saved, todo, |todo|);
    assert todo[|todo|..] == [];
    SavesOn(start, steps, g, PersistDelete(true), Step(g, PersistDelete(true)));
    steps, g := steps + [PersistDelete(true)], Step(g, PersistDelete(true));
  }

  /** A save under way comes to delete what it was going to delete. */
  lemma SaveGoesOn(start: History, before: seq<Action>, h: History) returns (steps: seq<Action>, g: History)
    requires Saves(start, before, h) && !h.persist.Idle?
    ensures Saves(start, steps, g) && g.persist.Deleting? && SameMemory(h, g) && g.files == h.files
    ensures forall f: File :: Sentenced(g.persist, f) <==> Sentenced(h.persist, f)
    ensures Tidy(h.persist) ==> Tidy(g.persist)
  {
    steps, g := before, h;
    if h.persist.Saving? {
      SavesOn(start, before, h, PersistSave(true), Step(h, PersistSave(true)));
      steps, g := before + [PersistSave(true)], Step(h, PersistSave(true));
    }
  }

  /** A sentenced file can be deleted by the save under way alone. */
  lemma SentenceIsCarriedOut(start: History, before: seq<Action>, h: History, f: File) returns (steps: seq<Action>, g: History)
    requires Saves(start, before, h) && Sentenced(h.persist, f) && Tidy(h.persist)
    ensures Saves(start, steps, g) && SameMemory(h, g) && f !in g.files
  {
    steps, g := SaveGoesOn(start, before, h);
    var saved, todo := g.persist.saved, g.persist.todo;
    RetainedIsNamed(saved, f);
    var i :| 0 <= i < |todo| && todo[i] == f;
    steps, g := Deletes(start, steps, g, saved, todo, i + 1);
  }

  lemma Begins(h: History)
    requires Inv(h)
    ensures Saves(h, [], h) && Tidy(h.persist)
  {
  }

  // ---- committing a store ----

  lemma InvIsBacked(h: History)
    requires Inv(h)
    ensures Backed(h)
  {
  }

  lemma CommitKeeps(d: History, id: nat, created: seq<Output>)
    requires Owned(d.jobs) && id in d.jobs && id in d.stores && d.stores[id] == Writing(created)
    requires forall i | 0 <= i < |created| :: created[i].file.id == id
    requires id in Step(d, StoreCommit(id)).jobs
    ensures var g := Step(d, StoreCommit(id)); g.jobs[id].outputs == created && g.files == d.files && g.persist == d.persist
  {
    PruneRetires(d.jobs[id := d.jobs[id].(outputs := created)], d.nextId);
  }

  /** A running job is not pruned by its own commit. */
  lemma RunningStays(d: History, id: nat, created: seq<Output>)
    requires id in d.jobs && d.jobs[id].running && id in d.stores && d.stores[id] == Writing(created) && Below(d.jobs, d.nextId)
    ensures id in Step(d, StoreCommit(id)).jobs
  {
    PruneKeepsTheNewest(d.jobs[id := d.jobs[id].(outputs := created)], d.nextId);
  }

  lemma Missing(g: History, id: nat, created: seq<Output>, i: nat)
    requires i < |created| && created[i].file.id == id && created[i].file !in g.files
    requires id in g.jobs && g.jobs[id].outputs == created
    ensures Names(g.jobs, created[i].file) && !Backed(g)
  {
    assert Files(created)[i] == created[i].file;
    assert Needed(g, created[i].file);
  }

  /** A commit of files that have not all landed can be followed by a state in which a job names a missing file. */
  lemma CommitBreaks(h: History, id: nat, i: nat) returns (steps: seq<Action>)
    requires Inv(h) && id in h.jobs && Open(h, id) && id in Step(h, StoreCommit(id)).jobs
    requires i < |h.stores[id].created| && !Landed(h, h.stores[id].created[i].file)
    ensures var c := Step(h, StoreCommit(id)); Allowed(c, steps) && !Backed(Run(c, steps))
  {
    var created := h.stores[id].created;
    var f, c := created[i].file, Step(h, StoreCommit(id));
    assert StoreOk(h, id, h.stores[id]);
    CommitKeeps(h, id, created);
    steps := [];
    if f in h.files {
      Begins(h);
      var g;
      steps, g := SentenceIsCarriedOut(c, [], c, f);
      Missing(g, id, created, i);
    } else {
      Missing(c, id, created, i);
    }
  }

  /** The commit of a store leaves every named file on disk in every allowed continuation if and only if the files of the
      store are on disk and the save under way will not delete them, or the job is pruned at once. */
  lemma CommitIff(h: History, id: nat)
    requires Inv(h) && id in h.jobs && Open(h, id)
    ensures var c := Step(h, StoreCommit(id));
            (forall steps | Allowed(c, steps) :: Backed(Run(c, steps))) <==> (id in c.jobs ==> AllLanded(h, h.stores[id].created))
  {
    var c := Step(h, StoreCommit(id));
    if id in c.jobs ==> AllLanded(h, h.stores[id].created) {
      CommitInv(h, id);
      forall steps | Allowed(c, steps) ensures Backed(Run(c, steps)) {
        RunInv(c, steps);
        InvIsBacked(Run(c, steps));
      }
    } else {
      var i :| 0 <= i < |h.stores[id].created| && !Landed(h, h.stores[id].created[i].file);
      var steps := CommitBreaks(h, id, i);
    }
  }

  // ---- writing a file ----

  /** f waits to be deleted, by the save under way or by the next one. */
  ghost predicate Condemned(h: History, f: File) { Sentenced(h.persist, f) || (f in h.retired && !Names(h.jobs, f)) }

  /** The store that wrote o is open, and its job is there. */
  ghost predicate Holds(h: History, id: nat, o: Output) { id in h.jobs && Open(h, id) && o in h.stores[id].created }

  /** What waits to be deleted by the next save can be deleted by saves alone. */
  lemma RetiredIsDeleted(start: History, before: seq<Action>, h: History, f: File) returns (steps: seq<Action>, g: History)
    requires Saves(start, before, h) && f in h.retired && !Names(h.jobs, f) && Owned(h.jobs)
    ensures Saves(start, steps, g) && f !in g.files && g.jobs == h.jobs && g.stores == h.stores && g.nextId == h.nextId
  {
    steps, g := SaveEnds(start, before, h);
    SavesOn(start, steps, g, PersistStart, Step(g, PersistStart));
    steps, g := steps + [PersistStart], Step(g, PersistStart);
    steps, g := SentenceIsCarriedOut(start, steps, g, f);
  }

  /** A condemned file that a store writes can be gone when the store is committed. */
  lemma CondemnedWriteBreaks(h: History, id: nat, o: Output) returns (steps: seq<Action>)
    requires Inv(h) && id in h.jobs && h.jobs[id].running && Open(h, id) && o.file.id == id && Condemned(h, o.file)
    ensures var w := Step(h, StoreWrite(id, o));
            && Allowed(w, steps) && StoreStart(id) !in steps
            && var g := Run(w, steps);
               && Holds(g, id, o) && o.file !in g.files
               && var c := Step(g, StoreCommit(id)); Names(c.jobs, o.file) && o.file !in c.files
  {
    var w := Step(h, StoreWrite(id, o));
    Begins(h);
    WriteSaves(w);
    var g;
    if Sentenced(h.persist, o.file) {
      steps, g := SentenceIsCarriedOut(w, [], w, o.file);
    } else {
      steps, g := RetiredIsDeleted(w, [], w, o.file);
    }
    var created := w.stores[id].created;
    assert StoreOk(h, id, h.stores[id]);
    RunningStays(g, id, created);
    CommitKeeps(g, id, created);
    Missing(Step(g, StoreCommit(id)), id, created, |created| - 1);
  }

  lemma WriteSaves(w: History)
    ensures Saves(w, [], w)
  {
  }

  /** A file that is written and not condemned stays so while its store is open. */
  ghost predicate Kept(h: History, id: nat, o: Output) {
    && o.file.id == id
    && (Open(h, id) ==> o in h.stores[id].created && (id in h.jobs ==> o.file in h.files && !Condemned(h, o.file)))
  }

  lemma KeptPruned(h: History, id: nat, o: Output)
    requires Kept(h, id, o) && Below(h.jobs, h.nextId) && Owned(h.jobs)
    ensures Kept(Pruned(h, h.jobs, h.retired), id, o)
  {
    PruneRetires(h.jobs, h.nextId);
    assert Shrunk(h.jobs, Prune(h.jobs, h.nextId).0, Prune(h.jobs, h.nextId).1);
    ShrunkNames(h.jobs, Prune(h.jobs, h.nextId).0, Prune(h.jobs, h.nextId).1, o.file);
  }

  lemma KeptSave(h: History, ok: bool, id: nat, o: Output)
    requires Inv(h) && Kept(h, id, o)
    ensures Kept(Step(h, PersistSave(ok)), id, o)
  {
    if h.persist.Saving? && Names(h.persist.snapshot, o.file) && !Names(h.jobs, o.file) {
      assert o.file in h.retired;
    }
  }

  lemma KeptDelete(h: History, ok: bool, id: nat, o: Output)
    requires Inv(h) && Kept(h, id, o)
    ensures Kept(Step(h, PersistDelete(ok)), id, o)
  {
    if h.persist.Deleting? && h.persist.todo != [] {
      RetainedIsNamed(h.index, h.persist.todo[0]);
      assert h.persist.todo[0] in h.persist.todo;
    }
  }

  lemma KeptUndo(h: History, j: nat, ok: bool, id: nat, o: Output)
    requires Inv(h) && Kept(h, id, o)
    ensures Kept(Step(h, StoreUndo(j, ok)), id, o)
  {
    if j in h.stores && h.stores[j].Undoing? && h.stores[j].left != [] {
      assert StoreOk(h, j, h.stores[j]);
      assert h.stores[j].left[0] in h.stores[j].left;
    }
  }

  lemma KeptCommit(h: History, j: nat, id: nat, o: Output)
    requires Inv(h) && Enabled(h, StoreCommit(j)) && Kept(h, id, o)
    ensures Kept(Step(h, StoreCommit(j)), id, o)
  {
    if Open(h, j) && j in h.jobs {
      var created := h.stores[j].created;
      ReplacedNames(h, j, created, o.file);
      ReplacedOwned(h, j, created);
      assert Kept(Replaced(h, j, created), id, o);
      KeptPruned(Replaced(h, j, created), id, o);
    }
  }

  lemma KeptFinish(h: History, j: nat, id: nat, o: Output)
    requires Inv(h) && Kept(h, id, o)
    ensures Kept(Step(h, Finish(j)), id, o)
  {
    var g := h.(jobs := if j in h.jobs then h.jobs[j := h.jobs[j].(running := false)] else h.jobs);
    KeptPruned(g, id, o);
  }

  lemma KeptStep(h: History, a: Action, id: nat, o: Output)
    requires Inv(h) && Enabled(h, a) && a != StoreStart(id) && Kept(h, id, o)
    ensures Kept(Step(h, a), id, o)
  {
    match a
    case Finish(j) => KeptFinish(h, j, id, o);
    case PersistSave(ok) => KeptSave(h, ok, id, o);
    case PersistDelete(ok) => KeptDelete(h, ok, id, o);
    case StoreUndo(j, ok) => KeptUndo(h, j, ok, id, o);
    case StoreCommit(j) => KeptCommit(h, j, id, o);
    case Begin => assert id in h.stores ==> StoreOk(h, id, h.stores[id]);
    case _ =>
  }

  lemma {:induction false} KeptRun(h: History, steps: seq<Action>, id: nat, o: Output)
    requires Inv(h) && Kept(h, id, o) && Allowed(h, steps) && StoreStart(id) !in steps
    ensures Kept(Run(h, steps), id, o)
  {
    if steps == [] {
    } else {
      var n := |steps| - 1;
      KeptRun(h, steps[..n], id, o);
      RunInv(h, steps[..n]);
      assert steps[n] in steps;
      KeptStep(Run(h, steps[..n]), steps[n], id, o);
    }
  }

  /** A file that a running job's store writes has landed whenever the store may be committed, in every allowed
      continuation, if and only if it was not waiting to be deleted when it was written. */
  lemma WriteIff(h: History, id: nat, o: Output)
    requires Inv(h) && id in h.jobs && h.jobs[id].running && Open(h, id) && o.file.id == id
    ensures var w := Step(h, StoreWrite(id, o));
            (forall steps | Allowed(w, steps) && StoreStart(id) !in steps && Holds(Run(w, steps), id, o) :: Landed(Run(w, steps), o.file))
            <==> !Condemned(h, o.file)
  {
    var w := Step(h, StoreWrite(id, o));
    if Condemned(h, o.file) {
      var steps := CondemnedWriteBreaks(h, id, o);
    } else {
      WriteInv(h, id, o);
      assert w.stores[id].created[|w.stores[id].created| - 1] == o;
      assert Kept(w, id, o);
      forall steps | Allowed(w, steps) && StoreStart(id) !in steps && Holds(Run(w, steps), id, o)
        ensures Landed(Run(w, steps), o.file)
      {
        KeptRun(w, steps, id, o);
      }
    }
  }

  // ---- two runs from the start ----

  const OUT := Output(File("image-", 1, 1, ".png"), 5)

  function OneJob(os: seq<Output>): Jobs { map[1 := Job(true, os)] }

  lemma OneJobFits(os: seq<Output>)
    requires os == [] || os == [OUT]
    ensures Prune(OneJob(os), 2) == (OneJob(os), [])
  {
    var jobs := OneJob(os);
    assert jobs.Keys == {1};
    assert |jobs.Keys| == 1;
    assert os != [] ==> os[1..] == [];
    assert OutputBytes(os) <= 5;
    assert Bytes(jobs, 0) == 0;
    assert 0 !in jobs;
    assert Bytes(jobs, 1) == 0;
    assert 1 in jobs && jobs[1].outputs == os;
    assert Bytes(jobs, 2) == Bytes(jobs, 1) + OutputBytes(os);
  }

  /** Files of one job and of its outputs. */
  lemma OneFile()
    ensures Files([OUT]) == [OUT.file] && Files([]) == [] && Names(OneJob([OUT]), OUT.file) && !Names(OneJob([]), OUT.file)
  {
    assert Files([OUT])[0] == OUT.file;
    assert OUT.file.id == 1;
  }

  const STORED := History(OneJob([OUT]), [], 2, Idle, map[], {1}, map[], {OUT.file})

  const BEGUN := History(OneJob([]), [], 2, Idle, map[], {}, map[], {})

  lemma FirstWrites()
    ensures Leads(START, [] + [Begin] + [StoreStart(1)] + [StoreWrite(1, OUT)],
                  BEGUN.(stores := map[1 := Writing([OUT])], files := {OUT.file}))
  {
    var h2 := BEGUN.(stores := map[1 := Writing([])]);
    LeadsOn(START, [], START, Begin, BEGUN);
    LeadsOn(START, [] + [Begin], BEGUN, StoreStart(1), h2);
    assert [] + [OUT] == [OUT];
    LeadsOn(START, [] + [Begin] + [StoreStart(1)], h2, StoreWrite(1, OUT), BEGUN.(stores := map[1 := Writing([OUT])], files := {OUT.file}));
  }

  const FIRST := [] + [Begin] + [StoreStart(1)] + [StoreWrite(1, OUT)] + [StoreCommit(1)]

  /** The first store of job 1. */
  lemma FirstStore()
    ensures Leads(START, FIRST, STORED)
  {
    FirstWrites();
    FirstCommit();
    var h3 := BEGUN.(stores := map[1 := Writing([OUT])], files := {OUT.file});
    LeadsOn(START, [] + [Begin] + [StoreStart(1)] + [StoreWrite(1, OUT)], h3, StoreCommit(1), STORED);
  }

  lemma FirstCommit()
    ensures Step(BEGUN.(stores := map[1 := Writing([OUT])], files := {OUT.file}), StoreCommit(1)) == STORED
  {
    OneJobFits([OUT]);
    assert OneJob([])[1 := OneJob([])[1].(outputs := [OUT])] == OneJob([OUT]);
    assert map[1 := Writing([OUT])] - {1} == map[] && [] + Files([]) + [] == [] && {} + {1} == {1};
  }

  /** The index of the first store is saved. */
  lemma FirstSaved(steps: seq<Action>)
    requires Leads(START, steps, STORED)
    ensures Leads(START, steps + [PersistStart] + [PersistSave(true)],
                  STORED.(persist := Deleting(OneJob([OUT]), []), index := OneJob([OUT])))
  {
    var h := STORED.(persist := Saving(OneJob([OUT]), []));
    LeadsOn(START, steps, STORED, PersistStart, h);
    LeadsOn(START, steps + [PersistStart], h, PersistSave(true), STORED.(persist := Deleting(OneJob([OUT]), []), index := OneJob([OUT])));
  }

  /** A run from the start, allowed up to its last step but one, in which job 1 stores twice and the second store is
      aborted: it takes away the file that the index names. */
  lemma AbortedSecondStore() returns (steps: seq<Action>)
    ensures Allowed(START, steps)
    ensures var g := Run(START, steps + [StoreAbort(1)] + [StoreUndo(1, true)]); Names(g.index, OUT.file) && OUT.file !in g.files
  {
    OneFile();
    FirstStore();
    var s4 := FIRST;
    FirstSaved(s4);
    var h6 := STORED.(persist := Deleting(OneJob([OUT]), []), index := OneJob([OUT]));
    var s6 := s4 + [PersistStart] + [PersistSave(true)];
    var h7 := h6.(stores := map[1 := Writing([])]);
    LeadsOn(START, s6, h6, StoreStart(1), h7);
    var h8 := h6.(stores := map[1 := Writing([OUT])]);
    SecondWrite(h7, h8);
    LeadsOn(START, s6 + [StoreStart(1)], h7, StoreWrite(1, OUT), h8);
    steps := s6 + [StoreStart(1)] + [StoreWrite(1, OUT)];
    RunLast(START, steps, StoreAbort(1));
    RunLast(START, steps + [StoreAbort(1)], StoreUndo(1, true));
    AbortTakes(h8);
  }

  lemma AbortTakes(h: History)
    requires h.stores == map[1 := Writing([OUT])] && h.index == OneJob([OUT])
    ensures var g := Step(Step(h, StoreAbort(1)), StoreUndo(1, true)); Names(g.index, OUT.file) && OUT.file !in g.files
  {
    OneFile();
    assert map[1 := Writing([OUT])][1 := Undoing([OUT.file])][1] == Undoing([OUT.file]);
  }

  lemma SecondWrite(h7: History, h8: History)
    requires h7 == STORED.(persist := Deleting(OneJob([OUT]), []), index := OneJob([OUT]), stores := map[1 := Writing([])])
    requires h8 == h7.(stores := map[1 := Writing([OUT])])
    ensures Enabled(h7, StoreWrite(1, OUT)) && Step(h7, StoreWrite(1, OUT)) == h8
  {
    assert [] + [OUT] == [OUT];
    assert map[1 := Writing([])][1 := Writing([OUT])] == map[1 := Writing([OUT])];
    assert {OUT.file} + {OUT.file} == {OUT.file};
  }

  // Second store without outputs, then a third that writes the file again while a save deletes it.

  const EMPTIED := STORED.(jobs := OneJob([]), retired := [OUT.file])

  lemma EmptyStore(steps: seq<Action>)
    requires Leads(START, steps, STORED)
    ensures Leads(START, steps + [StoreStart(1)] + [StoreCommit(1)], EMPTIED)
  {
    OneFile();
    OneJobFits([]);
    var h := STORED.(stores := map[1 := Writing([])]);
    LeadsOn(START, steps, STORED, StoreStart(1), h);
    assert OneJob([OUT])[1 := OneJob([OUT])[1].(outputs := [])] == OneJob([]);
    assert map[1 := Writing([])] - {1} == map[] && {1} + {1} == {1} && [] + Files([OUT]) + [] == [OUT.file];
    LeadsOn(START, steps + [StoreStart(1)], h, StoreCommit(1), EMPTIED);
  }

  /** The state in which the third store writes: the file is on the list of a save that does not name it. */
  const WAITING := EMPTIED.(retired := [], persist := Deleting(OneJob([]), [OUT.file]), index := OneJob([]), stores := map[1 := Writing([])])

  lemma EmptySaved(steps: seq<Action>)
    requires Leads(START, steps, EMPTIED)
    ensures Leads(START, steps + [PersistStart] + [PersistSave(true)] + [StoreStart(1)], WAITING)
  {
    var h := EMPTIED.(retired := [], persist := Saving(OneJob([]), [OUT.file]));
    var g := EMPTIED.(retired := [], persist := Deleting(OneJob([]), [OUT.file]), index := OneJob([]));
    LeadsOn(START, steps, EMPTIED, PersistStart, h);
    LeadsOn(START, steps + [PersistStart], h, PersistSave(true), g);
    LeadsOn(START, steps + [PersistStart] + [PersistSave(true)], g, StoreStart(1), WAITING);
  }

  const WRITTEN := WAITING.(stores := map[1 := Writing([OUT])])

  lemma ThirdWrite()
    ensures Step(WAITING, StoreWrite(1, OUT)) == WRITTEN
  {
    assert [] + [OUT] == [OUT] && {OUT.file} + {OUT.file} == {OUT.file};
    assert map[1 := Writing([])][1 := Writing([OUT])] == map[1 := Writing([OUT])];
  }

  const DELETED := WRITTEN.(persist := Idle, files := {})

  lemma ThirdDelete()
    ensures Step(Step(WRITTEN, PersistDelete(true)), PersistDelete(true)) == DELETED
  {
    OneFile();
    RetainedIsNamed(OneJob([]), OUT.file);
    assert [OUT.file][1..] == [] && {OUT.file} - {OUT.file} == {};
    assert Step(WRITTEN, PersistDelete(true)) == WRITTEN.(persist := Deleting(OneJob([]), []), files := {});
  }

  const LOST := DELETED.(jobs := OneJob([OUT]), stores := map[])

  lemma ThirdCommit()
    ensures Step(DELETED, StoreCommit(1)) == LOST
  {
    OneFile();
    OneJobFits([OUT]);
    assert OneJob([])[1 := OneJob([])[1].(outputs := [OUT])] == OneJob([OUT]);
    assert map[1 := Writing([OUT])] - {1} == map[] && {1} + {1} == {1} && [] + Files([]) + [] == [];
  }

  /** Steps that lead to h without any store being aborted. */
  ghost predicate Path(steps: seq<Action>, h: History) {
    Run(START, steps) == h && forall i | 0 <= i < |steps| :: !steps[i].StoreAbort? && !steps[i].StoreUndo?
  }

  lemma PathOn(steps: seq<Action>, h: History, a: Action, g: History)
    requires Path(steps, h) && Step(h, a) == g && !a.StoreAbort? && !a.StoreUndo?
    ensures Path(steps + [a], g)
  {
    RunLast(START, steps, a);
  }

  lemma PathToWaiting() returns (steps: seq<Action>)
    ensures Path(steps, WAITING)
  {
    FirstStore();
    var s4 := FIRST;
    EmptyStore(s4);
    var s6 := s4 + [StoreStart(1)] + [StoreCommit(1)];
    EmptySaved(s6);
    steps := s6 + [PersistStart] + [PersistSave(true)] + [StoreStart(1)];
  }

  lemma PathToLost() returns (steps: seq<Action>)
    ensures Path(steps, LOST)
  {
    var s := PathToWaiting();
    ThirdWrite();
    PathOn(s, WAITING, StoreWrite(1, OUT), WRITTEN);
    s := s + [StoreWrite(1, OUT)];
    ThirdDelete();
    PathOn(s, WRITTEN, PersistDelete(true), Step(WRITTEN, PersistDelete(true)));
    s := s + [PersistDelete(true)];
    PathOn(s, Step(WRITTEN, PersistDelete(true)), PersistDelete(true), DELETED);
    s := s + [PersistDelete(true)];
    ThirdCommit();
    PathOn(s, DELETED, StoreCommit(1), LOST);
    steps := s + [StoreCommit(1)];
  }

  /** A run from the start in which no store is ever aborted, and the index still comes to name a file that is gone:
      a store wrote a file that the save under way had on its list. */
  lemma CondemnedThirdStore() returns (steps: seq<Action>)
    ensures forall i | 0 <= i < |steps| :: !steps[i].StoreAbort? && !steps[i].StoreUndo?
    ensures var g := Run(START, steps); Names(g.index, OUT.file) && OUT.file !in g.files
  {
    OneFile();
    var s := PathToLost();
    var snapped := LOST.(persist := Saving(OneJob([OUT]), []));
    PathOn(s, LOST, PersistStart, snapped);
    var g := Step(snapped, PersistSave(true));
    PathOn(s + [PersistStart], snapped, PersistSave(true), g);
    steps := s + [PersistStart] + [PersistSave(true)];
  }
}
