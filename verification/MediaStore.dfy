/** The media history as an object; every method is a run of the steps of MediaRun, so what holds in all
    runs holds for it. */
module MediaStore {
  import opened MediaHistory
  import opened MediaRun

  lemma UndoNext(h: History, id: nat, left: seq<File>, ok: bool)
    requires h.stores == map[id := Undoing(left)] && left != []
    ensures Step(h, StoreUndo(id, ok))
         == h.(stores := map[id := Undoing(left[1..])], files := if ok then h.files - {left[0]} else h.files)
  {
    assert map[id := Undoing(left)][id := Undoing(left[1..])] == map[id := Undoing(left[1..])];
  }

  lemma UndoRun(start: History, steps: seq<Action>, h: History, id: nat, left: seq<File>, ok: bool, safe: bool)
    requires Reaches(start, steps, h.(stores := map[id := Undoing(left)]), safe) && left != []
    ensures var now := h.(files := if ok then h.files - {left[0]} else h.files);
            Reaches(start, steps + [StoreUndo(id, ok)], now.(stores := map[id := Undoing(left[1..])]), safe)
  {
    var g := h.(stores := map[id := Undoing(left)]);
    UndoNext(g, id, left, ok);
    ReachesOn(start, steps, g, StoreUndo(id, ok), Step(g, StoreUndo(id, ok)), safe);
  }

  lemma UndoEnds(start: History, steps: seq<Action>, h: History, id: nat, safe: bool)
    requires Reaches(start, steps, h.(stores := map[id := Undoing([])]), safe) && h.stores == map[]
    ensures Reaches(start, steps + [StoreUndo(id, true)], h, safe)
  {
    var g := h.(stores := map[id := Undoing([])]);
    UndoLast(g, id);
    ReachesOn(start, steps, g, StoreUndo(id, true), Step(g, StoreUndo(id, true)), safe);
  }

  lemma AbortRun(start: History, steps: seq<Action>, h: History, id: nat, created: seq<Output>, safe: bool)
    requires Reaches(start, steps, h.(stores := map[id := Writing(created)]), true) && (safe ==> NoneNeeded(h, created))
    ensures Reaches(start, steps + [StoreAbort(id)], h.(stores := map[id := Undoing(Files(created))]), safe)
  {
    var g := h.(stores := map[id := Writing(created)]);
    AbortNext(g, id, created);
    ReachesOn(start, steps, g, StoreAbort(id), Step(g, StoreAbort(id)), safe);
  }

  lemma WriteNext(h: History, id: nat, created: seq<Output>, o: Output)
    requires h.stores == map[id := Writing(created)]
    ensures Step(h, StoreWrite(id, o)) == h.(stores := map[id := Writing(created + [o])], files := h.files + {o.file})
  {
    assert map[id := Writing(created)][id := Writing(created + [o])] == map[id := Writing(created + [o])];
  }

  lemma WriteRun(start: History, steps: seq<Action>, h: History, id: nat, created: seq<Output>, o: Output)
    requires Leads(start, steps, h.(stores := map[id := Writing(created)])) && o.file.id == id
    ensures var now := h.(files := h.files + {o.file});
            Leads(start, steps + [StoreWrite(id, o)], now.(stores := map[id := Writing(created + [o])]))
  {
    var g := h.(stores := map[id := Writing(created)]);
    WriteNext(g, id, created, o);
    LeadsOn(start, steps, g, StoreWrite(id, o), Step(g, StoreWrite(id, o)));
  }

  lemma StartRun(start: History, id: nat)
    requires start.stores == map[] && Enabled(start, StoreStart(id))
    ensures Leads(start, [StoreStart(id)], start.(stores := map[id := Writing([])]))
  {
    LeadsOn(start, [], start, StoreStart(id), Step(start, StoreStart(id)));
    assert [] + [StoreStart(id)] == [StoreStart(id)];
  }

  lemma CommitRun(start: History, steps: seq<Action>, h: History, id: nat, created: seq<Output>)
    requires Leads(start, steps, h.(stores := map[id := Writing(created)])) && id in h.jobs
    requires h.persist == Idle && forall i | 0 <= i < |created| :: created[i].file in h.files
    ensures var r := Prune(h.jobs[id := h.jobs[id].(outputs := created)], h.nextId);
            var now := h.(jobs := r.0, retired := h.retired + Files(h.jobs[id].outputs) + r.1, stores := map[], sealed := h.sealed + {id});
            Leads(start, steps + [StoreCommit(id)], now)
  {
    var g := h.(stores := map[id := Writing(created)]);
    CommitNext(g, id, created);
    LeadsOn(start, steps, g, StoreCommit(id), Step(g, StoreCommit(id)));
  }

  lemma DeleteRun(start: History, steps: seq<Action>, h: History, todo: seq<File>, ok: bool)
    requires Leads(start, steps, h.(persist := Deleting(h.index, todo))) && todo != []
    ensures var now := h.(files := if Retained(h.index, todo[0]) || !ok then h.files else h.files - {todo[0]});
            Leads(start, steps + [PersistDelete(ok)], now.(persist := Deleting(h.index, todo[1..])))
  {
    var g := h.(persist := Deleting(h.index, todo));
    LeadsOn(start, steps, g, PersistDelete(ok), Step(g, PersistDelete(ok)));
  }

  lemma DeleteEnds(start: History, steps: seq<Action>, h: History)
    requires Leads(start, steps, h.(persist := Deleting(h.index, []))) && h.persist == Idle
    ensures Leads(start, steps + [PersistDelete(true)], h)
  {
    var g := h.(persist := Deleting(h.index, []));
    LeadsOn(start, steps, g, PersistDelete(true), Step(g, PersistDelete(true)));
  }

  /** Taking the snapshot and saving it. */
  lemma SaveRun(start: History, steps: seq<Action>, h: History, ok: bool)
    requires Leads(start, steps, h) && h.persist == Idle
    ensures Leads(start, steps + [PersistStart] + [PersistSave(ok)],
                  if ok then h.(index := h.jobs, retired := [], persist := Deleting(h.jobs, h.retired)) else h)
  {
    LeadsOn(start, steps, h, PersistStart, Step(h, PersistStart));
    var g := Step(h, PersistStart);
    assert [] + h.retired == h.retired;
    LeadsOn(start, steps + [PersistStart], g, PersistSave(ok), Step(g, PersistSave(ok)));
  }

  lemma UndoLast(h: History, id: nat)
    requires h.stores == map[id := Undoing([])]
    ensures Step(h, StoreUndo(id, true)) == h.(stores := map[])
  {
    assert map[id := Undoing([])] - {id} == map[];
  }

  lemma AbortNext(h: History, id: nat, created: seq<Output>)
    requires h.stores == map[id := Writing(created)]
    ensures Step(h, StoreAbort(id)) == h.(stores := map[id := Undoing(Files(created))])
  {
    assert map[id := Writing(created)][id := Undoing(Files(created))] == map[id := Undoing(Files(created))];
  }

  lemma CommitNext(h: History, id: nat, created: seq<Output>)
    requires h.stores == map[id := Writing(created)] && id in h.jobs
    ensures var r := Prune(h.jobs[id := h.jobs[id].(outputs := created)], h.nextId);
            var now := Step(h, StoreCommit(id));
            now == h.(jobs := r.0, retired := h.retired + Files(h.jobs[id].outputs) + r.1, stores := map[], sealed := h.sealed + {id})
  {
    assert map[id := Writing(created)] - {id} == map[];
  }

  /** One turn of the prune loop. */
  lemma PruneNext(jobs: Jobs, n: nat, retired: seq<File>)
    ensures var id := Oldest(jobs, 0, n);
            Over(jobs, n) && id < n ==>
              && Prune(jobs - {id}, n).0 == Prune(jobs, n).0
              && retired + Files(jobs[id].outputs) + Prune(jobs - {id}, n).1 == retired + Prune(jobs, n).1
  {
  }

  /** The jobs with this one, if it is still there, marked as finished. */
  function Finished(jobs: Jobs, id: nat): Jobs {
    if id in jobs then jobs[id := jobs[id].(running := false)] else jobs
  }

  datatype Pending = Pending(extension: string, size: nat)

  /** The outputs of a job, named by its identifier and their place. */
  function Named(stem: string, id: nat, pending: seq<Pending>): seq<Output> {
    seq(|pending|, k requires 0 <= k < |pending| =>
      Output(File(stem, id, k + 1, pending[k].extension), pending[k].size))
  }

  /** How many outputs are written, from the k-th on, before one is empty or cannot be written. */
  function Succeeding(pending: seq<Pending>, written: nat -> bool, k: nat): (n: nat)
    requires k <= |pending|
    ensures k <= n <= |pending|
    decreases |pending| - k
  {
    if k < |pending| && pending[k].size > 0 && written(k) then Succeeding(pending, written, k + 1) else k
  }

  function Written(created: seq<Output>): set<File> { set i | 0 <= i < |created| :: created[i].file }

  lemma WrittenNext(created: seq<Output>, o: Output)
    ensures Written(created + [o]) == Written(created) + {o.file}
  {
    forall f: File | f in Written(created) + {o.file} ensures f in Written(created + [o]) {
      if f == o.file {
        assert (created + [o])[|created|].file == f;
      } else {
        var i :| 0 <= i < |created| && created[i].file == f;
        assert (created + [o])[i].file == f;
      }
    }
  }

  /** Those of the first k files that could be removed. */
  function Gone(fs: seq<File>, removed: nat -> bool, k: nat): set<File>
    requires k <= |fs|
  {
    set i | 0 <= i < k && removed(i) :: fs[i]
  }

  lemma GoneNext(fs: seq<File>, removed: nat -> bool, k: nat)
    requires k < |fs|
    ensures Gone(fs, removed, k + 1) == if removed(k) then Gone(fs, removed, k) + {fs[k]} else Gone(fs, removed, k)
  {
    forall f: File | f in Gone(fs, removed, k + 1) && f !in Gone(fs, removed, k) ensures removed(k) && f == fs[k] {
      var i :| 0 <= i < k + 1 && removed(i) && fs[i] == f;
    }
  }

  /** Those of the first k files that the jobs do not name and that could be removed. */
  function Deleted(jobs: Jobs, fs: seq<File>, removed: nat -> bool, k: nat): set<File>
    requires k <= |fs|
  {
    set i | 0 <= i < k && removed(i) && !Retained(jobs, fs[i]) :: fs[i]
  }

  lemma DeletedNext(jobs: Jobs, fs: seq<File>, removed: nat -> bool, k: nat)
    requires k < |fs|
    ensures Deleted(jobs, fs, removed, k + 1)
         == if removed(k) && !Retained(jobs, fs[k]) then Deleted(jobs, fs, removed, k) + {fs[k]} else Deleted(jobs, fs, removed, k)
  {
    forall f: File | f in Deleted(jobs, fs, removed, k + 1) && f !in Deleted(jobs, fs, removed, k)
      ensures removed(k) && !Retained(jobs, fs[k]) && f == fs[k]
    {
      var i :| 0 <= i < k + 1 && removed(i) && !Retained(jobs, fs[i]) && fs[i] == f;
    }
  }

  lemma FirstNeedsNone(h: History, id: nat, created: seq<Output>)
    requires Inv(h) && forall i | 0 <= i < |created| :: created[i].file.id == id
    ensures id !in h.sealed ==> NoneNeeded(h, created)
  {
  }

  lemma NeedsAlike(h: History, g: History, created: seq<Output>)
    requires g == h.(files := g.files)
    ensures NoneNeeded(g, created) <==> NoneNeeded(h, created)
  {
  }

  /** Nothing but files has changed: the history is good exactly if no file was removed that somebody names. */
  lemma TakenBackIff(h: History, created: seq<Output>, removed: nat -> bool, g: History)
    requires Inv(h) && h.persist.Idle? && h.stores == map[]
    requires g == h.(files := h.files + Written(created) - Gone(Files(created), removed, |created|))
    ensures Inv(g) <==> forall f: File | f in Gone(Files(created), removed, |created|) :: !Needed(h, f)
    ensures NoneNeeded(h, created) ==> Inv(g)
  {
    var gone := Gone(Files(created), removed, |created|);
    if forall f: File | f in gone :: !Needed(h, f) {
      OnDiskMore(h.index, h.files, h.sealed, g.files, h.sealed);
      OnDiskMore(h.jobs, h.files, h.sealed, g.files, h.sealed);
    } else {
      var f: File :| f in gone && Needed(h, f);
      assert f !in g.files;
    }
  }

  class MediaStore {
    var jobs: Jobs
    var retired: seq<File>
    var nextId: nat
    var index: Jobs
    var files: set<File>
    ghost var sealed: set<nat>

    /** The machine's state while no call is under way. */
    ghost function Abs(): History
      reads this
    {
      History(jobs, retired, nextId, Idle, map[], sealed, index, files)
    }

    ghost predicate Valid()
      reads this
    {
      Inv(Abs())
    }

    constructor ()
      ensures Valid() && Abs() == START
    {
      jobs, retired, nextId, index, files := map[], [], 1, map[], {};
      sealed := {};
    }

    method PruneJobs()
      requires Below(jobs, nextId)
      modifies this`jobs, this`retired
      ensures jobs == Prune(old(jobs), nextId).0 && retired == old(retired) + Prune(old(jobs), nextId).1
    {
      var bytes := HistoryBytes(jobs, nextId);
      while |jobs| > MAX_JOBS || bytes > MAX_BYTES
        invariant Below(jobs, nextId) && (bytes > MAX_BYTES <==> Bytes(jobs, nextId) > MAX_BYTES)
        invariant Prune(jobs, nextId).0 == Prune(old(jobs), nextId).0
        invariant retired + Prune(jobs, nextId).1 == old(retired) + Prune(old(jobs), nextId).1
        decreases |jobs|
      {
        var found, oldest := FindOldest(jobs, nextId);
        if !found {
          return;
        }
        SmallerWithout(jobs, oldest);
        PruneNext(jobs, nextId, retired);
        retired := retired + Files(jobs[oldest].outputs);
        jobs := jobs - {oldest};
        bytes := HistoryBytes(jobs, nextId);
      }
    }

    /** Removes the files of a store that failed, as far as they can be removed. */
    method RemoveFiles(id: nat, left: seq<File>, removed: nat -> bool, ghost start: History, ghost before: seq<Action>, ghost safe: bool)
      returns (ghost steps: seq<Action>)
      requires Reaches(start, before, Abs().(stores := map[id := Undoing(left)]), safe)
      modifies this`files
      ensures Reaches(start, steps, Abs().(stores := map[id := Undoing([])]), safe)
      ensures files == old(files) - Gone(left, removed, |left|)
    {
      steps := before;
      var k := 0;
      assert left[0..] == left;
      while k < |left|
        invariant k <= |left| && Reaches(start, steps, Abs().(stores := map[id := Undoing(left[k..])]), safe)
        invariant files == old(files) - Gone(left, removed, k)
      {
        assert left[k..][1..] == left[k + 1..] && left[k..][0] == left[k];
        UndoRun(start, steps, Abs(), id, left[k..], removed(k), safe);
        steps := steps + [StoreUndo(id, removed(k))];
        files := if removed(k) then files - {left[k]} else files;
        GoneNext(left, removed, k);
        k := k + 1;
      }
      assert left[k..] == [];
    }

    /** Takes back what a failed store has written. */
    method TakeBack(id: nat, created: seq<Output>, removed: nat -> bool, ghost start: History, ghost before: seq<Action>, ghost safe: bool)
      returns (ghost steps: seq<Action>)
      requires Leads(start, before, Abs().(stores := map[id := Writing(created)])) && (safe ==> NoneNeeded(Abs(), created))
      modifies this`files
      ensures Reaches(start, steps, Abs(), safe)
      ensures files == old(files) - Gone(Files(created), removed, |created|)
    {
      LeadsReaches(start, before, Abs().(stores := map[id := Writing(created)]));
      AbortRun(start, before, Abs(), id, created, safe);
      steps := RemoveFiles(id, Files(created), removed, start, before + [StoreAbort(id)], safe);
      UndoEnds(start, steps, Abs(), id, safe);
      steps := steps + [StoreUndo(id, true)];
    }

    /** Writes the files one by one; stops at the first that is empty or cannot be written. */
    method WriteOutputs(id: nat, stem: string, pending: seq<Pending>, written: nat -> bool, ghost start: History)
      returns (ok: bool, created: seq<Output>, ghost steps: seq<Action>)
      requires start == Abs() && id < nextId
      modifies this`files
      ensures Leads(start, steps, Abs().(stores := map[id := Writing(created)]))
      ensures var n := Succeeding(pending, written, 0);
              (ok <==> n == |pending|) && created == Named(stem, id, pending[..n]) && files == old(files) + Written(created)
    {
      StartRun(start, id);
      steps := [StoreStart(id)];
      created := [];
      var k := 0;
      while k < |pending|
        invariant k <= |pending| && created == Named(stem, id, pending[..k])
        invariant Leads(start, steps, Abs().(stores := map[id := Writing(created)]))
        invariant Succeeding(pending, written, 0) == Succeeding(pending, written, k)
        invariant files == old(files) + Written(created)
      {
        if pending[k].size == 0 || !written(k) {
          return false, created, steps;
        }
        var output := Output(File(stem, id, k + 1, pending[k].extension), pending[k].size);
        NamedNext(stem, id, pending, k);
        WriteRun(start, steps, Abs(), id, created, output);
        steps := steps + [StoreWrite(id, output)];
        files := files + {output.file};
        WrittenNext(created, output);
        created := created + [output];
        k := k + 1;
      }
      assert pending[..k] == pending;
      return true, created, steps;
    }

    method CommitOutputs(id: nat, created: seq<Output>, ghost start: History, ghost before: seq<Action>)
      returns (ghost steps: seq<Action>)
      requires id in jobs && Below(jobs, nextId) && Leads(start, before, Abs().(stores := map[id := Writing(created)]))
      requires forall i | 0 <= i < |created| :: created[i].file in files
      modifies this
      ensures Leads(start, steps, Abs()) && nextId == old(nextId)
      ensures jobs == Prune(old(jobs)[id := old(jobs)[id].(outputs := created)], nextId).0
    {
      CommitRun(start, before, Abs(), id, created);
      steps := before + [StoreCommit(id)];
      retired := retired + Files(jobs[id].outputs);
      jobs := jobs[id := jobs[id].(outputs := created)];
      PruneJobs();
      sealed := sealed + {id};
    }

    /** Takes everything back, and says whether that was harmless. */
    method FailStore(id: nat, created: seq<Output>, undone: nat -> bool, ghost start: History, ghost before: seq<Action>)
      returns (ghost steps: seq<Action>)
      requires Inv(start) && Abs() == start.(files := start.files + Written(created))
      requires Leads(start, before, Abs().(stores := map[id := Writing(created)]))
      requires forall i | 0 <= i < |created| :: created[i].file.id == id
      modifies this`files
      ensures Reaches(start, steps, Abs(), id !in sealed)
      ensures files == start.files + Written(created) - Gone(Files(created), undone, |created|)
      ensures Valid() <==> forall f: File | f in Gone(Files(created), undone, |created|) :: !Needed(start, f)
      ensures id !in sealed ==> Valid()
    {
      FirstNeedsNone(start, id, created);
      NeedsAlike(start, Abs(), created);
      steps := TakeBack(id, created, undone, start, before, id !in sealed);
      TakenBackIff(start, created, undone, Abs());
    }

    /** A job stores its outputs: all of them are on disk and named by the job, or none is written that is not taken
        back.  The history stays good if and only if no file was taken back that the index or a job names; for a job
        that has not stored before none is. */
    method StoreJobOutputs(id: nat, stem: string, pending: seq<Pending>, written: nat -> bool, undone: nat -> bool,
                           saved: bool, removed: nat -> bool) returns (ok: bool, ghost steps: seq<Action>)
      requires Valid()
      modifies this
      ensures Reaches(old(Abs()), steps, Abs(), ok || id !in old(sealed))
      ensures ok <==> id in old(jobs) && Succeeding(pending, written, 0) == |pending|
      ensures ok ==> Valid() && jobs == Prune(old(jobs)[id := old(jobs)[id].(outputs := Named(stem, id, pending))], nextId).0
                     && (saved ==> index == jobs)
      ensures !ok ==> jobs == old(jobs) && index == old(index) && retired == old(retired)
      ensures !ok && id in old(jobs) ==>
                var created := Named(stem, id, pending[..Succeeding(pending, written, 0)]);
                && files == old(files) + Written(created) - Gone(Files(created), undone, |created|)
                && (Valid() <==> forall f: File | f in Gone(Files(created), undone, |created|) :: !Needed(old(Abs()), f))
      ensures id !in old(sealed) ==> Valid()
    {
      ghost var start := Abs();
      if id !in jobs {
        return false, [];
      }
      var created;
      ok, created, steps := WriteOutputs(id, stem, pending, written, start);
      if !ok {
        steps := FailStore(id, created, undone, start, steps);
        return;
      }
      assert pending[..|pending|] == pending;
      steps := CommitOutputs(id, created, start, steps);
      steps := PersistJobs(saved, removed, start, steps);
      LeadsReaches(start, steps, Abs());
    }

    /** Saves a snapshot of the jobs as the new index, then deletes what was retired before the snapshot. */
    method PersistJobs(saved: bool, removed: nat -> bool, ghost start: History, ghost before: seq<Action>)
      returns (ghost steps: seq<Action>)
      requires Inv(start) && Leads(start, before, Abs())
      modifies this
      ensures Valid() && Leads(start, steps, Abs())
      ensures jobs == old(jobs) && nextId == old(nextId) && sealed == old(sealed)
      ensures index == (if saved then jobs else old(index)) && retired == (if saved then [] else old(retired))
      ensures files == if saved then old(files) - Deleted(jobs, old(retired), removed, |old(retired)|) else old(files)
    {
      SaveRun(start, before, Abs(), saved);
      steps := before + [PersistStart] + [PersistSave(saved)];
      var snapshot, taken := jobs, retired;
      retired := [];
      if !saved {
        retired := retired + taken;
        LeadsInv(start, steps, Abs());
        return;
      }
      index := snapshot;
      var k := 0;
      while k < |taken|
        invariant k <= |taken| && index == snapshot == jobs == old(jobs) && retired == []
        invariant nextId == old(nextId) && sealed == old(sealed)
        invariant files == old(files) - Deleted(snapshot, taken, removed, k)
        invariant Leads(start, steps, Abs().(persist := Deleting(index, taken[k..])))
      {
        DeletedNext(snapshot, taken, removed, k);
        assert taken[k..][1..] == taken[k + 1..];
        DeleteRun(start, steps, Abs(), taken[k..], removed(k));
        steps := steps + [PersistDelete(removed(k))];
        if !Retained(snapshot, taken[k]) && removed(k) {
          files := files - {taken[k]};
        }
        k := k + 1;
      }
      assert taken[k..] == [];
      DeleteEnds(start, steps, Abs());
      steps := steps + [PersistDelete(true)];
      LeadsInv(start, steps, Abs());
    }

    method BeginJob(saved: bool, removed: nat -> bool) returns (id: nat, ghost steps: seq<Action>)
      requires Valid()
      modifies this
      ensures Valid() && Leads(old(Abs()), steps, Abs())
      ensures id == old(nextId) && jobs == old(jobs)[id := Job(true, [])] && (saved ==> index == jobs)
    {
      ghost var start := Abs();
      LeadsFirst(start, Begin);
      id := nextId;
      nextId := nextId + 1;
      jobs := jobs[id := Job(true, [])];
      steps := PersistJobs(saved, removed, start, [Begin]);
    }

    /** Marks the job finished, prunes and saves. */
    method FinishJob(id: nat, saved: bool, removed: nat -> bool) returns (ghost steps: seq<Action>)
      requires Valid()
      modifies this
      ensures Valid() && Leads(old(Abs()), steps, Abs())
      ensures jobs == Prune(Finished(old(jobs), id), nextId).0 && nextId == old(nextId)
      ensures id in old(jobs) && id in jobs ==> jobs[id] == old(jobs)[id].(running := false)
      ensures !Over(jobs, nextId) || forall j | j in jobs :: jobs[j].running
      ensures saved ==> index == jobs && retired == []
    {
      ghost var start := Abs();
      LeadsFirst(start, Finish(id));
      if id in jobs {
        jobs := jobs[id := jobs[id].(running := false)];
      }
      PruneKeepsTheNewest(jobs, nextId);
      PruneJobs();
      steps := PersistJobs(saved, removed, start, [Finish(id)]);
    }
  }

  lemma LeadsFirst(start: History, a: Action)
    requires Enabled(start, a)
    ensures Leads(start, [a], Step(start, a))
  {
    LeadsOn(start, [], start, a, Step(start, a));
    assert [] + [a] == [a];
  }

  lemma NamedNext(stem: string, id: nat, pending: seq<Pending>, k: nat)
    requires k < |pending|
    ensures Named(stem, id, pending[..k + 1])
         == Named(stem, id, pending[..k]) + [Output(File(stem, id, k + 1, pending[k].extension), pending[k].size)]
  {
  }
}
