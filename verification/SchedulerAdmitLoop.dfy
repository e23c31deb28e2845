/** The loops of admission to the bounded pool. */
module SchedulerAdmitLoop {
  import opened Generation
  import opened BatchOrder
  import opened SlotTask
  import opened SlotTaskProofs
  import opened Scheduler
  import opened SchedulerInv
  import opened SchedulerLoops

  method IdlePositions(caches: Caches, prot: set<nat>) returns (total: nat)
    ensures total == Idle(caches, prot)
  {
    total := 0;
    var q := 0;
    while q < |caches|
      invariant q <= |caches| && total == Idle(caches[..q], prot)
    {
      assert caches[..q + 1][..q] == caches[..q];
      if q !in prot {
        total := total + |caches[q]|;
      }
      q := q + 1;
    }
    assert caches[..q] == caches;
  }

  method ProtectedSlots(tasks: Tasks, all: seq<nat>, slot: nat) returns (prot: set<nat>)
    requires forall id :: id in all ==> id in tasks
    ensures prot == Protected(tasks, all) + {slot}
  {
    prot := {};
    var i := 0;
    while i < |all|
      invariant i <= |all| && prot == Protected(tasks, all[..i])
    {
      Snoc(all, i);
      assert all[i] in all;
      if tasks[all[i]].pool.admitted {
        prot := prot + {tasks[all[i]].req.slot};
      }
      i := i + 1;
    }
    Whole(all);
    prot := prot + {slot};
  }

  /** Clears idle sequences one after the other until the candidate fits; what works says and how many idle
      positions the draft context has is up to the environment. */
  method ReclaimCapacity(before: Caches, prot: set<nat>, reserved: int, required: int, capacity: int, e: Eviction)
    returns (caches: Caches, ok: bool)
    ensures Reclaimed(caches, ok) == Reclaim(before, prot, 0, reserved, required, capacity, e)
  {
    caches := before;
    var k := 0;
    var idle := IdlePositions(caches, prot);
    idle := Max(idle, e.draftIdle(k));
    while k < |caches| && !CanAdmit(reserved + idle, required, capacity)
      invariant k <= |caches| && idle == Max(Idle(caches, prot), e.draftIdle(k))
      invariant Reclaim(caches, prot, k, reserved, required, capacity, e) == Reclaim(before, prot, 0, reserved, required, capacity, e)
      decreases |caches| - k
    {
      if k !in prot && caches[k] != [] && e.works(k) {
        caches := caches[k := []];
      }
      k := k + 1;
      idle := IdlePositions(caches, prot);
      idle := Max(idle, e.draftIdle(k));
    }
    return caches, CanAdmit(reserved + idle, required, capacity);
  }

  lemma SumSnoc(tasks: Tasks, ids: seq<nat>, i: nat)
    requires i < |ids|
    ensures var t := Get(tasks, ids[i]);
            SumReserved(tasks, ids[..i + 1]) == SumReserved(tasks, ids[..i]) + (if t.pool.admitted then t.pool.reserved else 0)
    ensures AdmittedLive(tasks, ids[..i + 1])
         == AdmittedLive(tasks, ids[..i]) + if Get(tasks, ids[i]).pool.admitted && !Flagged(Get(tasks, ids[i])) then [ids[i]] else []
  {
    assert ids[..i + 1][..i] == ids[..i];
  }

  method CountReserved(tasks: Tasks, all: seq<nat>) returns (reserved: int, runnable: seq<nat>)
    requires forall id :: id in all ==> id in tasks
    ensures reserved == SumReserved(tasks, all) && runnable == AdmittedLive(tasks, all)
  {
    reserved, runnable := 0, [];
    var i := 0;
    while i < |all|
      invariant i <= |all| && reserved == SumReserved(tasks, all[..i]) && runnable == AdmittedLive(tasks, all[..i])
    {
      SumSnoc(tasks, all, i);
      assert all[i] in all;
      var t := tasks[all[i]];
      if t.pool.admitted {
        reserved := reserved + t.pool.reserved;
        if !Flagged(t) {
          runnable := runnable + [all[i]];
        }
      }
      i := i + 1;
    }
    Whole(all);
  }

  /** Once a waiter does not fit, nothing changes any more: nobody overtakes it. */
  lemma {:induction false} HaltedStays(cfg: Config, all: seq<nat>, k: nat, n: nat, tasks: Tasks, caches: Caches, evictions: nat -> Eviction)
    requires k <= n <= |all| && Admit(cfg, all, k, tasks, caches, evictions).halted
    ensures Admit(cfg, all, n, tasks, caches, evictions) == Admit(cfg, all, k, tasks, caches, evictions)
  {
    if k == n {
    } else {
      HaltedStays(cfg, all, k, n - 1, tasks, caches, evictions);
    }
  }

  /** What one candidate leads to. */
  datatype Verdict = Skip | Reject | Halt | Admitted

  /** One turn of the admission loop. */
  method TryCandidate(cfg: Config, all: seq<nat>, a: Admission, id: nat, e: Eviction) returns (v: Verdict, r: Admission)
    requires id in a.tasks && (forall x :: x in all ==> x in a.tasks) && !a.halted
    ensures r == AdmitOne(cfg, all, a, id, e)
    ensures v == Halt <==> r.halted
    ensures v != Halt ==> r.rejected == if v == Reject then a.rejected + {id} else a.rejected
  {
    var t := a.tasks[id];
    if t.pool.admitted || Flagged(t) {
      return Skip, a;
    }
    var required := Reservation(cfg, t.req);
    if required > cfg.capacity {
      return Reject, a.(rejected := a.rejected + {id});
    }
    if !CanAdmit(a.reserved, required, cfg.capacity) {
      return Halt, a.(halted := true);
    }
    var prot := ProtectedSlots(a.tasks, all, t.req.slot);
    var caches, ok := ReclaimCapacity(a.caches, prot, a.reserved, required, cfg.capacity, e);
    if !ok {
      return Reject, a.(caches := caches, rejected := a.rejected + {id});
    }
    return Admitted, Admission(a.tasks[id := t.(pool := Pool(true, required))], caches, a.reserved + required,
                               a.runnable + [id], a.rejected, false);
  }

  lemma {:induction false} AdmitKeys(cfg: Config, all: seq<nat>, k: nat, tasks: Tasks, caches: Caches, evictions: nat -> Eviction)
    requires k <= |all| && forall id :: id in all ==> id in tasks
    ensures Admit(cfg, all, k, tasks, caches, evictions).tasks.Keys == tasks.Keys
  {
    if k == 0 {
    } else {
      AdmitKeys(cfg, all, k - 1, tasks, caches, evictions);
      assert all[k - 1] in all;
    }
  }

  /** admit_bounded_pool_tasks: first come, first served. */
  method AdmitTasks(cfg: Config, all: seq<nat>, tasks: Tasks, caches: Caches, evictions: nat -> Eviction)
    returns (a: Admission, rejected: seq<nat>)
    requires Known(all, tasks)
    ensures var b := Admit(cfg, all, |all|, tasks, caches, evictions);
            a == b && Collects(rejected, b.rejected, all)
  {
    var reserved, runnable := CountReserved(tasks, all);
    a := Admission(tasks, caches, reserved, runnable, {}, false);
    rejected := [];
    var i := 0;
    while i < |all|
      invariant i <= |all| && a == Admit(cfg, all, i, tasks, caches, evictions) && !a.halted
      invariant Collects(rejected, a.rejected, all[..i])
    {
      Candidate(cfg, all, i, tasks, caches, evictions);
      CollectsNext(rejected, a.rejected, all, i);
      var v, r := TryCandidate(cfg, all, a, all[i], evictions(all[i]));
      a := r;
      if v == Halt {
        HaltedStays(cfg, all, i + 1, |all|, tasks, caches, evictions);
        return;
      }
      if v == Reject {
        rejected := rejected + [all[i]];
      }
      i := i + 1;
    }
    Whole(all);
  }

  /** A list without repetitions of the tasks in a set, all of them among ids. */
  ghost predicate Collects(list: seq<nat>, tasks: set<nat>, ids: seq<nat>) {
    ToSet(list) == tasks && Distinct(list) && forall id :: id in list ==> id in ids
  }

  lemma CollectsNext(list: seq<nat>, tasks: set<nat>, all: seq<nat>, i: nat)
    requires i < |all| && Distinct(all) && Collects(list, tasks, all[..i])
    ensures Collects(list, tasks, all[..i + 1]) && Collects(list + [all[i]], tasks + {all[i]}, all[..i + 1])
    ensures forall id :: id in all[..i + 1] ==> id in all
  {
    NotBefore(all, i);
    Snoc(all, i);
  }

  /** The next candidate is known, and what becomes of it is the next state of admission. */
  lemma Candidate(cfg: Config, all: seq<nat>, i: nat, tasks: Tasks, caches: Caches, evictions: nat -> Eviction)
    requires Known(all, tasks) && i < |all|
    ensures var a := Admit(cfg, all, i, tasks, caches, evictions);
            && all[i] in a.tasks && (forall x :: x in all ==> x in a.tasks)
            && Admit(cfg, all, i + 1, tasks, caches, evictions) == AdmitOne(cfg, all, a, all[i], evictions(all[i]))
  {
    AdmitKeys(cfg, all, i, tasks, caches, evictions);
    assert all[i] in all;
  }
}
