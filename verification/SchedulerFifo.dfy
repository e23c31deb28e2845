/** Admission is first come, first served. */
module SchedulerFifo {
  // Among the tasks that are neither cancelled nor stopped the admitted ones form a prefix of the active
  // list, so no request is overtaken.

  import opened Generation
  import opened BatchOrder
  import opened SlotTask
  import opened SlotTaskProofs
  import opened Scheduler
  import opened SchedulerInv
  import opened SchedulerSteps
  import opened SchedulerTurn
  import opened SchedulerBuild
  import opened SchedulerFinish

  predicate Waiting(tasks: Tasks, id: nat) { !Flagged(Get(tasks, id)) && !Get(tasks, id).pool.admitted }
  predicate Running(tasks: Tasks, id: nat) { !Flagged(Get(tasks, id)) && Get(tasks, id).pool.admitted }

  ghost predicate Fifo(tasks: Tasks, ids: seq<nat>) {
    forall i, j :: 0 <= i < j < |ids| && Waiting(tasks, ids[i]) ==> !Running(tasks, ids[j])
  }

  lemma {:induction false} FifoWithout(tasks: Tasks, ids: seq<nat>, gone: set<nat>)
    requires Fifo(tasks, ids)
    ensures Fifo(tasks, Without(ids, gone))
  {
    if ids == [] {
    } else {
      var r := Without(ids[1..], gone);
      FifoWithout(tasks, ids[1..], gone);
      if ids[0] !in gone && Waiting(tasks, ids[0]) {
        forall j | 0 <= j < |r| ensures !Running(tasks, r[j]) {
          assert r[j] in r;
          var k :| 0 <= k < |ids[1..]| && ids[1..][k] == r[j];
          assert ids[k + 1] == r[j];
        }
      }
    }
  }

  /** Fewer live tasks and the same admissions keep the order. */
  lemma FifoFewer(tasks: Tasks, tasks1: Tasks, ids: seq<nat>)
    requires Fifo(tasks, ids)
    requires forall id :: id in ids ==>
               && (Waiting(tasks1, id) ==> Waiting(tasks, id)) && (Running(tasks1, id) ==> Running(tasks, id))
    ensures Fifo(tasks1, ids)
  {
  }

  lemma FifoAppend(tasks: Tasks, ids: seq<nat>, id: nat)
    requires Fifo(tasks, ids) && !Running(tasks, id)
    ensures Fifo(tasks, ids + [id])
  {
  }

  // ---- admission ----

  /** Until admission halts, every live candidate passed was admitted or rejected. */
  ghost predicate FifoMid(all: seq<nat>, k: nat, a: Admission)
    requires k <= |all|
  {
    && (!a.halted ==> forall i :: 0 <= i < k && Waiting(a.tasks, all[i]) ==> all[i] in a.rejected)
    && forall i, j :: 0 <= i < j < |all| && Waiting(a.tasks, all[i]) && all[i] !in a.rejected ==> !Running(a.tasks, all[j])
  }

  lemma AdmitOneFifo(cfg: Config, all: seq<nat>, k: nat, a: Admission, e: Eviction)
    requires k < |all| && Distinct(all) && FifoMid(all, k, a)
    ensures FifoMid(all, k + 1, AdmitOne(cfg, all, a, all[k], e))
  {
    var a1 := AdmitOne(cfg, all, a, all[k], e);
    assert a1.tasks == a.tasks || (a1.tasks == a.tasks[all[k] := a1.tasks[all[k]]] && !a1.halted && !a.halted && !Waiting(a1.tasks, all[k]));
  }

  lemma {:induction false} AdmitFifo(cfg: Config, all: seq<nat>, k: nat, tasks: Tasks, caches: Caches, ev: nat -> Eviction)
    requires k <= |all| && Distinct(all) && Fifo(tasks, all)
    ensures FifoMid(all, k, Admit(cfg, all, k, tasks, caches, ev))
  {
    if k == 0 {
      FifoFirst(cfg, all, tasks, caches, ev);
    } else {
      AdmitFifo(cfg, all, k - 1, tasks, caches, ev);
      FifoNext(cfg, all, k - 1, Admit(cfg, all, k - 1, tasks, caches, ev), ev(all[k - 1]), Admit(cfg, all, k, tasks, caches, ev));
    }
  }

  lemma FifoFirst(cfg: Config, all: seq<nat>, tasks: Tasks, caches: Caches, ev: nat -> Eviction)
    requires Fifo(tasks, all)
    ensures FifoMid(all, 0, Admit(cfg, all, 0, tasks, caches, ev))
  {
  }

  lemma FifoNext(cfg: Config, all: seq<nat>, k: nat, a: Admission, e: Eviction, a1: Admission)
    requires k < |all| && Distinct(all) && FifoMid(all, k, a) && a1 == AdmitOne(cfg, all, a, all[k], e)
    ensures FifoMid(all, k + 1, a1)
  {
    AdmitOneFifo(cfg, all, k, a, e);
  }

  lemma {:induction false} RejectedFifo(tasks: Tasks, all: seq<nat>, rejected: set<nat>)
    requires forall i, j :: 0 <= i < j < |all| && Waiting(tasks, all[i]) && all[i] !in rejected ==> !Running(tasks, all[j])
    ensures Fifo(tasks, Without(all, rejected))
  {
    if all == [] {
    } else {
      var r := Without(all[1..], rejected);
      RejectedFifo(tasks, all[1..], rejected);
      if all[0] !in rejected && Waiting(tasks, all[0]) {
        forall j | 0 <= j < |r| ensures !Running(tasks, r[j]) {
          assert r[j] in r;
          var k :| 0 <= k < |all[1..]| && all[1..][k] == r[j];
          assert all[k + 1] == r[j];
        }
      }
    }
  }

  lemma BeginFifo(cfg: Config, s: State, ev: nat -> Eviction)
    requires Wired(s.active, s.tasks, s.caches, s.slots) && Fifo(s.tasks, s.active) && cfg.bounded
    ensures Fifo(Begin(cfg, s, ev).tasks, Begin(cfg, s, ev).active)
  {
    var tasks := ClearDrafts(s.tasks, s.active);
    FifoFewer(s.tasks, tasks, s.active);
    AdmitFifo(cfg, s.active, |s.active|, tasks, s.caches, ev);
    var a := Admit(cfg, s.active, |s.active|, tasks, s.caches, ev);
    RejectedFifo(a.tasks, s.active, a.rejected);
    var left := Without(s.active, a.rejected);
    FifoFewer(a.tasks, RetireAll(a.tasks, a.rejected, Rejected), left);
  }

  // ---- the head waiter ----

  /** While only flagged tasks have been visited, admission has done nothing. */
  lemma {:induction false} AdmitSkipsFlagged(cfg: Config, all: seq<nat>, k: nat, tasks: Tasks, caches: Caches, ev: nat -> Eviction)
    requires k <= |all| && forall i :: 0 <= i < k ==> Flagged(Get(tasks, all[i]))
    ensures Admit(cfg, all, k, tasks, caches, ev) == Admit(cfg, all, 0, tasks, caches, ev)
  {
    if k == 0 {
    } else {
      AdmitSkipsFlagged(cfg, all, k - 1, tasks, caches, ev);
    }
  }

  lemma {:induction false} NothingReserved(tasks: Tasks, ids: seq<nat>)
    requires forall id :: id in ids ==> !Get(tasks, id).pool.admitted
    ensures SumReserved(tasks, ids) == 0
  {
    if ids == [] {
    } else {
      NothingReserved(tasks, ids[..|ids| - 1]);
    }
  }

  /** A decision on a candidate is final. */
  lemma {:induction false} AdmitIsFinal(cfg: Config, all: seq<nat>, j: nat, k: nat, tasks: Tasks, caches: Caches, ev: nat -> Eviction, id: nat)
    requires j <= k <= |all|
    requires var a := Admit(cfg, all, j, tasks, caches, ev); Get(a.tasks, id).pool.admitted || id in a.rejected
    ensures var a := Admit(cfg, all, k, tasks, caches, ev); Get(a.tasks, id).pool.admitted || id in a.rejected
    decreases k
  {
    if j == k {
    } else {
      AdmitIsFinal(cfg, all, j, k - 1, tasks, caches, ev, id);
    }
  }

  /** No starvation: once no reservation is left, the first live task is admitted or rejected at the
      next turn, however large it is and whatever waits behind it. */
  lemma HeadWaiterServed(cfg: Config, s: State, ev: nat -> Eviction, h: nat)
    requires cfg.bounded && cfg.capacity > 0
    requires h < |s.active| && s.active[h] in s.tasks && !Flagged(s.tasks[s.active[h]])
    requires forall i :: 0 <= i < h ==> Flagged(Get(s.tasks, s.active[i]))
    requires forall id :: id in s.active ==> !Get(s.tasks, id).pool.admitted
    ensures var s1, id := Begin(cfg, s, ev), s.active[h];
            (id in s1.active && Get(s1.tasks, id).pool.admitted) || (id !in s1.active && Get(s1.tasks, id).events != [])
  {
    var tasks, n, id := ClearDrafts(s.tasks, s.active), |s.active|, s.active[h];
    HeadDecided(cfg, s.active, tasks, s.caches, ev, h);
    AdmitIsFinal(cfg, s.active, h + 1, n, tasks, s.caches, ev, id);
    AdmitKeeps(cfg, s.active, n, tasks, s.caches, ev, id);
    HeadRetired(Admit(cfg, s.active, n, tasks, s.caches, ev), s.active, id);
  }

  lemma HeadDecided(cfg: Config, all: seq<nat>, tasks: Tasks, caches: Caches, ev: nat -> Eviction, h: nat)
    requires cfg.capacity > 0 && h < |all| && !Flagged(Get(tasks, all[h]))
    requires forall i :: 0 <= i < h ==> Flagged(Get(tasks, all[i]))
    requires forall id :: id in all ==> !Get(tasks, id).pool.admitted
    ensures var a := Admit(cfg, all, h + 1, tasks, caches, ev); Get(a.tasks, all[h]).pool.admitted || all[h] in a.rejected
  {
    AdmitSkipsFlagged(cfg, all, h, tasks, caches, ev);
    NothingReserved(tasks, all);
  }

  lemma HeadRetired(a: Admission, all: seq<nat>, id: nat)
    requires id in all && id in a.tasks && (Get(a.tasks, id).pool.admitted || id in a.rejected)
    ensures var tasks, left := RetireAll(a.tasks, a.rejected, Rejected), Without(all, a.rejected);
            (id in left && Get(tasks, id).pool.admitted) || (id !in left && Get(tasks, id).events != [])
  {
  }

  lemma {:induction false} AdmitKeeps(cfg: Config, all: seq<nat>, k: nat, tasks: Tasks, caches: Caches, ev: nat -> Eviction, id: nat)
    requires k <= |all| && id in tasks
    ensures id in Admit(cfg, all, k, tasks, caches, ev).tasks
    ensures id in Admit(cfg, all, k, tasks, caches, ev).rejected ==> id in all
  {
    if k == 0 {
    } else {
      AdmitKeeps(cfg, all, k - 1, tasks, caches, ev, id);
    }
  }

  // ---- the other steps ----

  /** Same flags and same admissions. */
  ghost predicate SameStanding(tasks: Tasks, tasks1: Tasks) {
    tasks1.Keys == tasks.Keys && forall id :: id in tasks ==> tasks1[id].flags == tasks[id].flags && tasks1[id].pool == tasks[id].pool
  }

  lemma FifoShrinks(tasks: Tasks, tasks1: Tasks, ids: seq<nat>, gone: set<nat>)
    requires Fifo(tasks, ids) && SameStanding(tasks, tasks1)
    ensures Fifo(tasks1, Without(ids, gone))
  {
    FifoFewer(tasks, tasks1, ids);
    FifoWithout(tasks1, ids, gone);
  }

  lemma BuildStanding(cfg: Config, s: State, b: Batching, caches: Caches)
    requires BatchDone(cfg, s, b, caches)
    ensures SameStanding(s.tasks, RetireBoth(b))
  {
    RetiredBothFrame(cfg, s, b, caches);
  }

  lemma BuildFifo(cfg: Config, s: State, b: Batching, caches: Caches)
    requires BatchDone(cfg, s, b, caches) && Fifo(s.tasks, s.active)
    ensures Fifo(RetireBoth(b), Without(s.active, b.cancelled + b.stopped))
  {
    BuildStanding(cfg, s, b, caches);
    FifoShrinks(s.tasks, RetireBoth(b), s.active, b.cancelled + b.stopped);
  }

  lemma FinishFifo(cfg: Config, s: State, caches: Caches, capture: nat -> bool)
    requires Fifo(s.tasks, s.active)
    ensures var r := Finishing(cfg, s, caches, capture);
            Fifo(RetireAll(r.tasks, r.completed, Completed), Without(s.active, r.completed))
  {
    var r := Finishing(cfg, s, caches, capture);
    FinishedFrame(cfg, s, caches, capture, ToSet(s.loop.turn));
    FifoShrinks(s.tasks, RetireAll(r.tasks, r.completed, Completed), s.active, r.completed);
  }

  lemma PrepareFifo(cfg: Config, s: State, e: Env)
    requires Fifo(s.tasks, s.active)
    ensures Fifo(PreparedTasks(cfg, s, e), s.active)
  {
    PreparedFrame(cfg, s, e);
    FifoFewer(s.tasks, PreparedTasks(cfg, s, e), s.active);
  }

  lemma SubmitFifo(s: State, id: nat, req: Request)
    requires Fifo(s.tasks, s.active) && id !in s.active && req.slot < |s.slots|
    ensures Fifo(Submit(s, id, req).tasks, Submit(s, id, req).active)
  {
    var s1 := Submit(s, id, req);
    FifoFewer(s.tasks, s1.tasks, s.active);
    FifoAppend(s1.tasks, s.active, id);
  }
}
