/** Every step keeps the bounded-pool invariant: submission, release, admission, preparation, batch
    building and completion. */
module SchedulerPoolSteps {
  import opened Generation
  import opened BatchOrder
  import opened SlotTask
  import opened SlotTaskProofs
  import opened Scheduler
  import opened SchedulerInv
  import opened SchedulerSteps
  import opened SchedulerTurn
  import opened SchedulerBuild
  import opened SchedulerFinish
  import opened SchedulerPool

  // ---- callers ----

  /** A new task reserves nothing, so its slot weighs what its cache holds. */
  lemma NewcomerWeighs(s: State, id: nat, t: Task, more: seq<nat>, q: nat, slot: Slot, cache: seq<Token>)
    requires q < |s.slots| && id !in s.tasks && id !in s.active && !t.pool.admitted && (more == s.active || more == s.active + [id])
    requires (slot == s.slots[q] && (slot.owner.Held? ==> slot.owner.id in s.tasks)) || (slot.owner == Held(id) && s.slots[q].owner == Unowned)
    ensures Weight(s.tasks[id := t], more, slot, cache) <= Weight(s.tasks, s.active, s.slots[q], cache)
  {
  }

  lemma SubmitPool(cfg: Config, s: State, id: nat, req: Request)
    requires Inv(cfg, s) && PoolInv(cfg, s)
    requires id !in s.tasks && req.slot < |s.slots| && s.slots[req.slot].owner == Unowned
    ensures PoolInv(cfg, Submit(s, id, req))
  {
    var s1 := Submit(s, id, req);
    assert Phys(s1) == Phys(s);
    forall q | 0 <= q < |s.slots|
      ensures Weight(s1.tasks, s1.active, s1.slots[q], Phys(s)[q]) <= Weight(s.tasks, s.active, s.slots[q], Phys(s)[q])
    {
      NewcomerWeighs(s, id, s1.tasks[id], s1.active, q, s1.slots[q], Phys(s)[q]);
    }
    LoadMono(s.tasks, s.active, s.slots, Phys(s), s1.tasks, s1.active, s1.slots, Phys(s));
  }

  lemma ReleasePool(cfg: Config, s: State, id: nat, k: nat)
    requires Inv(cfg, s) && PoolInv(cfg, s)
    requires id in s.tasks && id !in s.active && k < |s.tasks[id].events|
    requires s.tasks[id].req.slot < |s.slots| && s.slots[s.tasks[id].req.slot].owner == Held(id)
    ensures PoolInv(cfg, Release(s, id, k))
  {
    var s1 := Release(s, id, k);
    assert Phys(s1) == Phys(s);
    LoadMono(s.tasks, s.active, s.slots, Phys(s), s1.tasks, s1.active, s1.slots, Phys(s));
  }

  lemma FlagsPool(cfg: Config, s: State, id: nat, flags: Flags)
    requires Inv(cfg, s) && PoolInv(cfg, s) && id in s.tasks
    ensures PoolInv(cfg, s.(tasks := s.tasks[id := s.tasks[id].(flags := flags)]))
  {
    var s1 := s.(tasks := s.tasks[id := s.tasks[id].(flags := flags)]);
    assert Phys(s1) == Phys(s);
    LoadMono(s.tasks, s.active, s.slots, Phys(s), s1.tasks, s1.active, s1.slots, Phys(s));
  }

  // ---- begin ----

  lemma {:induction false} AdmitRight(cfg: Config, all: seq<nat>, k: nat, tasks: Tasks, caches: Caches, ev: nat -> Eviction)
    requires k <= |all| && Distinct(all) && (forall id :: id in all ==> id in tasks) && ReservedRight(cfg, tasks, all)
    ensures ReservedRight(cfg, Admit(cfg, all, k, tasks, caches, ev).tasks, all)
  {
    if k == 0 {
    } else {
      AdmitRight(cfg, all, k - 1, tasks, caches, ev);
      AdmitOneRight(cfg, all, Admit(cfg, all, k - 1, tasks, caches, ev), all[k - 1], ev(all[k - 1]));
    }
  }

  lemma AdmitOneRight(cfg: Config, all: seq<nat>, a: Admission, id: nat, e: Eviction)
    requires ReservedRight(cfg, a.tasks, all)
    ensures ReservedRight(cfg, AdmitOne(cfg, all, a, id, e).tasks, all)
  {
  }

  lemma ClearedSums(tasks: Tasks, ids: seq<nat>)
    ensures SumReserved(ClearDrafts(tasks, ids), ids) == SumReserved(tasks, ids)
    ensures Protected(ClearDrafts(tasks, ids), ids) == Protected(tasks, ids)
  {
    SumReservedFrame(tasks, ClearDrafts(tasks, ids), ids);
    ProtectedSame(tasks, ClearDrafts(tasks, ids), ids);
  }

  lemma ClearedHeld(tasks: Tasks, ids: seq<nat>, slots: seq<Slot>)
    requires HeldBy(tasks, ids, slots)
    ensures HeldBy(ClearDrafts(tasks, ids), ids, slots)
  {
  }

  lemma BeginSafe(cfg: Config, s: State, ev: nat -> Eviction)
    requires Inv(cfg, s) && PoolInv(cfg, s) && s.loop.phase == Top
    ensures var tasks := ClearDrafts(s.tasks, s.active);
            var a := Admit(cfg, s.active, |s.active|, tasks, s.caches, ev);
            AdmitSafe(cfg, cfg.capacity + StillLeaked(s.leaked, tasks, a), s.active, s.slots, a)
  {
    var tasks := ClearDrafts(s.tasks, s.active);
    WiredHeld(s.active, s.tasks, s.caches, s.slots);
    LoadIsComputed(s.tasks, s.active, s.slots, s.caches);
    ClearedSums(s.tasks, s.active);
    ClearedHeld(s.tasks, s.active, s.slots);
    AdmitKeepsSafe(cfg, cfg.capacity + s.leaked, s.active, s.slots, |s.active|, tasks, s.caches, ev);
  }

  /** Dropping rejected tasks, which hold no reservation, does not change the load. */
  lemma RejectLoad(s: State, a: Admission)
    requires |s.slots| == |a.caches| && forall id :: id in a.rejected ==> !Get(a.tasks, id).pool.admitted
    ensures Load(RetireAll(a.tasks, a.rejected, Rejected), Without(s.active, a.rejected), s.slots, a.caches)
            <= Load(a.tasks, s.active, s.slots, a.caches)
  {
    LoadMono(a.tasks, s.active, s.slots, a.caches, RetireAll(a.tasks, a.rejected, Rejected), Without(s.active, a.rejected), s.slots, a.caches);
  }

  lemma BeginLoad(cfg: Config, s: State, ev: nat -> Eviction)
    requires Inv(cfg, s) && PoolInv(cfg, s) && s.loop.phase == Top && cfg.bounded
    ensures var tasks := ClearDrafts(s.tasks, s.active);
            var a := Admit(cfg, s.active, |s.active|, tasks, s.caches, ev);
            && |a.caches| == |s.slots|
            && Load(RetireAll(a.tasks, a.rejected, Rejected), Without(s.active, a.rejected), s.slots, a.caches)
            <= cfg.capacity + StillLeaked(s.leaked, tasks, a)
  {
    var a := Admit(cfg, s.active, |s.active|, ClearDrafts(s.tasks, s.active), s.caches, ev);
    BeginSafe(cfg, s, ev);
    LoadIsComputed(a.tasks, s.active, s.slots, a.caches);
    AdmitBegun(cfg, s, ev);
    RejectLoad(s, a);
  }

  lemma BeginRight(cfg: Config, s: State, ev: nat -> Eviction)
    requires Inv(cfg, s) && ReservedRight(cfg, s.tasks, s.active) && s.loop.phase == Top && cfg.bounded
    ensures var a := Admit(cfg, s.active, |s.active|, ClearDrafts(s.tasks, s.active), s.caches, ev);
            && |a.caches| == |s.caches|
            && ReservedRight(cfg, RetireAll(a.tasks, a.rejected, Rejected), Without(s.active, a.rejected))
  {
    var tasks := ClearDrafts(s.tasks, s.active);
    AdmitBegun(cfg, s, ev);
    assert ReservedRight(cfg, tasks, s.active);
    AdmitRight(cfg, s.active, |s.active|, tasks, s.caches, ev);
  }

  lemma BeginPool(cfg: Config, s: State, ev: nat -> Eviction)
    requires Inv(cfg, s) && PoolInv(cfg, s) && s.loop.phase == Top && cfg.bounded
    ensures PoolInv(cfg, Begin(cfg, s, ev))
  {
    BeginRight(cfg, s, ev);
    BeginLoad(cfg, s, ev);
  }

  // ---- prepare ----

  lemma PrepareWeight(cfg: Config, s: State, e: Env, q: nat)
    requires Inv(cfg, s) && s.loop.phase == Prepare && cfg.bounded && q < |s.slots|
    ensures Weight(PreparedTasks(cfg, s, e), s.active, s.slots[q], InitCaches(cfg, s, e.init)[q]) ==
            Weight(s.tasks, s.active, s.slots[q], s.caches[q])
  {
    PreparedFrame(cfg, s, e);
    assert InitCaches(cfg, s, e.init)[q] == InitCache(cfg, s, q, e.init);
  }

  lemma PrepareLoad(cfg: Config, s: State, e: Env)
    requires Inv(cfg, s) && s.loop.phase == Prepare && cfg.bounded
    ensures |InitCaches(cfg, s, e.init)| == |s.slots|
    ensures Load(PreparedTasks(cfg, s, e), s.active, s.slots, InitCaches(cfg, s, e.init)) <= Load(s.tasks, s.active, s.slots, s.caches)
  {
    var tasks, caches := PreparedTasks(cfg, s, e), InitCaches(cfg, s, e.init);
    forall q | 0 <= q < |s.slots| ensures Weight(tasks, s.active, s.slots[q], caches[q]) <= Weight(s.tasks, s.active, s.slots[q], s.caches[q]) {
      PrepareWeight(cfg, s, e, q);
    }
    LoadMono(s.tasks, s.active, s.slots, s.caches, tasks, s.active, s.slots, caches);
  }

  lemma PrepareRight(cfg: Config, s: State, tasks: Tasks)
    requires ReservedRight(cfg, s.tasks, s.active) && tasks.Keys == s.tasks.Keys
    requires forall id :: id in s.tasks ==>
               && tasks[id].req == s.tasks[id].req && tasks[id].flags == s.tasks[id].flags && tasks[id].pool == s.tasks[id].pool
               && (s.tasks[id].run.initialized ==> tasks[id].run.initialized)
    ensures ReservedRight(cfg, tasks, s.active)
  {
  }

  lemma PreparePool(cfg: Config, s: State, e: Env)
    requires Inv(cfg, s) && PoolInv(cfg, s) && s.loop.phase == Prepare && cfg.bounded
    ensures PoolInv(cfg, PrepareTurn(cfg, s, e.init, e.mtp, e.drafts))
  {
    PreparedFrame(cfg, s, e);
    PrepareRight(cfg, s, PreparedTasks(cfg, s, e));
    PrepareLoad(cfg, s, e);
    PrepareStarted(cfg, s, e);
  }

  lemma PrepareStarted(cfg: Config, s: State, e: Env)
    requires Inv(cfg, s) && PoolInv(cfg, s) && s.loop.phase == Prepare
    ensures AdmittedStarted(PreparedTasks(cfg, s, e), s.active, PrepareTurn(cfg, s, e.init, e.mtp, e.drafts).loop)
  {
    PreparedFrame(cfg, s, e);
  }

  // ---- build ----

  lemma ReservationCovers(cfg: Config, s: State, id: nat)
    requires Inv(cfg, s) && PoolInv(cfg, s) && s.loop.phase != Dead && id in s.active
    requires s.tasks[id].pool.admitted && s.tasks[id].run.initialized
    ensures |CacheOf(Phys(s), s.tasks[id].req.slot)| <= s.tasks[id].pool.reserved
  {
    var t := s.tasks[id];
    assert TaskOk(cfg, s.loop.phase, s.loop.batch, t, Phys(s));
    if s.loop.phase != Finish {
      ReadyIsBuilt(cfg, t, CacheOf(Phys(s), t.req.slot), s.loop.batch);
    }
    WithinReservation(cfg, t, CacheOf(Phys(s), t.req.slot), s.loop.batch);
  }

  lemma BuildWeight(cfg: Config, s: State, b: Batching, caches: Caches, q: nat)
    requires BatchDone(cfg, s, b, caches) && PoolInv(cfg, s) && cfg.bounded && q < |s.slots|
    ensures Weight(RetireBoth(b), Without(s.active, b.cancelled + b.stopped), s.slots[q], DecodeRows(caches, b.batch).caches[q]) <=
            Weight(s.tasks, s.active, s.slots[q], s.caches[q]) + LeakAt(s, q)
  {
    RetiredSamePool(cfg, s, b, caches);
    WeightRemoved(s.tasks, s.active, s.slots[q], RetireBoth(b), b.cancelled + b.stopped, DecodeRows(caches, b.batch).caches[q]);
    if !(s.slots[q].owner.Held? && s.slots[q].owner.id in s.active && Unblocked(cfg, Get(s.tasks, s.slots[q].owner.id))) {
      BlockedCache(cfg, s, b, caches, q);
      BlockedWeight(cfg, s, q);
    }
    GoneFlagged(cfg, s, b, caches);
  }

  lemma GoneFlagged(cfg: Config, s: State, b: Batching, caches: Caches)
    requires BatchDone(cfg, s, b, caches)
    ensures forall id :: id in b.cancelled ==> Get(s.tasks, id).flags.cancel
    ensures forall id :: id in b.stopped ==> Get(s.tasks, id).flags.stop
  {
  }

  lemma RetiredSamePool(cfg: Config, s: State, b: Batching, caches: Caches)
    requires BatchDone(cfg, s, b, caches)
    ensures SamePool(s.tasks, RetireBoth(b))
  {
    RetiredBothFrame(cfg, s, b, caches);
  }

  /** A stopped task's sequence holds what the task had reserved, and what it leaks. */
  lemma BlockedWeight(cfg: Config, s: State, q: nat)
    requires Inv(cfg, s) && PoolInv(cfg, s) && s.loop.phase == Building && q < |s.slots|
    ensures Occupies(s.tasks, s.active, s.slots[q]) ==>
              var t := s.tasks[s.slots[q].owner.id];
              t.pool.reserved >= 0 && (t.flags.stop && !t.flags.cancel ==> |s.caches[q]| <= t.pool.reserved + LeakAt(s, q))
  {
    if Occupies(s.tasks, s.active, s.slots[q]) {
      var id := s.slots[q].owner.id;
      var t := s.tasks[id];
      if t.run.initialized {
        ReservationCovers(cfg, s, id);
      } else {
        assert id in s.loop.turn && Get(s.tasks, id) == t;
      }
    }
  }

  function AllLeaks(s: State, k: nat): (w: seq<int>)
    ensures |w| == k && forall q :: 0 <= q < k ==> w[q] == LeakAt(s, q)
  {
    seq(k, q requires 0 <= q < k => LeakAt(s, q))
  }

  lemma {:induction false} LeaksIsSum(s: State, k: nat)
    ensures Leaks(s, k) == Sum(AllLeaks(s, k))
  {
    if k == 0 {
    } else {
      LeaksIsSum(s, k - 1);
      assert AllLeaks(s, k)[..k - 1] == AllLeaks(s, k - 1);
    }
  }

  /** A batch step adds no more to the load than the turn leaks. */
  lemma BuiltLoad(cfg: Config, s: State, b: Batching, caches: Caches)
    requires BatchDone(cfg, s, b, caches) && PoolInv(cfg, s) && cfg.bounded
    ensures var d := DecodeRows(caches, b.batch).caches;
            && |d| == |s.slots|
            && Load(RetireBoth(b), Without(s.active, b.cancelled + b.stopped), s.slots, d)
            <= Load(s.tasks, s.active, s.slots, s.caches) + Leaks(s, |s.slots|)
  {
    var d := DecodeRows(caches, b.batch).caches;
    var w := Weights(s.tasks, s.active, s.slots, s.caches);
    var w1 := Weights(RetireBoth(b), Without(s.active, b.cancelled + b.stopped), s.slots, d);
    var l := AllLeaks(s, |s.slots|);
    forall q | 0 <= q < |s.slots| ensures w1[q] <= w[q] + l[q] {
      BuildWeight(cfg, s, b, caches, q);
    }
    LeaksIsSum(s, |s.slots|);
    var both := seq(|w|, q requires 0 <= q < |w| => w[q] + l[q]);
    SumAdd(w, l, both);
    SumMono(w1, both);
  }

  lemma BuildPool(cfg: Config, s: State)
    requires Inv(cfg, s) && PoolInv(cfg, s) && s.loop.phase == Building && cfg.bounded
    ensures PoolInv(cfg, BuildTurn(cfg, s))
  {
    var b := BatchAll(cfg, s.loop.turn, |s.loop.turn|, s.tasks, s.loop.limit);
    var caches := ClearSlots(s.caches, SlotsOf(b.tasks, b.cancelled));
    BatchIsDone(cfg, s);
    BuiltPool(cfg, s, b, caches);
    assert BuildTurn(cfg, s) == AfterBuilding(s, b, caches);
  }

  lemma BuiltPool(cfg: Config, s: State, b: Batching, caches: Caches)
    requires BatchDone(cfg, s, b, caches) && PoolInv(cfg, s) && cfg.bounded
    ensures PoolInv(cfg, AfterBuilding(s, b, caches))
  {
    var s1 := AfterBuilding(s, b, caches);
    BuildStarted(cfg, s, b, caches);
    BuiltLoad(cfg, s, b, caches);
  }

  lemma BuildStarted(cfg: Config, s: State, b: Batching, caches: Caches)
    requires BatchDone(cfg, s, b, caches) && PoolInv(cfg, s) && cfg.bounded
    ensures var active := Without(s.active, b.cancelled + b.stopped);
            && (forall id :: id in active && id in s.tasks && RetireBoth(b)[id].pool.admitted ==> RetireBoth(b)[id].run.initialized)
            && ReservedRight(cfg, RetireBoth(b), active)
  {
    var active := Without(s.active, b.cancelled + b.stopped);
    RetiredBothFrame(cfg, s, b, caches);
    forall id | id in active && id in s.tasks && RetireBoth(b)[id].pool.admitted ensures RetireBoth(b)[id].run.initialized {
      SurvivorStarted(cfg, s, b, caches, id);
    }
  }

  /** An admitted task that survives the batch step has been initialised: otherwise it was flagged. */
  lemma SurvivorStarted(cfg: Config, s: State, b: Batching, caches: Caches, id: nat)
    requires BatchDone(cfg, s, b, caches) && cfg.bounded
    requires id in s.active && id !in b.cancelled && id !in b.stopped && id in s.tasks && s.tasks[id].pool.admitted
    requires AdmittedStarted(s.tasks, s.active, s.loop)
    ensures s.tasks[id].run.initialized
  {
    assert s.loop.turn[..|s.loop.turn|] == s.loop.turn;
    assert Get(s.tasks, id) == s.tasks[id];
  }

  // ---- finish ----

  lemma FinishWeight(cfg: Config, s: State, caches: Caches, capture: nat -> bool, q: nat)
    requires AtFinish(cfg, s, caches) && PoolInv(cfg, s) && cfg.bounded && q < |s.slots|
    ensures var r := Finishing(cfg, s, caches, capture);
            Weight(RetireAll(r.tasks, r.completed, Completed), Without(s.active, r.completed), s.slots[q], r.caches[q]) <=
            Weight(s.tasks, s.active, s.slots[q], caches[q])
  {
    var r := Finishing(cfg, s, caches, capture);
    FinishShrinks(cfg, s, caches, capture, q);
    FinishSamePool(cfg, s, caches, capture);
    WeightRemoved(s.tasks, s.active, s.slots[q], RetireAll(r.tasks, r.completed, Completed), r.completed, r.caches[q]);
    OccupiedCovers(cfg, s, caches, q);
  }

  lemma OccupiedCovers(cfg: Config, s: State, caches: Caches, q: nat)
    requires AtFinish(cfg, s, caches) && PoolInv(cfg, s) && cfg.bounded && q < |s.slots|
    ensures q < |caches|
    ensures Occupies(s.tasks, s.active, s.slots[q]) ==> |caches[q]| <= Get(s.tasks, s.slots[q].owner.id).pool.reserved
  {
    if Occupies(s.tasks, s.active, s.slots[q]) {
      ReservationCovers(cfg, s, s.slots[q].owner.id);
    }
  }

  lemma FinishSamePool(cfg: Config, s: State, caches: Caches, capture: nat -> bool)
    ensures var r := Finishing(cfg, s, caches, capture); SamePool(s.tasks, RetireAll(r.tasks, r.completed, Completed))
  {
    FinishedFrame(cfg, s, caches, capture, ToSet(s.loop.turn));
  }

  lemma FinishShrinks(cfg: Config, s: State, caches: Caches, capture: nat -> bool, q: nat)
    requires |caches| == |s.slots| && q < |caches|
    ensures |Finishing(cfg, s, caches, capture).caches| == |caches|
    ensures |Finishing(cfg, s, caches, capture).caches[q]| <= |caches[q]|
  {
    var tasks := CaptureAll(s.tasks, s.loop.turn, caches, capture);
    assert Finishing(cfg, s, caches, capture).caches[q] == FinishCache(cfg, s, tasks, ToSet(s.loop.turn), caches, q);
    if s.slots[q].owner.Held? && s.slots[q].owner.id in tasks {
      FinishFrame(cfg, tasks[s.slots[q].owner.id], caches[q], s.loop.batch);
    }
  }

  lemma FinishLoad(cfg: Config, s: State, caches: Caches, capture: nat -> bool)
    requires AtFinish(cfg, s, caches) && PoolInv(cfg, s) && cfg.bounded
    ensures var r := Finishing(cfg, s, caches, capture);
            && |r.caches| == |s.slots| == |caches|
            && Load(RetireAll(r.tasks, r.completed, Completed), Without(s.active, r.completed), s.slots, r.caches) <=
               Load(s.tasks, s.active, s.slots, caches)
  {
    var r := Finishing(cfg, s, caches, capture);
    var tasks, active := RetireAll(r.tasks, r.completed, Completed), Without(s.active, r.completed);
    forall q | 0 <= q < |s.slots|
      ensures Weight(tasks, active, s.slots[q], r.caches[q]) <= Weight(s.tasks, s.active, s.slots[q], caches[q])
    {
      FinishWeight(cfg, s, caches, capture, q);
    }
    LoadMono(s.tasks, s.active, s.slots, caches, tasks, active, s.slots, r.caches);
  }

  lemma FinishRight(cfg: Config, s: State, tasks: Tasks, completed: set<nat>)
    requires ReservedRight(cfg, s.tasks, s.active) && AdmittedStarted(s.tasks, s.active, s.loop) && s.loop.phase == Finish
    requires tasks.Keys == s.tasks.Keys
    requires forall id :: id in s.tasks ==>
               && tasks[id].req == s.tasks[id].req && tasks[id].pool == s.tasks[id].pool
               && tasks[id].run.initialized == s.tasks[id].run.initialized
    ensures var tasks1, active := RetireAll(tasks, completed, Completed), Without(s.active, completed);
            && ReservedRight(cfg, tasks1, active)
            && AdmittedStarted(tasks1, active, s.loop.(phase := Top, turn := [], runnable := [], batch := []))
  {
  }

  lemma FinishPool(cfg: Config, s: State, caches: Caches, capture: nat -> bool)
    requires AtFinish(cfg, s, caches) && PoolInv(cfg, s) && cfg.bounded
    ensures PoolInv(cfg, AfterFinish(s, Finishing(cfg, s, caches, capture)))
  {
    var r := Finishing(cfg, s, caches, capture);
    FinishedFrame(cfg, s, caches, capture, ToSet(s.loop.turn));
    FinishRight(cfg, s, r.tasks, r.completed);
    FinishLoad(cfg, s, caches, capture);
  }
}
