/** The top of a turn preserves the invariant: clearing drafts, admission with eviction, and rejection
    of what cannot fit. */
module SchedulerSteps {
  import opened Generation
  import opened BatchOrder
  import opened SlotTask
  import opened SlotTaskProofs
  import opened Scheduler
  import opened SchedulerInv

  // ---- lists of identities ----

  lemma {:induction false} WithoutDistinct(ids: seq<nat>, gone: set<nat>)
    requires Distinct(ids)
    ensures Distinct(Without(ids, gone))
  {
    if ids == [] {
    } else {
      WithoutDistinct(ids[1..], gone);
      assert ids[0] !in ids[1..];
    }
  }

  lemma {:induction false} LiveOfDistinct(tasks: Tasks, ids: seq<nat>)
    requires Distinct(ids)
    ensures Distinct(LiveOf(tasks, ids))
  {
    if ids == [] {
    } else {
      LiveOfDistinct(tasks, ids[..|ids| - 1]);
    }
  }

  lemma {:induction false} AdmittedLiveDistinct(tasks: Tasks, ids: seq<nat>)
    requires Distinct(ids)
    ensures Distinct(AdmittedLive(tasks, ids))
  {
    if ids == [] {
    } else {
      AdmittedLiveDistinct(tasks, ids[..|ids| - 1]);
    }
  }

  lemma RemoveWired(active: seq<nat>, tasks: Tasks, caches: Caches, slots: seq<Slot>, gone: set<nat>, tasks1: Tasks, caches1: Caches)
    requires Wired(active, tasks, caches, slots)
    requires tasks1.Keys == tasks.Keys && (forall id :: id in tasks ==> tasks1[id].req == tasks[id].req)
    requires |caches1| == |caches|
    ensures Wired(Without(active, gone), tasks1, caches1, slots)
  {
    WithoutDistinct(active, gone);
  }

  lemma RemoveRetired(cfg: Config, active: seq<nat>, tasks: Tasks, gone: set<nat>, tasks1: Tasks)
    requires AllRetired(cfg, active, tasks) && tasks1.Keys == tasks.Keys
    requires forall id :: id in tasks && id !in active ==> tasks1[id] == tasks[id]
    requires forall id :: id in gone && id in tasks ==> Retired(cfg, tasks1[id])
    ensures AllRetired(cfg, Without(active, gone), tasks1)
  {
    forall id | id in tasks1 && id !in Without(active, gone) ensures Retired(cfg, tasks1[id]) {
      if id in active { assert id in gone; }
    }
  }

  // ---- admission ----

  lemma {:induction false} ReclaimEffect(caches: Caches, prot: set<nat>, k: nat, reserved: int, required: int, capacity: int, e: Eviction)
    requires k <= |caches|
    ensures var r := Reclaim(caches, prot, k, reserved, required, capacity, e);
            && |r.caches| == |caches|
            && (forall q :: 0 <= q < |caches| ==> r.caches[q] == caches[q] || (r.caches[q] == [] && q !in prot))
            && (r.ok ==> reserved + Idle(r.caches, prot) + required <= capacity)
    decreases |caches| - k
  {
    if CanAdmit(reserved + Max(Idle(caches, prot), e.draftIdle(k)), required, capacity) || k == |caches| {
    } else if k in prot || caches[k] == [] || !e.works(k) {
      ReclaimEffect(caches, prot, k + 1, reserved, required, capacity, e);
    } else {
      ReclaimEffect(caches[k := []], prot, k + 1, reserved, required, capacity, e);
    }
  }

  /** Admission changes nothing of a task but its reservation, and never takes one away. */
  ghost predicate PoolOnly(t: Task, t1: Task) {
    t1 == t.(pool := t1.pool) && (t.pool.admitted ==> t1 == t)
  }

  /** A cache survives, or was idle and has been cleared. */
  ghost predicate Evicted(caches: Caches, caches1: Caches, prot: set<nat>) {
    && |caches1| == |caches|
    && forall q :: 0 <= q < |caches| ==> caches1[q] == caches[q] || (caches1[q] == [] && q !in prot)
  }

  ghost predicate AdmitMid(all: seq<nat>, k: nat, tasks: Tasks, caches: Caches, a: Admission)
    requires k <= |all|
  {
    && a.tasks.Keys == tasks.Keys
    && (forall id :: id in tasks ==> PoolOnly(tasks[id], a.tasks[id]))
    && (forall id :: id in tasks && id !in all[..k] ==> a.tasks[id] == tasks[id])
    && Evicted(caches, a.caches, Protected(tasks, all))
    && (forall id :: id in a.rejected ==> id in all[..k] && id in tasks && a.tasks[id] == tasks[id] && !tasks[id].pool.admitted)
    && (forall id :: id in a.runnable <==> id in all && Get(a.tasks, id).pool.admitted && !Flagged(Get(a.tasks, id)))
    && Distinct(a.runnable)
  }

  lemma ProtectedGrows(tasks: Tasks, tasks1: Tasks, all: seq<nat>)
    requires tasks1.Keys == tasks.Keys && forall id :: id in tasks ==> PoolOnly(tasks[id], tasks1[id])
    ensures Protected(tasks, all) <= Protected(tasks1, all)
  {
    forall q | q in Protected(tasks, all) ensures q in Protected(tasks1, all) {
      var id :| id in all && Get(tasks, id).pool.admitted && q == Get(tasks, id).req.slot;
      assert Get(tasks1, id) == Get(tasks, id);
    }
  }

  lemma AdmitStep(cfg: Config, all: seq<nat>, k: nat, tasks: Tasks, caches: Caches, a: Admission, e: Eviction)
    requires k < |all| && Distinct(all) && (forall id :: id in all ==> id in tasks)
    requires AdmitMid(all, k, tasks, caches, a)
    ensures AdmitMid(all, k + 1, tasks, caches, AdmitOne(cfg, all, a, all[k], e))
  {
    var t := Get(a.tasks, all[k]);
    var required := Reservation(cfg, t.req);
    var a1 := AdmitOne(cfg, all, a, all[k], e);
    KthOf(all, k);
    if !(a.halted || t.pool.admitted || Flagged(t)) && required <= cfg.capacity && CanAdmit(a.reserved, required, cfg.capacity) {
      var r := Reclaim(a.caches, Protected(a.tasks, all) + {t.req.slot}, 0, a.reserved, required, cfg.capacity, e);
      ReclaimedAll(all, k, tasks, caches, a, {t.req.slot}, required, cfg.capacity, e);
      if r.ok {
        AdmitJoins(all, k, tasks, caches, a, r.caches, required);
      } else {
        AdmitStays(all, k, tasks, caches, a, a1);
      }
    } else {
      AdmitStays(all, k, tasks, caches, a, a1);
    }
  }

  lemma KthOf(all: seq<nat>, k: nat)
    requires k < |all| && Distinct(all)
    ensures all[k] in all && all[k] !in all[..k] && all[..k + 1] == all[..k] + [all[k]]
  {
  }

  /** Reclaiming for a candidate evicts no protected sequence of the tasks. */
  lemma ReclaimedAll(all: seq<nat>, k: nat, tasks: Tasks, caches: Caches, a: Admission, own: set<nat>, required: int, capacity: int, e: Eviction)
    requires k <= |all| && AdmitMid(all, k, tasks, caches, a)
    ensures Evicted(caches, Reclaim(a.caches, Protected(a.tasks, all) + own, 0, a.reserved, required, capacity, e).caches, Protected(tasks, all))
  {
    ReclaimEffect(a.caches, Protected(a.tasks, all) + own, 0, a.reserved, required, capacity, e);
    ProtectedGrows(tasks, a.tasks, all);
  }

  /** A candidate that is not admitted may be rejected, and nothing else changes but sequences that are evicted. */
  lemma AdmitStays(all: seq<nat>, k: nat, tasks: Tasks, caches: Caches, a: Admission, a1: Admission)
    requires k < |all| && all[..k + 1] == all[..k] + [all[k]] && all[k] !in all[..k] && all[k] in tasks
    requires AdmitMid(all, k, tasks, caches, a) && Evicted(caches, a1.caches, Protected(tasks, all))
    requires a1.tasks == a.tasks && a1.runnable == a.runnable
    requires a1.rejected == a.rejected || (a1.rejected == a.rejected + {all[k]} && !a.tasks[all[k]].pool.admitted)
    ensures AdmitMid(all, k + 1, tasks, caches, a1)
  {
  }

  lemma AdmitJoins(all: seq<nat>, k: nat, tasks: Tasks, caches: Caches, a: Admission, left: Caches, required: int)
    requires k < |all| && Distinct(all) && all[k] in tasks && all[k] !in all[..k] && all[..k + 1] == all[..k] + [all[k]]
    requires AdmitMid(all, k, tasks, caches, a) && Evicted(caches, left, Protected(tasks, all))
    requires var t := Get(a.tasks, all[k]); !t.pool.admitted && !Flagged(t)
    ensures var t := Get(a.tasks, all[k]);
            AdmitMid(all, k + 1, tasks, caches,
                     Admission(a.tasks[all[k] := t.(pool := Pool(true, required))], left, a.reserved + required,
                               a.runnable + [all[k]], a.rejected, false))
  {
    assert all[k] !in a.runnable;
  }

  lemma {:induction false} AdmitEffect(cfg: Config, all: seq<nat>, k: nat, tasks: Tasks, caches: Caches, ev: nat -> Eviction)
    requires k <= |all| && Distinct(all) && (forall id :: id in all ==> id in tasks)
    ensures AdmitMid(all, k, tasks, caches, Admit(cfg, all, k, tasks, caches, ev))
  {
    if k == 0 {
      AdmitFirst(cfg, all, tasks, caches, ev);
    } else {
      AdmitEffect(cfg, all, k - 1, tasks, caches, ev);
      AdmitNext(cfg, all, k - 1, tasks, caches, Admit(cfg, all, k - 1, tasks, caches, ev), ev(all[k - 1]), Admit(cfg, all, k, tasks, caches, ev));
    }
  }

  lemma AdmitFirst(cfg: Config, all: seq<nat>, tasks: Tasks, caches: Caches, ev: nat -> Eviction)
    requires Distinct(all) && (forall id :: id in all ==> id in tasks)
    ensures AdmitMid(all, 0, tasks, caches, Admit(cfg, all, 0, tasks, caches, ev))
  {
    AdmittedLiveDistinct(tasks, all);
  }

  lemma AdmitNext(cfg: Config, all: seq<nat>, k: nat, tasks: Tasks, caches: Caches, a: Admission, e: Eviction, a1: Admission)
    requires k < |all| && Distinct(all) && (forall id :: id in all ==> id in tasks)
    requires AdmitMid(all, k, tasks, caches, a) && a1 == AdmitOne(cfg, all, a, all[k], e)
    ensures AdmitMid(all, k + 1, tasks, caches, a1)
  {
    AdmitStep(cfg, all, k, tasks, caches, a, e);
  }

  lemma ClearedReady(cfg: Config, t: Task, cache: seq<Token>, pool: Pool)
    requires Ready(cfg, t, cache)
    ensures Ready(cfg, t.(place := t.place.(draft := [], specRows := []), pool := pool), cache)
  {
  }

  lemma EvictionKeepsReady(cfg: Config, t: Task, caches: Caches, caches1: Caches, prot: set<nat>)
    requires Ready(cfg, t, CacheOf(caches, t.req.slot)) && Evicted(caches, caches1, prot)
    requires t.run.initialized ==> t.req.slot in prot
    ensures Ready(cfg, t, CacheOf(caches1, t.req.slot))
  {
  }

  lemma EvictionKeepsSlot(cfg: Config, slot: Slot, cache: seq<Token>, tasks: Tasks, active: seq<nat>)
    requires SlotOk(cfg, slot, cache, tasks, active)
    ensures SlotOk(cfg, slot, [], tasks, active)
  {
    match slot.owner
    case Unowned =>
    case Held(id) =>
      if id in tasks && tasks[id].run.initialized && id !in active {
        var t := tasks[id];
        var g, why :| RetiredWith(cfg, t, g, why) && !IsError(why) && (t.flags.cancel || Agrees(cache, t.req.prompt + g));
        assert Agrees([], t.req.prompt + g);
      }
  }

  /** Tasks that differ in reservation, draft and done event only: what a slot needs is unchanged
      unless an initialised task left the active list. */
  lemma SlotFrame(cfg: Config, slot: Slot, cache: seq<Token>, tasks: Tasks, active: seq<nat>, tasks1: Tasks, active1: seq<nat>)
    requires SlotOk(cfg, slot, cache, tasks, active)
    requires tasks1.Keys == tasks.Keys
    requires slot.owner.Held? && slot.owner.id in tasks ==>
               var t, t1 := tasks[slot.owner.id], tasks1[slot.owner.id];
               && t1.last == t.last && t1.ckpt == t.ckpt && t1.run == t.run
               && (t.run.initialized && slot.owner.id !in active1 ==> slot.owner.id !in active && t1 == t)
    ensures SlotOk(cfg, slot, cache, tasks1, active1)
  {
  }

  /** The state after admission, before the rejected are removed. */
  ghost predicate Begun(s: State, tasks: Tasks, caches: Caches, rejected: set<nat>) {
    && tasks.Keys == s.tasks.Keys
    && (forall id :: id in s.tasks ==>
          tasks[id] == (if id in s.active
                        then s.tasks[id].(place := s.tasks[id].place.(draft := [], specRows := []), pool := tasks[id].pool)
                        else s.tasks[id]))
    && (forall id :: id in s.tasks && s.tasks[id].pool.admitted ==> tasks[id].pool == s.tasks[id].pool)
    && Evicted(s.caches, caches, Protected(s.tasks, s.active))
    && (forall id :: id in rejected ==> id in s.active && id in s.tasks && !s.tasks[id].pool.admitted)
  }

  lemma ProtectedSame(tasks: Tasks, tasks1: Tasks, ids: seq<nat>)
    requires forall id :: id in ids ==> Get(tasks1, id).pool == Get(tasks, id).pool && Get(tasks1, id).req == Get(tasks, id).req
    ensures Protected(tasks1, ids) == Protected(tasks, ids)
  {
  }

  lemma AdmitBegun(cfg: Config, s: State, ev: nat -> Eviction)
    requires Wired(s.active, s.tasks, s.caches, s.slots)
    ensures var a := Admit(cfg, s.active, |s.active|, ClearDrafts(s.tasks, s.active), s.caches, ev);
            && Begun(s, a.tasks, a.caches, a.rejected)
            && Distinct(a.runnable)
            && (forall id :: id in a.runnable <==> id in s.active && a.tasks[id].pool.admitted && !Flagged(s.tasks[id]))
            && (forall id :: id in a.rejected ==> !a.tasks[id].pool.admitted)
  {
    var tasks := ClearDrafts(s.tasks, s.active);
    AdmitEffect(cfg, s.active, |s.active|, tasks, s.caches, ev);
    ProtectedSame(s.tasks, tasks, s.active);
  }

  lemma BegunReady(cfg: Config, s: State, tasks: Tasks, caches: Caches, rejected: set<nat>, id: nat)
    requires Inv(cfg, s) && s.loop.phase == Top && cfg.bounded && Begun(s, tasks, caches, rejected)
    requires id in s.active && id in s.tasks
    ensures Ready(cfg, tasks[id], CacheOf(caches, tasks[id].req.slot))
  {
    var t := s.tasks[id];
    assert TaskOk(cfg, Top, s.loop.batch, t, s.caches);
    if t.run.initialized {
      assert t.req.slot in Protected(s.tasks, s.active) by { assert Get(s.tasks, id).pool.admitted; }
    }
    EvictionKeepsReady(cfg, t, s.caches, caches, Protected(s.tasks, s.active));
    ClearedReady(cfg, t, CacheOf(caches, t.req.slot), tasks[id].pool);
  }

  lemma BegunSlots(cfg: Config, s: State, tasks: Tasks, caches: Caches, rejected: set<nat>)
    requires Inv(cfg, s) && s.loop.phase == Top && cfg.bounded && Begun(s, tasks, caches, rejected)
    ensures AllSlots(cfg, s.slots, caches, RetireAll(tasks, rejected, Rejected), Without(s.active, rejected))
  {
    var tasks1, active1 := RetireAll(tasks, rejected, Rejected), Without(s.active, rejected);
    forall q | 0 <= q < |s.slots| && q < |caches| ensures SlotOk(cfg, s.slots[q], caches[q], tasks1, active1) {
      assert SlotOk(cfg, s.slots[q], s.caches[q], s.tasks, s.active);
      if caches[q] != s.caches[q] {
        EvictionKeepsSlot(cfg, s.slots[q], s.caches[q], s.tasks, s.active);
      }
      SlotFrame(cfg, s.slots[q], caches[q], s.tasks, s.active, tasks1, active1);
    }
  }

  lemma RejectRetired(cfg: Config, s: State, tasks: Tasks, caches: Caches, rejected: set<nat>)
    requires Inv(cfg, s) && s.loop.phase == Top && cfg.bounded && Begun(s, tasks, caches, rejected)
    ensures AllRetired(cfg, Without(s.active, rejected), RetireAll(tasks, rejected, Rejected))
  {
    var tasks1 := RetireAll(tasks, rejected, Rejected);
    forall id | id in rejected && id in s.tasks ensures Retired(cfg, tasks1[id]) {
      BegunReady(cfg, s, tasks, caches, rejected, id);
      TaskSpeaks(cfg, Top, [], tasks[id], caches);
      RetireSpeaking(cfg, tasks[id], Rejected);
    }
    RemoveRetired(cfg, s.active, s.tasks, rejected, tasks1);
  }

  /** The state in which preparation starts, given the outcome of admission. */
  function AfterAdmission(s: State, a: Admission): State {
    var left := Without(s.active, a.rejected);
    s.(active := left, leaked := StillLeaked(s.leaked, ClearDrafts(s.tasks, s.active), a),
       tasks := RetireAll(a.tasks, a.rejected, Rejected), caches := a.caches,
       loop := s.loop.(phase := Prepare, turn := left, runnable := a.runnable, batch := []))
  }

  lemma BegunOk(cfg: Config, s: State, a: Admission)
    requires Inv(cfg, s) && s.loop.phase == Top && cfg.bounded && Begun(s, a.tasks, a.caches, a.rejected)
    requires forall id :: id in a.runnable <==> id in s.active && a.tasks[id].pool.admitted && !Flagged(s.tasks[id])
    requires forall id :: id in a.rejected ==> !a.tasks[id].pool.admitted
    requires Distinct(a.runnable)
    ensures Inv(cfg, AfterAdmission(s, a))
  {
    BegunWired(cfg, s, a);
    RejectRetired(cfg, s, a.tasks, a.caches, a.rejected);
    BegunSlots(cfg, s, a.tasks, a.caches, a.rejected);
    BegunAllOk(cfg, s, a.tasks, a.caches, a.rejected);
    BeginTurnOk(cfg, s, a);
  }

  lemma BegunWired(cfg: Config, s: State, a: Admission)
    requires Inv(cfg, s) && Begun(s, a.tasks, a.caches, a.rejected)
    ensures Wired(Without(s.active, a.rejected), RetireAll(a.tasks, a.rejected, Rejected), a.caches, s.slots)
    ensures Distinct(Without(s.active, a.rejected))
  {
    RemoveWired(s.active, s.tasks, s.caches, s.slots, a.rejected, RetireAll(a.tasks, a.rejected, Rejected), a.caches);
  }

  lemma BeginBoundedOk(cfg: Config, s: State, ev: nat -> Eviction)
    requires Inv(cfg, s) && s.loop.phase == Top && cfg.bounded
    ensures Inv(cfg, Begin(cfg, s, ev))
  {
    AdmitBegun(cfg, s, ev);
    BegunOk(cfg, s, Admit(cfg, s.active, |s.active|, ClearDrafts(s.tasks, s.active), s.caches, ev));
  }

  lemma BegunAllOk(cfg: Config, s: State, tasks: Tasks, caches: Caches, rejected: set<nat>)
    requires Inv(cfg, s) && s.loop.phase == Top && cfg.bounded && Begun(s, tasks, caches, rejected)
    ensures AllOk(cfg, Prepare, [], Without(s.active, rejected), RetireAll(tasks, rejected, Rejected), caches)
  {
    var active1, tasks1 := Without(s.active, rejected), RetireAll(tasks, rejected, Rejected);
    forall id | id in active1 && id in tasks1 ensures TaskOk(cfg, Prepare, [], tasks1[id], caches) {
      BegunReady(cfg, s, tasks, caches, rejected, id);
    }
  }

  lemma BeginTurnOk(cfg: Config, s: State, a: Admission)
    requires Inv(cfg, s) && s.loop.phase == Top && cfg.bounded && Begun(s, a.tasks, a.caches, a.rejected)
    requires forall id :: id in a.runnable <==> id in s.active && a.tasks[id].pool.admitted && !Flagged(s.tasks[id])
    requires forall id :: id in a.rejected ==> !a.tasks[id].pool.admitted
    ensures var left := Without(s.active, a.rejected);
            TurnOk(cfg, RetireAll(a.tasks, a.rejected, Rejected), left,
                   s.loop.(phase := Prepare, turn := left, runnable := a.runnable, batch := []))
    ensures forall id :: id in a.runnable ==> id in Without(s.active, a.rejected)
  {
  }

  lemma PlainAllOk(cfg: Config, s: State)
    requires Inv(cfg, s) && s.loop.phase == Top
    ensures AllOk(cfg, Prepare, [], s.active, ClearDrafts(s.tasks, s.active), s.caches)
  {
    var tasks := ClearDrafts(s.tasks, s.active);
    forall id | id in s.active && id in tasks ensures TaskOk(cfg, Prepare, [], tasks[id], s.caches) {
      assert TaskOk(cfg, Top, s.loop.batch, s.tasks[id], s.caches);
      ClearedReady(cfg, s.tasks[id], CacheOf(s.caches, s.tasks[id].req.slot), s.tasks[id].pool);
    }
  }

  lemma PlainSlots(cfg: Config, s: State)
    requires Inv(cfg, s) && s.loop.phase == Top
    ensures AllSlots(cfg, s.slots, s.caches, ClearDrafts(s.tasks, s.active), s.active)
  {
    var tasks := ClearDrafts(s.tasks, s.active);
    forall q | 0 <= q < |s.slots| && q < |s.caches| ensures SlotOk(cfg, s.slots[q], s.caches[q], tasks, s.active) {
      assert SlotOk(cfg, s.slots[q], s.caches[q], s.tasks, s.active);
      SlotFrame(cfg, s.slots[q], s.caches[q], s.tasks, s.active, tasks, s.active);
    }
  }

  lemma PlainTurn(cfg: Config, s: State)
    requires Inv(cfg, s) && s.loop.phase == Top && !cfg.bounded
    ensures var tasks := ClearDrafts(s.tasks, s.active);
            && TurnOk(cfg, tasks, s.active,
                      s.loop.(phase := Prepare, turn := s.active, runnable := LiveOf(tasks, s.active), batch := []))
            && Distinct(LiveOf(tasks, s.active))
  {
    LiveOfDistinct(ClearDrafts(s.tasks, s.active), s.active);
  }

  lemma PlainWired(cfg: Config, s: State)
    requires Inv(cfg, s) && s.loop.phase == Top
    ensures var tasks := ClearDrafts(s.tasks, s.active);
            Wired(s.active, tasks, s.caches, s.slots) && AllRetired(cfg, s.active, tasks)
  {
  }

  lemma BeginPlainOk(cfg: Config, s: State, ev: nat -> Eviction)
    requires Inv(cfg, s) && s.loop.phase == Top && !cfg.bounded
    ensures Inv(cfg, Begin(cfg, s, ev))
  {
    PlainAllOk(cfg, s);
    PlainSlots(cfg, s);
    PlainTurn(cfg, s);
    PlainWired(cfg, s);
  }
}
