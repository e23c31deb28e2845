/** The bounded pool: reserved positions plus the positions of idle sequences stay within the capacity, up to what leaks. */
module SchedulerPool {
  // Admission is shown safe in terms of the sums the scheduler computes; the other steps are shown safe
  // sequence by sequence.

  import opened Generation
  import opened BatchOrder
  import opened SlotTask
  import opened SlotTaskProofs
  import opened Scheduler
  import opened SchedulerInv
  import opened SchedulerSteps

  // ---- sums ----

  function Sum(xs: seq<int>): int {
    if xs == [] then 0 else Sum(xs[..|xs| - 1]) + xs[|xs| - 1]
  }

  lemma {:induction false} SumMono(a: seq<int>, b: seq<int>)
    requires |a| == |b| && forall i :: 0 <= i < |a| ==> a[i] <= b[i]
    ensures Sum(a) <= Sum(b)
  {
    if a == [] {
    } else {
      SumMono(a[..|a| - 1], b[..|b| - 1]);
    }
  }

  lemma {:induction false} SumAdd(a: seq<int>, b: seq<int>, c: seq<int>)
    requires |a| == |b| == |c| && forall i :: 0 <= i < |a| ==> c[i] == a[i] + b[i]
    ensures Sum(c) == Sum(a) + Sum(b)
  {
    if a == [] {
    } else {
      SumAdd(a[..|a| - 1], b[..|b| - 1], c[..|c| - 1]);
    }
  }

  lemma {:induction false} SumZero(a: seq<int>)
    requires forall i :: 0 <= i < |a| ==> a[i] == 0
    ensures Sum(a) == 0
  {
    if a == [] {
    } else {
      SumZero(a[..|a| - 1]);
    }
  }

  lemma {:induction false} SumUpdate(a: seq<int>, q: nat, x: int)
    requires q < |a|
    ensures Sum(a[q := x]) == Sum(a) - a[q] + x
  {
    var n := |a| - 1;
    if q < n {
      assert a[q := x][..n] == a[..n][q := x];
      SumUpdate(a[..n], q, x);
    } else {
      assert a[q := x][..n] == a[..n];
    }
  }

  // ---- the load of the pool ----

  predicate Occupies(tasks: Tasks, ids: seq<nat>, slot: Slot) {
    slot.owner.Held? && slot.owner.id in ids && Get(tasks, slot.owner.id).pool.admitted
  }

  /** What a sequence counts for: its task's reservation, or the positions it holds while idle. */
  function Weight(tasks: Tasks, ids: seq<nat>, slot: Slot, cache: seq<Token>): int {
    if Occupies(tasks, ids, slot) then Get(tasks, slot.owner.id).pool.reserved else |cache|
  }

  function Weights(tasks: Tasks, ids: seq<nat>, slots: seq<Slot>, caches: Caches): (w: seq<int>)
    requires |slots| == |caches|
    ensures |w| == |slots|
    ensures forall q :: 0 <= q < |slots| ==> w[q] == Weight(tasks, ids, slots[q], caches[q])
  {
    seq(|slots|, q requires 0 <= q < |slots| => Weight(tasks, ids, slots[q], caches[q]))
  }

  function Load(tasks: Tasks, ids: seq<nat>, slots: seq<Slot>, caches: Caches): int
    requires |slots| == |caches|
  {
    Sum(Weights(tasks, ids, slots, caches))
  }

  function Claim(tasks: Tasks, ids: seq<nat>, slot: Slot): int {
    if Occupies(tasks, ids, slot) then Get(tasks, slot.owner.id).pool.reserved else 0
  }

  function Claims(tasks: Tasks, ids: seq<nat>, slots: seq<Slot>): (w: seq<int>)
    ensures |w| == |slots|
    ensures forall q :: 0 <= q < |slots| ==> w[q] == Claim(tasks, ids, slots[q])
  {
    seq(|slots|, q requires 0 <= q < |slots| => Claim(tasks, ids, slots[q]))
  }

  ghost predicate HeldBy(tasks: Tasks, ids: seq<nat>, slots: seq<Slot>) {
    && Distinct(ids)
    && (forall id :: id in ids ==> Get(tasks, id).req.slot < |slots| && slots[Get(tasks, id).req.slot].owner == Held(id))
    && forall q :: 0 <= q < |slots| && slots[q].owner.Held? && slots[q].owner.id in ids ==>
         Get(tasks, slots[q].owner.id).req.slot == q
  }

  lemma WiredHeld(active: seq<nat>, tasks: Tasks, caches: Caches, slots: seq<Slot>)
    requires Wired(active, tasks, caches, slots)
    ensures HeldBy(tasks, active, slots)
  {
  }

  /** The scheduler's sum over the task list is the sum over the sequences the tasks hold. */
  lemma {:induction false} ReservedBySlot(tasks: Tasks, ids: seq<nat>, slots: seq<Slot>)
    requires HeldBy(tasks, ids, slots)
    ensures SumReserved(tasks, ids) == Sum(Claims(tasks, ids, slots))
  {
    if ids == [] {
      SumZero(Claims(tasks, ids, slots));
    } else {
      var n := |ids| - 1;
      var t := Get(tasks, ids[n]);
      assert ids[n] in ids;
      LastClaim(tasks, ids, slots);
      ReservedBySlot(tasks, ids[..n], slots);
      SumUpdate(Claims(tasks, ids[..n], slots), t.req.slot, if t.pool.admitted then t.pool.reserved else 0);
    }
  }

  lemma LastClaim(tasks: Tasks, ids: seq<nat>, slots: seq<Slot>)
    requires HeldBy(tasks, ids, slots) && ids != []
    ensures var n := |ids| - 1;
            var t := Get(tasks, ids[n]);
            && t.req.slot < |slots|
            && Claims(tasks, ids[..n], slots)[t.req.slot] == 0
            && Claims(tasks, ids, slots) ==
                 Claims(tasks, ids[..n], slots)[t.req.slot := if t.pool.admitted then t.pool.reserved else 0]
  {
    var n := |ids| - 1;
    assert ids[n] in ids && ids[n] !in ids[..n];
    assert ids == ids[..n] + [ids[n]];
  }

  /** Idle positions, one term per sequence. */
  function IdleTerms(caches: Caches, prot: set<nat>): (w: seq<int>)
    ensures |w| == |caches|
    ensures forall q :: 0 <= q < |caches| ==> w[q] == if q in prot then 0 else |caches[q]|
  {
    seq(|caches|, q requires 0 <= q < |caches| => if q in prot then 0 else |caches[q]|)
  }

  lemma {:induction false} IdleIsSum(caches: Caches, prot: set<nat>)
    ensures Idle(caches, prot) == Sum(IdleTerms(caches, prot))
  {
    if caches == [] {
    } else {
      var n := |caches| - 1;
      IdleIsSum(caches[..n], prot);
      assert IdleTerms(caches, prot)[..n] == IdleTerms(caches[..n], prot);
    }
  }

  lemma ProtectedAre(tasks: Tasks, ids: seq<nat>, slots: seq<Slot>, q: nat)
    requires HeldBy(tasks, ids, slots) && q < |slots|
    ensures q in Protected(tasks, ids) <==> Occupies(tasks, ids, slots[q])
  {
  }

  /** reserved + idle, as the scheduler computes it, is the load. */
  lemma LoadIsComputed(tasks: Tasks, ids: seq<nat>, slots: seq<Slot>, caches: Caches)
    requires HeldBy(tasks, ids, slots) && |slots| == |caches|
    ensures Load(tasks, ids, slots, caches) == SumReserved(tasks, ids) + Idle(caches, Protected(tasks, ids))
  {
    ReservedBySlot(tasks, ids, slots);
    IdleIsSum(caches, Protected(tasks, ids));
    forall q | 0 <= q < |slots| ensures q in Protected(tasks, ids) <==> Occupies(tasks, ids, slots[q]) {
      ProtectedAre(tasks, ids, slots, q);
    }
    SumAdd(Claims(tasks, ids, slots), IdleTerms(caches, Protected(tasks, ids)), Weights(tasks, ids, slots, caches));
  }

  lemma LoadMono(tasks: Tasks, ids: seq<nat>, slots: seq<Slot>, caches: Caches, tasks1: Tasks, ids1: seq<nat>, slots1: seq<Slot>, caches1: Caches)
    requires |slots| == |caches| == |slots1| == |caches1|
    requires forall q :: 0 <= q < |slots| ==> Weight(tasks1, ids1, slots1[q], caches1[q]) <= Weight(tasks, ids, slots[q], caches[q])
    ensures Load(tasks1, ids1, slots1, caches1) <= Load(tasks, ids, slots, caches)
  {
    SumMono(Weights(tasks1, ids1, slots1, caches1), Weights(tasks, ids, slots, caches));
  }

  ghost predicate SamePool(tasks: Tasks, tasks1: Tasks) {
    tasks1.Keys == tasks.Keys && forall id :: id in tasks ==> tasks1[id].pool == tasks[id].pool
  }

  /** Weight of a sequence once some tasks have left. */
  lemma WeightRemoved(tasks: Tasks, ids: seq<nat>, slot: Slot, tasks1: Tasks, gone: set<nat>, cache1: seq<Token>)
    requires SamePool(tasks, tasks1)
    ensures Weight(tasks1, Without(ids, gone), slot, cache1) ==
            if Occupies(tasks, ids, slot) && slot.owner.id !in gone then Get(tasks, slot.owner.id).pool.reserved else |cache1|
  {
  }

  // ---- the pool invariant ----

  ghost predicate ReservedRight(cfg: Config, tasks: Tasks, ids: seq<nat>) {
    forall id :: id in ids && id in tasks && tasks[id].pool.admitted ==> tasks[id].pool.reserved == Reservation(cfg, tasks[id].req)
  }

  /** Between turns and at decode time every admitted task is initialised; before that it is only
      uninitialised in the turn that admitted it. */
  ghost predicate AdmittedStarted(tasks: Tasks, ids: seq<nat>, loop: Loop) {
    forall id :: id in ids && id in tasks && tasks[id].pool.admitted && loop.phase != Dead ==>
      tasks[id].run.initialized || ((loop.phase == Prepare || loop.phase == Building) && id in loop.turn)
  }

  ghost predicate PoolInv(cfg: Config, s: State) {
    && |s.slots| == |s.caches|
    && ReservedRight(cfg, s.tasks, s.active)
    && AdmittedStarted(s.tasks, s.active, s.loop)
    && |Phys(s)| == |s.slots| && Load(s.tasks, s.active, s.slots, Phys(s)) <= cfg.capacity + s.leaked
  }

  // ---- admission ----

  lemma {:induction false} SumReservedFrame(tasks: Tasks, tasks1: Tasks, ids: seq<nat>)
    requires forall id :: id in ids ==> Get(tasks1, id).pool == Get(tasks, id).pool
    ensures SumReserved(tasks1, ids) == SumReserved(tasks, ids)
  {
    if ids == [] {
    } else {
      SumReservedFrame(tasks, tasks1, ids[..|ids| - 1]);
    }
  }

  lemma {:induction false} SumReservedPut(tasks: Tasks, ids: seq<nat>, k: nat, t: Task)
    requires k < |ids| && Distinct(ids) && !Get(tasks, ids[k]).pool.admitted && t.pool.admitted
    ensures SumReserved(tasks[ids[k] := t], ids) == SumReserved(tasks, ids) + t.pool.reserved
  {
    var n := |ids| - 1;
    if k < n {
      SumReservedPut(tasks, ids[..n], k, t);
    } else {
      assert ids[k] !in ids[..n];
      SumReservedFrame(tasks, tasks[ids[k] := t], ids[..n]);
    }
  }

  /** Admission so far keeps the computed total within a bound that is at least the capacity. */
  ghost predicate AdmitSafe(cfg: Config, bound: int, all: seq<nat>, slots: seq<Slot>, a: Admission) {
    && cfg.capacity <= bound
    && |slots| == |a.caches| && HeldBy(a.tasks, all, slots)
    && a.reserved == SumReserved(a.tasks, all)
    && a.reserved + Idle(a.caches, Protected(a.tasks, all)) <= bound
    && ReservedRight(cfg, a.tasks, all)
  }

  lemma IdleMono(caches: Caches, caches1: Caches, prot: set<nat>)
    requires |caches| == |caches1| && forall q :: 0 <= q < |caches| ==> |caches1[q]| <= |caches[q]|
    ensures Idle(caches1, prot) <= Idle(caches, prot)
  {
    IdleIsSum(caches, prot);
    IdleIsSum(caches1, prot);
    SumMono(IdleTerms(caches1, prot), IdleTerms(caches, prot));
  }

  lemma AdmitOneSafe(cfg: Config, bound: int, all: seq<nat>, slots: seq<Slot>, k: nat, a: Admission, e: Eviction)
    requires k < |all| && AdmitSafe(cfg, bound, all, slots, a)
    requires all[k] in a.tasks
    ensures var a1 := AdmitOne(cfg, all, a, all[k], e);
            AdmitSafe(cfg, if a1.tasks == a.tasks then bound else cfg.capacity, all, slots, a1)
  {
    var id := all[k];
    var t := Get(a.tasks, id);
    var required := Reservation(cfg, t.req);
    if !(a.halted || t.pool.admitted || Flagged(t)) && required <= cfg.capacity && CanAdmit(a.reserved, required, cfg.capacity) {
      var prot := Protected(a.tasks, all) + {t.req.slot};
      ReclaimEffect(a.caches, prot, 0, a.reserved, required, cfg.capacity, e);
      var r := Reclaim(a.caches, prot, 0, a.reserved, required, cfg.capacity, e);
      if r.ok {
        AdmittedSafe(cfg, bound, all, slots, k, a, r.caches);
      } else {
        IdleMono(a.caches, r.caches, Protected(a.tasks, all));
      }
    }
  }

  lemma AdmittedSafe(cfg: Config, bound: int, all: seq<nat>, slots: seq<Slot>, k: nat, a: Admission, caches: Caches)
    requires k < |all| && AdmitSafe(cfg, bound, all, slots, a) && |caches| == |a.caches|
    requires all[k] in a.tasks && !a.tasks[all[k]].pool.admitted
    requires var t := a.tasks[all[k]];
             a.reserved + Idle(caches, Protected(a.tasks, all) + {t.req.slot}) + Reservation(cfg, t.req) <= cfg.capacity
    ensures var t := a.tasks[all[k]];
            var required := Reservation(cfg, t.req);
            AdmitSafe(cfg, cfg.capacity, all, slots,
              Admission(a.tasks[all[k] := t.(pool := Pool(true, required))], caches, a.reserved + required, a.runnable + [all[k]], a.rejected, false))
  {
    var id := all[k];
    var t := a.tasks[id];
    var t1 := t.(pool := Pool(true, Reservation(cfg, t.req)));
    SumReservedPut(a.tasks, all, k, t1);
    ProtectedPut(a.tasks, all, id, t1);
    HeldPut(a.tasks, all, slots, id, t1);
  }

  lemma ProtectedPut(tasks: Tasks, ids: seq<nat>, id: nat, t: Task)
    requires id in ids && t.pool.admitted && t.req == Get(tasks, id).req
    ensures Protected(tasks[id := t], ids) == Protected(tasks, ids) + {t.req.slot}
  {
    var tasks1 := tasks[id := t];
    forall q | q in Protected(tasks, ids) + {t.req.slot} ensures q in Protected(tasks1, ids) {
      if q == t.req.slot {
        assert Get(tasks1, id).pool.admitted && Get(tasks1, id).req.slot == q;
      } else {
        var x :| x in ids && Get(tasks, x).pool.admitted && q == Get(tasks, x).req.slot;
        assert x != id;
        assert Get(tasks1, x).pool.admitted && Get(tasks1, x).req.slot == q;
      }
    }
  }

  lemma HeldPut(tasks: Tasks, ids: seq<nat>, slots: seq<Slot>, id: nat, t: Task)
    requires HeldBy(tasks, ids, slots) && id in ids && t.req == Get(tasks, id).req
    ensures HeldBy(tasks[id := t], ids, slots)
  {
  }

  /** Admission never takes the total above the bound it starts from, and brings it within the capacity as soon as it
      admits a task. */
  lemma {:induction false} AdmitKeepsSafe(
    cfg: Config, bound: int, all: seq<nat>, slots: seq<Slot>, k: nat, tasks: Tasks, caches: Caches, ev: nat -> Eviction)
    requires k <= |all| && Distinct(all) && (forall id :: id in all ==> id in tasks)
    requires AdmitSafe(cfg, bound, all, slots, Admit(cfg, all, 0, tasks, caches, ev))
    ensures var a := Admit(cfg, all, k, tasks, caches, ev);
            AdmitSafe(cfg, if a.tasks == tasks then bound else cfg.capacity, all, slots, a)
  {
    if k == 0 {
    } else {
      AdmitKeepsSafe(cfg, bound, all, slots, k - 1, tasks, caches, ev);
      AdmitKnows(cfg, all, k - 1, tasks, caches, ev, all[k - 1]);
      var a, a1 := Admit(cfg, all, k - 1, tasks, caches, ev), Admit(cfg, all, k, tasks, caches, ev);
      SafeNext(cfg, bound, all, slots, k - 1, a, ev(all[k - 1]), a1, tasks);
    }
  }

  lemma AdmitKnows(cfg: Config, all: seq<nat>, k: nat, tasks: Tasks, caches: Caches, ev: nat -> Eviction, id: nat)
    requires k <= |all| && Distinct(all) && (forall x :: x in all ==> x in tasks) && id in all
    ensures id in Admit(cfg, all, k, tasks, caches, ev).tasks
  {
    AdmitEffect(cfg, all, k, tasks, caches, ev);
  }

  lemma SafeNext(cfg: Config, bound: int, all: seq<nat>, slots: seq<Slot>, k: nat, a: Admission, e: Eviction, a1: Admission, tasks: Tasks)
    requires k < |all| && all[k] in a.tasks && a1 == AdmitOne(cfg, all, a, all[k], e) && cfg.capacity <= bound
    requires AdmitSafe(cfg, if a.tasks == tasks then bound else cfg.capacity, all, slots, a)
    ensures AdmitSafe(cfg, if a1.tasks == tasks then bound else cfg.capacity, all, slots, a1)
  {
    AdmitOneSafe(cfg, if a.tasks == tasks then bound else cfg.capacity, all, slots, k, a, e);
  }
}
