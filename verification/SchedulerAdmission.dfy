/** Who is admitted, who waits and who is rejected. */
module SchedulerAdmission {
  import opened Generation
  import opened BatchOrder
  import opened SlotTask
  import opened SlotTaskProofs
  import opened Scheduler
  import opened SchedulerInv
  import opened SchedulerSteps
  import opened SchedulerPool
  import opened SchedulerPoolSteps
  import opened SchedulerRun

  // ---- reclaiming ----

  /** Evicting any of the n sequences works, and once all were looked at the draft context holds nothing idle. */
  ghost predicate Works(e: Eviction, n: nat) { (forall q: nat :: q < n ==> e.works(q)) && e.draftIdle(n) == 0 }

  /** The caches once the sequences below n were looked at. */
  function ClearedUpto(caches: Caches, prot: set<nat>, e: Eviction, n: nat): (r: Caches)
    ensures |r| == |caches|
    ensures forall q :: 0 <= q < |caches| ==> r[q] == if q < n && q !in prot && e.works(q) then [] else caches[q]
  {
    seq(|caches|, q requires 0 <= q < |caches| => if q < n && q !in prot && e.works(q) then [] else caches[q])
  }

  /** The candidate fits once the sequences below n were looked at. */
  predicate FitsAfter(caches: Caches, prot: set<nat>, n: nat, reserved: int, required: int, capacity: int, e: Eviction) {
    CanAdmit(reserved + Max(Idle(ClearedUpto(caches, prot, e, n), prot), e.draftIdle(n)), required, capacity)
  }

  lemma ClearedNext(caches: Caches, prot: set<nat>, e: Eviction, k: nat)
    requires k < |caches|
    ensures var c := ClearedUpto(caches, prot, e, k);
            && c[k] == caches[k]
            && (k in prot || caches[k] == [] || !e.works(k) ==> ClearedUpto(caches, prot, e, k + 1) == c)
            && (!(k in prot || caches[k] == [] || !e.works(k)) ==> ClearedUpto(caches, prot, e, k + 1) == c[k := []])
  {
    var c, d := ClearedUpto(caches, prot, e, k), ClearedUpto(caches, prot, e, k + 1);
    if k in prot || caches[k] == [] || !e.works(k) {
      assert d == c;
    } else {
      assert d == c[k := []];
    }
  }

  /** Reclaiming clears idle sequences in order, and stops as soon as the candidate fits: nothing is evicted in vain. */
  lemma {:induction false} ReclaimIsLeast(caches: Caches, prot: set<nat>, k: nat, reserved: int, required: int, capacity: int, e: Eviction)
    returns (n: nat)
    requires k <= |caches|
    ensures var r := Reclaim(ClearedUpto(caches, prot, e, k), prot, k, reserved, required, capacity, e);
            && k <= n <= |caches| && r.caches == ClearedUpto(caches, prot, e, n)
            && (r.ok <==> FitsAfter(caches, prot, n, reserved, required, capacity, e)) && (!r.ok ==> n == |caches|)
    ensures forall j | k <= j < n :: !FitsAfter(caches, prot, j, reserved, required, capacity, e)
    decreases |caches| - k
  {
    if FitsAfter(caches, prot, k, reserved, required, capacity, e) || k == |caches| {
      n := k;
    } else {
      ClearedNext(caches, prot, e, k);
      n := ReclaimIsLeast(caches, prot, k + 1, reserved, required, capacity, e);
    }
  }

  lemma AllClear(caches: Caches, prot: set<nat>, e: Eviction)
    requires Works(e, |caches|)
    ensures Idle(ClearedUpto(caches, prot, e, |caches|), prot) == 0
  {
    var c := ClearedUpto(caches, prot, e, |caches|);
    IdleIsSum(c, prot);
    SumZero(IdleTerms(c, prot));
  }

  /** With evictions that work, room beside the reservations is all that a candidate needs. */
  lemma ReclaimSucceeds(caches: Caches, prot: set<nat>, reserved: int, required: int, capacity: int, e: Eviction)
    requires Works(e, |caches|) && CanAdmit(reserved, required, capacity)
    ensures Reclaim(caches, prot, 0, reserved, required, capacity, e).ok
  {
    assert ClearedUpto(caches, prot, e, 0) == caches;
    var n := ReclaimIsLeast(caches, prot, 0, reserved, required, capacity, e);
    if n == |caches| {
      AllClear(caches, prot, e);
    }
  }

  // ---- one candidate ----

  predicate Waits(tasks: Tasks, id: nat) { !Get(tasks, id).pool.admitted && !Flagged(Get(tasks, id)) }

  function Needs(cfg: Config, tasks: Tasks, id: nat): int { Reservation(cfg, Get(tasks, id).req) }

  /** A waiter is rejected if the whole pool is too small for it; else it is admitted if there is room beside what is
      reserved; else it waits, and all behind it wait with it. */
  lemma OneDecided(cfg: Config, all: seq<nat>, a: Admission, id: nat, e: Eviction)
    requires !a.halted && Waits(a.tasks, id) && a.reserved >= 0 && cfg.capacity > 0 && Works(e, |a.caches|)
    ensures var a1, needs := AdmitOne(cfg, all, a, id, e), Needs(cfg, a.tasks, id);
            && (needs > cfg.capacity ==> a1 == a.(rejected := a.rejected + {id}))
            && (a.reserved + needs <= cfg.capacity && needs <= cfg.capacity ==>
                  Get(a1.tasks, id).pool.admitted && a1.rejected == a.rejected && !a1.halted && a1.reserved == a.reserved + needs)
            && (needs <= cfg.capacity < a.reserved + needs ==> a1 == a.(halted := true))
  {
    var needs := Needs(cfg, a.tasks, id);
    if needs <= cfg.capacity && CanAdmit(a.reserved, needs, cfg.capacity) {
      ReclaimSucceeds(a.caches, Protected(a.tasks, all) + {Get(a.tasks, id).req.slot}, a.reserved, needs, cfg.capacity, e);
    }
  }

  /** What a rejection tells: a waiter is too big for the pool, or an eviction for it failed. */
  ghost predicate InNeed(cfg: Config, tasks: Tasks, id: nat, e: Eviction, n: nat) {
    Waits(tasks, id) && (Needs(cfg, tasks, id) > cfg.capacity || !Works(e, n))
  }

  /** Only a waiter is rejected, and only if the pool is too small for it or an eviction failed. */
  lemma OneRejected(cfg: Config, all: seq<nat>, a: Admission, id: nat, e: Eviction)
    requires id !in a.rejected && id in AdmitOne(cfg, all, a, id, e).rejected
    ensures InNeed(cfg, a.tasks, id, e, |a.caches|)
  {
    var needs := Needs(cfg, a.tasks, id);
    if needs <= cfg.capacity && Works(e, |a.caches|) {
      ReclaimSucceeds(a.caches, Protected(a.tasks, all) + {Get(a.tasks, id).req.slot}, a.reserved, needs, cfg.capacity, e);
    }
  }

  // ---- all candidates ----

  ghost predicate Listed(all: seq<nat>, tasks: Tasks) { Distinct(all) && forall x :: x in all ==> x in tasks }

  ghost predicate AllInNeed(cfg: Config, tasks: Tasks, ev: nat -> Eviction, n: nat, rejected: set<nat>) {
    forall id :: id in rejected ==> InNeed(cfg, tasks, id, ev(id), n)
  }

  lemma {:induction false} RejectedWhy(cfg: Config, all: seq<nat>, k: nat, tasks: Tasks, caches: Caches, ev: nat -> Eviction)
    requires k <= |all| && Listed(all, tasks)
    ensures AllInNeed(cfg, tasks, ev, |caches|, Admit(cfg, all, k, tasks, caches, ev).rejected)
  {
    if k == 0 {
    } else {
      RejectedWhy(cfg, all, k - 1, tasks, caches, ev);
      RejectedNext(cfg, all, k - 1, tasks, caches, ev);
    }
  }

  lemma RejectedNext(cfg: Config, all: seq<nat>, k: nat, tasks: Tasks, caches: Caches, ev: nat -> Eviction)
    requires k < |all| && Listed(all, tasks)
    requires AllInNeed(cfg, tasks, ev, |caches|, Admit(cfg, all, k, tasks, caches, ev).rejected)
    ensures AllInNeed(cfg, tasks, ev, |caches|, Admit(cfg, all, k + 1, tasks, caches, ev).rejected)
  {
    SameAsBefore(cfg, all, k, tasks, caches, ev);
    RejectedNow(cfg, all, k, tasks, Admit(cfg, all, k, tasks, caches, ev), ev, Admit(cfg, all, k + 1, tasks, caches, ev));
  }

  lemma RejectedNow(cfg: Config, all: seq<nat>, k: nat, tasks: Tasks, a: Admission, ev: nat -> Eviction, a1: Admission)
    requires k < |all| && a1 == AdmitOne(cfg, all, a, all[k], ev(all[k])) && Get(a.tasks, all[k]) == Get(tasks, all[k])
    requires all[k] !in a.rejected && AllInNeed(cfg, tasks, ev, |a.caches|, a.rejected)
    ensures AllInNeed(cfg, tasks, ev, |a.caches|, a1.rejected)
  {
    if all[k] in a1.rejected {
      OneRejected(cfg, all, a, all[k], ev(all[k]));
    }
  }

  /** A candidate that was not looked at is as it was. */
  lemma SameAsBefore(cfg: Config, all: seq<nat>, k: nat, tasks: Tasks, caches: Caches, ev: nat -> Eviction)
    requires k < |all| && Listed(all, tasks)
    ensures var a := Admit(cfg, all, k, tasks, caches, ev);
            Get(a.tasks, all[k]) == Get(tasks, all[k]) && all[k] !in a.rejected && |a.caches| == |caches|
  {
    AdmitEffect(cfg, all, k, tasks, caches, ev);
    KthOf(all, k);
  }

  /** The waiter has been admitted or rejected. */
  predicate Decided(tasks: Tasks, a: Admission, id: nat) {
    Waits(tasks, id) ==> Get(a.tasks, id).pool.admitted || id in a.rejected
  }

  /** The waiter fits the pool, but not beside what is reserved. */
  predicate Stuck(cfg: Config, tasks: Tasks, a: Admission, id: nat) {
    && Waits(tasks, id) && !Get(a.tasks, id).pool.admitted && id !in a.rejected
    && Needs(cfg, tasks, id) <= cfg.capacity < a.reserved + Needs(cfg, tasks, id)
  }

  /** Admission decides one waiter after the other, until one is stuck. */
  ghost predicate Settled(cfg: Config, all: seq<nat>, k: nat, tasks: Tasks, a: Admission)
    requires k <= |all|
  {
    if a.halted then exists i :: 0 <= i < k && Stuck(cfg, tasks, a, all[i]) && forall j :: 0 <= j < i ==> Decided(tasks, a, all[j])
    else forall i :: 0 <= i < k ==> Decided(tasks, a, all[i])
  }

  /** Decisions stay. */
  lemma OneKeeps(cfg: Config, all: seq<nat>, a: Admission, id: nat, e: Eviction, tasks: Tasks, x: nat)
    requires Decided(tasks, a, x)
    ensures Decided(tasks, AdmitOne(cfg, all, a, id, e), x)
  {
  }

  lemma SettledNext(cfg: Config, all: seq<nat>, k: nat, tasks: Tasks, a: Admission, e: Eviction, a1: Admission)
    requires k < |all| && Settled(cfg, all, k, tasks, a) && a1 == AdmitOne(cfg, all, a, all[k], e)
    requires Get(a.tasks, all[k]) == Get(tasks, all[k]) && all[k] !in a.rejected
    requires a.reserved >= 0 && cfg.capacity > 0 && Works(e, |a.caches|)
    ensures Settled(cfg, all, k + 1, tasks, a1) && a1.reserved >= 0
  {
    if !a.halted {
      forall i | 0 <= i < k ensures Decided(tasks, a1, all[i]) {
        OneKeeps(cfg, all, a, all[k], e, tasks, all[i]);
      }
      if Waits(tasks, all[k]) {
        OneDecided(cfg, all, a, all[k], e);
        if a1.halted {
          assert Stuck(cfg, tasks, a1, all[k]);
        }
      }
    }
  }

  lemma {:induction false} AdmitSettles(cfg: Config, all: seq<nat>, k: nat, tasks: Tasks, caches: Caches, ev: nat -> Eviction)
    requires k <= |all| && Candidates(cfg, all, tasks, ev, |caches|)
    ensures SettledAfter(cfg, all, k, tasks, Admit(cfg, all, k, tasks, caches, ev))
  {
    if k == 0 {
      NothingSettled(cfg, all, tasks, caches, ev);
    } else {
      AdmitSettles(cfg, all, k - 1, tasks, caches, ev);
      SettlesOn(cfg, all, k - 1, tasks, caches, ev);
    }
  }

  lemma SettlesOn(cfg: Config, all: seq<nat>, k: nat, tasks: Tasks, caches: Caches, ev: nat -> Eviction)
    requires k < |all| && Candidates(cfg, all, tasks, ev, |caches|)
    requires SettledAfter(cfg, all, k, tasks, Admit(cfg, all, k, tasks, caches, ev))
    ensures SettledAfter(cfg, all, k + 1, tasks, Admit(cfg, all, k + 1, tasks, caches, ev))
  {
    WorksFor(all, ev, |caches|, k);
    SameAsBefore(cfg, all, k, tasks, caches, ev);
    SettledNext(cfg, all, k, tasks, Admit(cfg, all, k, tasks, caches, ev), ev(all[k]), Admit(cfg, all, k + 1, tasks, caches, ev));
  }

  /** The candidates of a turn, with evictions that all work. */
  ghost predicate Candidates(cfg: Config, all: seq<nat>, tasks: Tasks, ev: nat -> Eviction, n: nat) {
    && Listed(all, tasks) && AllWork(all, ev, n) && SumReserved(tasks, all) >= 0 && cfg.capacity > 0
  }

  ghost predicate SettledAfter(cfg: Config, all: seq<nat>, k: nat, tasks: Tasks, a: Admission) {
    k <= |all| && a.reserved >= 0 && Settled(cfg, all, k, tasks, a)
  }

  ghost predicate AllWork(ids: seq<nat>, ev: nat -> Eviction, n: nat) { forall id :: id in ids ==> Works(ev(id), n) }

  lemma WorksFor(all: seq<nat>, ev: nat -> Eviction, n: nat, k: nat)
    requires AllWork(all, ev, n) && k < |all|
    ensures Works(ev(all[k]), n)
  {
    assert all[k] in all;
  }

  lemma NothingSettled(cfg: Config, all: seq<nat>, tasks: Tasks, caches: Caches, ev: nat -> Eviction)
    requires SumReserved(tasks, all) >= 0
    ensures SettledAfter(cfg, all, 0, tasks, Admit(cfg, all, 0, tasks, caches, ev))
  {
  }

  /** At or before a waiter that is not decided there is one that is stuck. */
  lemma StuckBefore(cfg: Config, all: seq<nat>, tasks: Tasks, a: Admission, j: nat) returns (i: nat)
    requires j < |all| && Settled(cfg, all, |all|, tasks, a) && !Decided(tasks, a, all[j])
    ensures i <= j && Stuck(cfg, tasks, a, all[i])
  {
    i :| 0 <= i < |all| && Stuck(cfg, tasks, a, all[i]) && forall x :: 0 <= x < i ==> Decided(tasks, a, all[x]);
  }

  // ---- the top of a turn, in every run ----

  lemma {:induction false} ReservedIsNat(cfg: Config, tasks: Tasks, ids: seq<nat>)
    requires forall id :: id in ids && Get(tasks, id).pool.admitted ==> Get(tasks, id).pool.reserved >= 0
    ensures SumReserved(tasks, ids) >= 0
  {
    if ids == [] {
    } else {
      ReservedIsNat(cfg, tasks, ids[..|ids| - 1]);
      assert ids[|ids| - 1] in ids;
    }
  }

  lemma {:induction false} SumAppend(tasks: Tasks, a: seq<nat>, b: seq<nat>)
    ensures SumReserved(tasks, a + b) == SumReserved(tasks, a) + SumReserved(tasks, b)
  {
    if b == [] {
      assert a + b == a;
    } else {
      assert (a + b)[..|a + b| - 1] == a + b[..|b| - 1];
      SumAppend(tasks, a, b[..|b| - 1]);
    }
  }

  lemma SumOne(tasks: Tasks, id: nat)
    ensures SumReserved(tasks, [id]) == if Get(tasks, id).pool.admitted then Get(tasks, id).pool.reserved else 0
  {
    assert [id][..0] == [];
  }

  /** Tasks without a reservation may leave. */
  lemma {:induction false} SumWithout(tasks: Tasks, ids: seq<nat>, gone: set<nat>)
    requires forall id :: id in gone ==> !Get(tasks, id).pool.admitted
    ensures SumReserved(tasks, Without(ids, gone)) == SumReserved(tasks, ids)
  {
    if ids == [] {
    } else {
      assert ids == [ids[0]] + ids[1..];
      SumAppend(tasks, [ids[0]], ids[1..]);
      SumAppend(tasks, [ids[0]], Without(ids[1..], gone));
      SumOne(tasks, ids[0]);
      SumWithout(tasks, ids[1..], gone);
    }
  }

  /** What the scheduler starts admission from. */
  function Cleared(s: State): Tasks { ClearDrafts(s.tasks, s.active) }

  function Admitted(cfg: Config, s: State, ev: nat -> Eviction): Admission {
    Admit(cfg, s.active, |s.active|, Cleared(s), s.caches, ev)
  }

  lemma BeginIs(cfg: Config, s: State, ev: nat -> Eviction, id: nat)
    requires Inv(cfg, s) && s.loop.phase == Top && cfg.bounded && id in s.active
    ensures var s1, a := Begin(cfg, s, ev), Admitted(cfg, s, ev);
            && id in s.tasks && id in s1.tasks && (id in s1.active <==> id !in a.rejected)
            && s1.tasks[id].events == s.tasks[id].events + (if id in a.rejected then [Done(Rejected)] else [])
            && s1.tasks[id].req == s.tasks[id].req && s1.tasks[id].flags == s.tasks[id].flags
            && s1.tasks[id].pool == Get(a.tasks, id).pool
  {
    AdmitBegun(cfg, s, ev);
    AfterIs(s, Admitted(cfg, s, ev), id);
  }

  lemma AfterIs(s: State, a: Admission, id: nat)
    requires Begun(s, a.tasks, a.caches, a.rejected) && id in s.active && id in s.tasks
    ensures var s1 := AfterAdmission(s, a);
            && id in s1.tasks && (id in s1.active <==> id !in a.rejected)
            && s1.tasks[id].events == s.tasks[id].events + (if id in a.rejected then [Done(Rejected)] else [])
            && s1.tasks[id].req == s.tasks[id].req && s1.tasks[id].flags == s.tasks[id].flags
            && s1.tasks[id].pool == Get(a.tasks, id).pool
  {
  }

  lemma ClearedWaits(s: State, id: nat)
    ensures Waits(Cleared(s), id) == Waits(s.tasks, id) && Get(Cleared(s), id).req == Get(s.tasks, id).req
  {
  }

  /** Admission rejects only in need.  In every run, a task that a turn of the bounded pool rejects was waiting, and either
      it needs more than the whole pool, or an eviction for it failed or left something idle in the draft context; it is
      told so, once.  So a live task that fits the pool waits or is admitted if its evictions work. */
  lemma RejectedOnlyInNeed(cfg: Config, n: nat, acts: seq<Action>, ev: nat -> Eviction, id: nat)
    requires cfg.capacity >= 0 && cfg.bounded
    requires var s := Exec(cfg, n, acts); s.loop.phase == Top && id in s.active
    ensures var s := Exec(cfg, n, acts);
            var s1 := Begin(cfg, s, ev);
            && id in s.tasks && id in s1.tasks
            && (id !in s1.active ==> s1.tasks[id].events == s.tasks[id].events + [Done(Rejected)])
            && (id in s1.active ==> s1.tasks[id].events == s.tasks[id].events)
            && (id !in s1.active ==> Waits(s.tasks, id) && (Needs(cfg, s.tasks, id) > cfg.capacity || !Works(ev(id), |s.caches|)))
  {
    var s := Exec(cfg, n, acts);
    RunSound(cfg, n, acts);
    BeginIs(cfg, s, ev, id);
    if id in Admitted(cfg, s, ev).rejected {
      RejectedWhy(cfg, s.active, |s.active|, Cleared(s), s.caches, ev);
      ClearedWaits(s, id);
    }
  }

  /** Nobody waits in vain.  In every run, if evictions work, a live task that still waits after admission has at or before
      it a waiter that fits the pool but not beside what is reserved now. */
  lemma NobodyWaitsInVain(cfg: Config, n: nat, acts: seq<Action>, ev: nat -> Eviction, j: nat) returns (i: nat)
    requires cfg.capacity > 0 && cfg.bounded
    requires var s := Exec(cfg, n, acts);
             var s1 := Begin(cfg, s, ev);
             && s.loop.phase == Top && j < |s.active| && AllWork(s.active, ev, |s.caches|)
             && s.active[j] in s1.active && Waits(s1.tasks, s.active[j])
    ensures var s := Exec(cfg, n, acts);
            var s1 := Begin(cfg, s, ev);
            && i <= j && s.active[i] in s1.active && Waits(s1.tasks, s.active[i])
            && Needs(cfg, s1.tasks, s.active[i]) <= cfg.capacity
            && cfg.capacity < SumReserved(s1.tasks, s1.active) + Needs(cfg, s1.tasks, s.active[i])
  {
    RunSound(cfg, n, acts);
    i := FirstStuck(cfg, Exec(cfg, n, acts), ev, j);
  }

  lemma FirstStuck(cfg: Config, s: State, ev: nat -> Eviction, j: nat) returns (i: nat)
    requires Inv(cfg, s) && PoolInv(cfg, s) && cfg.capacity > 0 && cfg.bounded
    requires s.loop.phase == Top && j < |s.active| && AllWork(s.active, ev, |s.caches|)
    requires var s1 := Begin(cfg, s, ev); s.active[j] in s1.active && Waits(s1.tasks, s.active[j])
    ensures var s1 := Begin(cfg, s, ev);
            && i <= j && s.active[i] in s1.active && Waits(s1.tasks, s.active[i])
            && Needs(cfg, s1.tasks, s.active[i]) <= cfg.capacity
            && cfg.capacity < SumReserved(s1.tasks, s1.active) + Needs(cfg, s1.tasks, s.active[i])
  {
    var a := Admitted(cfg, s, ev);
    TopReserved(cfg, s);
    AdmitSettles(cfg, s.active, |s.active|, Cleared(s), s.caches, ev);
    NotDecided(cfg, s, ev, s.active[j]);
    i := StuckBefore(cfg, s.active, Cleared(s), a, j);
    StuckAfter(cfg, s, ev, s.active[i]);
  }

  lemma NotDecided(cfg: Config, s: State, ev: nat -> Eviction, id: nat)
    requires Inv(cfg, s) && s.loop.phase == Top && cfg.bounded && id in s.active
    requires id in Begin(cfg, s, ev).active && Waits(Begin(cfg, s, ev).tasks, id)
    ensures !Decided(Cleared(s), Admitted(cfg, s, ev), id)
  {
    BeginIs(cfg, s, ev, id);
    ClearedWaits(s, id);
    AdmittedBefore(cfg, s, ev, id);
  }

  /** A reservation is never taken away. */
  lemma AdmittedBefore(cfg: Config, s: State, ev: nat -> Eviction, id: nat)
    requires Inv(cfg, s) && id in s.active
    ensures Get(Cleared(s), id).pool.admitted ==> Get(Admitted(cfg, s, ev).tasks, id).pool.admitted
  {
    AdmitEffect(cfg, s.active, |s.active|, Cleared(s), s.caches, ev);
  }

  lemma StuckAfter(cfg: Config, s: State, ev: nat -> Eviction, id: nat)
    requires Inv(cfg, s) && PoolInv(cfg, s) && s.loop.phase == Top && cfg.bounded && id in s.active
    requires Stuck(cfg, Cleared(s), Admitted(cfg, s, ev), id)
    ensures var s1 := Begin(cfg, s, ev);
            && id in s1.active && Waits(s1.tasks, id) && Needs(cfg, s1.tasks, id) <= cfg.capacity
            && cfg.capacity < SumReserved(s1.tasks, s1.active) + Needs(cfg, s1.tasks, id)
  {
    AfterSum(cfg, s, ev);
    BeginIs(cfg, s, ev, id);
    ClearedWaits(s, id);
  }

  lemma TopReserved(cfg: Config, s: State)
    requires Inv(cfg, s) && PoolInv(cfg, s)
    ensures SumReserved(Cleared(s), s.active) >= 0 && Distinct(s.active) && forall x :: x in s.active ==> x in Cleared(s)
  {
    ClearedSums(s.tasks, s.active);
    ReservedIsNat(cfg, s.tasks, s.active);
  }

  /** The sum that admission keeps is that of the reservations it leaves. */
  lemma AfterSum(cfg: Config, s: State, ev: nat -> Eviction)
    requires Inv(cfg, s) && PoolInv(cfg, s) && s.loop.phase == Top && cfg.bounded
    ensures SumReserved(Begin(cfg, s, ev).tasks, Begin(cfg, s, ev).active) == Admitted(cfg, s, ev).reserved
  {
    var a := Admitted(cfg, s, ev);
    BeginSafe(cfg, s, ev);
    AdmitBegun(cfg, s, ev);
    SumWithout(a.tasks, s.active, a.rejected);
    SumReservedFrame(a.tasks, RetireAll(a.tasks, a.rejected, Rejected), Without(s.active, a.rejected));
  }
}
