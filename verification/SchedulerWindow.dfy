/** The one hole in the pool accounting. */
module SchedulerWindow {
  // A stop request that reaches a task after it was admitted and before it was initialised in the same turn
  // retires the task without trimming its sequence: the reservation is returned, but the positions left by the
  // previous request stay.

  import opened Generation
  import opened BatchOrder
  import opened SlotTask
  import opened SlotTaskProofs
  import opened Scheduler
  import opened SchedulerInv
  import opened SchedulerTurn
  import opened SchedulerBuild
  import opened SchedulerPool
  import opened SchedulerPoolSteps

  /** The task that holds sequence q leaves in this turn: it is cancelled or stopped. */
  predicate Goes(s: State, q: nat)
    requires q < |s.slots|
  {
    s.slots[q].owner.Held? && s.slots[q].owner.id in s.loop.turn && Flagged(Get(s.tasks, s.slots[q].owner.id))
  }

  /** What it counted for: its reservation, or what its sequence holds if it was not admitted. */
  function Returned(s: State, q: nat): int
    requires q < |s.slots| == |s.caches|
  {
    if Goes(s, q) then Weight(s.tasks, s.active, s.slots[q], s.caches[q]) else 0
  }

  /** What it leaves behind: nothing if it is cancelled, all positions of its sequence if it is stopped. */
  function Stays(s: State, q: nat): int
    requires q < |s.slots| == |s.caches|
  {
    if Goes(s, q) && !Get(s.tasks, s.slots[q].owner.id).flags.cancel then |s.caches[q]| else 0
  }

  function AllReturned(s: State): (w: seq<int>)
    requires |s.slots| == |s.caches|
    ensures |w| == |s.slots| && forall q :: 0 <= q < |w| ==> w[q] == Returned(s, q)
  {
    seq(|s.slots|, q requires 0 <= q < |s.slots| => Returned(s, q))
  }

  function AllStays(s: State): (w: seq<int>)
    requires |s.slots| == |s.caches|
    ensures |w| == |s.slots| && forall q :: 0 <= q < |w| ==> w[q] == Stays(s, q)
  {
    seq(|s.slots|, q requires 0 <= q < |s.slots| => Stays(s, q))
  }

  lemma GoneAre(cfg: Config, s: State, b: Batching, caches: Caches, q: nat)
    requires BatchDone(cfg, s, b, caches) && q < |s.slots| && s.slots[q].owner.Held?
    ensures var id := s.slots[q].owner.id;
            && (id in b.cancelled + b.stopped <==> Goes(s, q))
            && (id in b.cancelled <==> Goes(s, q) && Get(s.tasks, id).flags.cancel)
  {
    assert s.loop.turn[..|s.loop.turn|] == s.loop.turn;
  }

  lemma ClearedSlot(cfg: Config, s: State, b: Batching, caches: Caches, q: nat)
    requires BatchDone(cfg, s, b, caches) && q < |s.slots| == |caches|
    ensures |s.caches| == |s.slots|
    ensures caches[q] == if Goes(s, q) && Get(s.tasks, s.slots[q].owner.id).flags.cancel then [] else s.caches[q]
  {
    if s.slots[q].owner.Held? {
      GoneAre(cfg, s, b, caches, q);
    }
  }

  /** Sequence by sequence: what goes is taken off, what stays is added. */
  lemma TurnWeight(cfg: Config, s: State, b: Batching, caches: Caches, q: nat)
    requires BatchDone(cfg, s, b, caches) && cfg.bounded && q < |s.slots| == |s.caches|
    ensures var d := DecodeRows(caches, b.batch).caches;
            && |d| == |s.slots|
            && Weight(RetireBoth(b), Without(s.active, b.cancelled + b.stopped), s.slots[q], d[q])
            == Weight(s.tasks, s.active, s.slots[q], s.caches[q]) - Returned(s, q) + Stays(s, q)
  {
    var d := DecodeRows(caches, b.batch).caches;
    RetiredSamePool(cfg, s, b, caches);
    WeightRemoved(s.tasks, s.active, s.slots[q], RetireBoth(b), b.cancelled + b.stopped, d[q]);
    ClearedSlot(cfg, s, b, caches, q);
    if s.slots[q].owner.Held? {
      GoneAre(cfg, s, b, caches, q);
    }
    if !(s.slots[q].owner.Held? && s.slots[q].owner.id in s.active && Unblocked(cfg, Get(s.tasks, s.slots[q].owner.id))) {
      BlockedCache(cfg, s, b, caches, q);
    }
  }

  lemma SumDiff(w: seq<int>, r: seq<int>, l: seq<int>, w1: seq<int>)
    requires |w| == |r| == |l| == |w1| && forall q :: 0 <= q < |w| ==> w1[q] == w[q] - r[q] + l[q]
    ensures Sum(w1) == Sum(w) - Sum(r) + Sum(l)
  {
    var a := seq(|w|, q requires 0 <= q < |w| => w[q] + l[q]);
    SumAdd(w, l, a);
    SumAdd(w1, r, a);
  }

  /** The load after any batch step of the bounded pool: the load before, less what the leaving tasks counted for,
      plus what the stopped ones leave in their sequences.  So the bound survives the step exactly if that sum is
      within the capacity. */
  lemma TurnLoad(cfg: Config, s: State)
    requires AtBuilding(cfg, s) && cfg.bounded
    ensures |s.slots| == |s.caches|
    ensures var s1 := BuildTurn(cfg, s);
            && |Phys(s1)| == |s1.slots|
            && Load(s1.tasks, s1.active, s1.slots, Phys(s1))
            == Load(s.tasks, s.active, s.slots, s.caches) - Sum(AllReturned(s)) + Sum(AllStays(s))
  {
    var b := BatchAll(cfg, s.loop.turn, |s.loop.turn|, s.tasks, s.loop.limit);
    var caches := ClearSlots(s.caches, SlotsOf(b.tasks, b.cancelled));
    BatchIsDone(cfg, s);
    DoneLoad(cfg, s, b, caches);
    PhysAfter(s, b, caches);
    assert BuildTurn(cfg, s) == AfterBuilding(s, b, caches);
  }

  lemma PhysAfter(s: State, b: Batching, caches: Caches)
    requires DecodeRows(caches, b.batch).Kv?
    ensures Phys(AfterBuilding(s, b, caches)) == DecodeRows(caches, b.batch).caches
  {
  }

  lemma DoneLoad(cfg: Config, s: State, b: Batching, caches: Caches)
    requires BatchDone(cfg, s, b, caches) && cfg.bounded
    ensures |DecodeRows(caches, b.batch).caches| == |s.slots| == |s.caches|
    ensures Load(RetireBoth(b), Without(s.active, b.cancelled + b.stopped), s.slots, DecodeRows(caches, b.batch).caches)
         == Load(s.tasks, s.active, s.slots, s.caches) - Sum(AllReturned(s)) + Sum(AllStays(s))
  {
    var d := DecodeRows(caches, b.batch).caches;
    var w := Weights(s.tasks, s.active, s.slots, s.caches);
    var w1 := Weights(RetireBoth(b), Without(s.active, b.cancelled + b.stopped), s.slots, d);
    forall q | 0 <= q < |s.slots| ensures w1[q] == w[q] - AllReturned(s)[q] + AllStays(s)[q] {
      TurnWeight(cfg, s, b, caches, q);
    }
    SumDiff(w, AllReturned(s), AllStays(s), w1);
  }

  /** Task by task: more stays than is returned exactly if the task is stopped in the window between admission and
      initialisation with more stale positions than it had reserved, and then by what it leaks. */
  lemma StaysMoreIff(cfg: Config, s: State, q: nat)
    requires AtBuilding(cfg, s) && PoolInv(cfg, s) && cfg.bounded && q < |s.slots| == |s.caches|
    ensures Stays(s, q) > Returned(s, q) <==> Goes(s, q) && Leaky(Get(s.tasks, s.slots[q].owner.id), s.caches[q])
    ensures LeakAt(s, q) == Max(0, Stays(s, q) - Returned(s, q))
  {
    if Goes(s, q) && Occupies(s.tasks, s.active, s.slots[q]) && s.tasks[s.slots[q].owner.id].run.initialized {
      ReservationCovers(cfg, s, s.slots[q].owner.id);
    }
  }
}
