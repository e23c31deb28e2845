/** Building the batch and retiring flagged tasks preserves the invariant: the step that ends with
    a batch to decode. */
module SchedulerBuild {
  import opened Generation
  import opened BatchOrder
  import opened SlotTask
  import opened SlotTaskProofs
  import opened Scheduler
  import opened SchedulerInv
  import opened SchedulerSteps
  import opened SchedulerTurn

  ghost predicate AtBuilding(cfg: Config, s: State) {
    Inv(cfg, s) && s.loop.phase == Building
  }

  lemma PreFromInv(cfg: Config, s: State)
    requires AtBuilding(cfg, s)
    ensures BatchPre(cfg, s, s.caches)
  {
    forall id | id in s.loop.turn && id in s.tasks && Unblocked(cfg, s.tasks[id])
      ensures s.tasks[id].run.initialized && Ready(cfg, s.tasks[id], CacheOf(s.caches, s.tasks[id].req.slot))
    {
      assert TaskOk(cfg, Building, s.loop.batch, s.tasks[id], s.caches);
    }
  }

  /** The sequences of exactly the cancelled tasks are cleared. */
  ghost predicate ClearedFor(s: State, cancelled: set<nat>, caches: Caches) {
    && |caches| == |s.caches|
    && forall q :: 0 <= q < |s.slots| && q < |caches| ==>
         caches[q] == if s.slots[q].owner.Held? && s.slots[q].owner.id in cancelled then [] else s.caches[q]
  }

  lemma ClearedAre(cfg: Config, s: State, b: Batching)
    requires Wired(s.active, s.tasks, s.caches, s.slots)
    requires b.tasks.Keys == s.tasks.Keys && (forall id :: id in s.tasks ==> b.tasks[id].req == s.tasks[id].req)
    requires forall id :: id in b.cancelled ==> id in s.active
    ensures ClearedFor(s, b.cancelled, ClearSlots(s.caches, SlotsOf(b.tasks, b.cancelled)))
  {
    var qs := SlotsOf(b.tasks, b.cancelled);
    forall q | 0 <= q < |s.slots|
      ensures q in qs <==> s.slots[q].owner.Held? && s.slots[q].owner.id in b.cancelled
    {
      if s.slots[q].owner.Held? && s.slots[q].owner.id in b.cancelled {
        assert Get(b.tasks, s.slots[q].owner.id).req.slot == q;
      }
    }
  }

  lemma PreCleared(cfg: Config, s: State, cancelled: set<nat>, caches: Caches)
    requires BatchPre(cfg, s, s.caches) && ClearedFor(s, cancelled, caches)
    requires forall id :: id in cancelled ==> Flagged(Get(s.tasks, id))
    ensures BatchPre(cfg, s, caches)
  {
    forall id | id in s.loop.turn && id in s.tasks && Unblocked(cfg, s.tasks[id])
      ensures s.tasks[id].run.initialized && Ready(cfg, s.tasks[id], CacheOf(caches, s.tasks[id].req.slot))
    {
      assert s.slots[s.tasks[id].req.slot].owner == Held(id);
    }
  }

  lemma VisitedReq(cfg: Config, s: State, caches: Caches, b: Batching)
    requires BatchMid(cfg, s, caches, s.loop.turn, |s.loop.turn|, b)
    ensures forall id :: id in s.tasks ==>
              && SameCaller(s.tasks[id], b.tasks[id])
              && (!Unblocked(cfg, s.tasks[id]) ==> b.tasks[id] == s.tasks[id])
              && (b.tasks[id].run.initialized == s.tasks[id].run.initialized || (Unblocked(cfg, s.tasks[id]) && id in s.active))
  {
    forall id | id in s.tasks
      ensures SameCaller(s.tasks[id], b.tasks[id]) &&
              (!Unblocked(cfg, s.tasks[id]) ==> b.tasks[id] == s.tasks[id]) &&
              (b.tasks[id].run.initialized == s.tasks[id].run.initialized || (Unblocked(cfg, s.tasks[id]) && id in s.active))
    {
      if id in s.active {
        assert Visited(cfg, s.tasks, caches, b, DecodeRows(caches, b.batch).caches, id in s.loop.turn[..|s.loop.turn|], id);
      }
    }
  }

  /** Everything known about the batch once it is built from the cleared caches. */
  ghost predicate BatchDone(cfg: Config, s: State, b: Batching, caches: Caches) {
    && AtBuilding(cfg, s)
    && ClearedFor(s, b.cancelled, caches)
    && BatchMid(cfg, s, caches, s.loop.turn, |s.loop.turn|, b)
  }

  lemma BatchIsDone(cfg: Config, s: State)
    requires AtBuilding(cfg, s)
    ensures var b := BatchAll(cfg, s.loop.turn, |s.loop.turn|, s.tasks, s.loop.limit);
            BatchDone(cfg, s, b, ClearSlots(s.caches, SlotsOf(b.tasks, b.cancelled)))
  {
    var b := BatchAll(cfg, s.loop.turn, |s.loop.turn|, s.tasks, s.loop.limit);
    var caches := ClearSlots(s.caches, SlotsOf(b.tasks, b.cancelled));
    PreFromInv(cfg, s);
    BatchEffect(cfg, s, s.caches, |s.loop.turn|);
    VisitedReq(cfg, s, s.caches, b);
    assert s.loop.turn[..|s.loop.turn|] == s.loop.turn;
    ClearedAre(cfg, s, b);
    PreCleared(cfg, s, b.cancelled, caches);
    BatchEffect(cfg, s, caches, |s.loop.turn|);
  }

  /** A sequence whose task may not enter the batch is not touched by it. */
  lemma BlockedCache(cfg: Config, s: State, b: Batching, caches: Caches, q: nat)
    requires BatchDone(cfg, s, b, caches) && q < |s.slots|
    requires !(s.slots[q].owner.Held? && s.slots[q].owner.id in s.active && Unblocked(cfg, Get(s.tasks, s.slots[q].owner.id)))
    ensures |DecodeRows(caches, b.batch).caches| == |s.slots| == |caches| && DecodeRows(caches, b.batch).caches[q] == caches[q]
  {
    if s.slots[q].owner.Held? && s.slots[q].owner.id in s.active {
      var id := s.slots[q].owner.id;
      assert Visited(cfg, s.tasks, caches, b, DecodeRows(caches, b.batch).caches, id in s.loop.turn[..|s.loop.turn|], id);
    }
  }

  function RetireBoth(b: Batching): Tasks {
    RetireAll(RetireAll(b.tasks, b.cancelled, Cancelled), b.stopped, Stopped)
  }

  /** One surviving task after the batch is built. */
  lemma SurvivorBuilt(cfg: Config, s: State, b: Batching, caches: Caches, id: nat)
    requires BatchDone(cfg, s, b, caches) && id in s.active && id !in b.cancelled && id !in b.stopped
    ensures Built(cfg, b.tasks[id], CacheOf(DecodeRows(caches, b.batch).caches, b.tasks[id].req.slot), b.batch)
    ensures b.batch == [] ==> Ready(cfg, b.tasks[id], CacheOf(caches, b.tasks[id].req.slot))
  {
    var d := DecodeRows(caches, b.batch).caches;
    var t := s.tasks[id];
    assert Visited(cfg, s.tasks, caches, b, d, id in s.loop.turn[..|s.loop.turn|], id);
    assert TaskOk(cfg, Building, s.loop.batch, t, s.caches);
    assert s.slots[t.req.slot].owner == Held(id);
    assert caches[t.req.slot] == s.caches[t.req.slot];
    ReadyIsBuilt(cfg, t, CacheOf(caches, t.req.slot), b.batch);
  }

  lemma BuildAllOk(cfg: Config, s: State, b: Batching, caches: Caches)
    requires BatchDone(cfg, s, b, caches)
    ensures AllOk(cfg, if b.batch == [] then Top else Finish, b.batch, Without(s.active, b.cancelled + b.stopped), RetireBoth(b),
                  DecodeRows(caches, b.batch).caches)
  {
    var phase := if b.batch == [] then Top else Finish;
    var active, tasks, d := Without(s.active, b.cancelled + b.stopped), RetireBoth(b), DecodeRows(caches, b.batch).caches;
    forall id | id in active && id in tasks ensures TaskOk(cfg, phase, b.batch, tasks[id], d) {
      SurvivorBuilt(cfg, s, b, caches, id);
    }
  }

  /** A flagged task is retired with what it has said; a stopped one's cache agrees with it. */
  lemma FlaggedRetires(cfg: Config, s: State, id: nat, why: Outcome)
    requires AtBuilding(cfg, s) && id in s.active && !IsError(why) && why != Completed
    ensures var t := s.tasks[id];
            && Retired(cfg, Retire(t, why))
            && (t.run.initialized ==>
                  && Left(cfg, Retire(t, why), s.caches[t.req.slot])
                  && (t.flags.cancel ==> Left(cfg, Retire(t, why), [])))
  {
    var t := s.tasks[id];
    var cache := CacheOf(s.caches, t.req.slot);
    assert TaskOk(cfg, Building, s.loop.batch, t, s.caches);
    ReadySpeaks(cfg, t, cache);
    assert RetiredWith(cfg, Retire(t, why), t.run.accepted, why);
  }

  /** Tasks that are not active are not touched. */
  lemma OthersSame(cfg: Config, s: State, b: Batching, caches: Caches)
    requires BatchDone(cfg, s, b, caches)
    ensures RetireBoth(b).Keys == s.tasks.Keys
    ensures AllRetired(cfg, s.active, s.tasks)
    ensures forall id :: id in s.tasks && id !in s.active ==> RetireBoth(b)[id] == s.tasks[id]
  {
    VisitedReq(cfg, s, caches, b);
  }

  lemma BuildRetired(cfg: Config, s: State, b: Batching, caches: Caches)
    requires BatchDone(cfg, s, b, caches)
    ensures AllRetired(cfg, Without(s.active, b.cancelled + b.stopped), RetireBoth(b))
  {
    OthersSame(cfg, s, b, caches);
    forall id | id in b.cancelled + b.stopped && id in s.tasks ensures Retired(cfg, RetireBoth(b)[id]) {
      GoneRetired(cfg, s, b, caches, id);
    }
    RemoveRetired(cfg, s.active, s.tasks, b.cancelled + b.stopped, RetireBoth(b));
  }

  lemma GoneRetired(cfg: Config, s: State, b: Batching, caches: Caches, id: nat)
    requires BatchDone(cfg, s, b, caches) && id in b.cancelled + b.stopped && id in s.tasks
    ensures Retired(cfg, RetireBoth(b)[id])
  {
    assert s.loop.turn[..|s.loop.turn|] == s.loop.turn;
    assert Visited(cfg, s.tasks, caches, b, DecodeRows(caches, b.batch).caches, true, id);
    FlaggedRetires(cfg, s, id, if id in b.cancelled then Cancelled else Stopped);
  }

  lemma BuildSlot(cfg: Config, s: State, b: Batching, caches: Caches, q: nat)
    requires BatchDone(cfg, s, b, caches) && q < |s.slots| && q < |s.caches|
    ensures SlotOk(cfg, s.slots[q], DecodeRows(caches, b.batch).caches[q], RetireBoth(b), Without(s.active, b.cancelled + b.stopped))
  {
    var d := DecodeRows(caches, b.batch).caches;
    var slot := s.slots[q];
    assert SlotOk(cfg, slot, s.caches[q], s.tasks, s.active);
    match slot.owner
    case Unowned =>
    case Held(id) =>
      VisitedReq(cfg, s, caches, b);
      if id in s.active {
        assert Visited(cfg, s.tasks, caches, b, d, id in s.loop.turn[..|s.loop.turn|], id);
        BuildHeld(cfg, s, b, caches, q, id);
      } else {
        assert RetireBoth(b)[id] == s.tasks[id];
      }
  }

  lemma BuildHeld(cfg: Config, s: State, b: Batching, caches: Caches, q: nat, id: nat)
    requires BatchDone(cfg, s, b, caches) && q < |s.slots| && q < |s.caches|
    requires id in s.active && s.slots[q].owner == Held(id)
    requires b.tasks[id].last == s.tasks[id].last && b.tasks[id].ckpt == s.tasks[id].ckpt
    requires !Unblocked(cfg, s.tasks[id]) ==> b.tasks[id] == s.tasks[id]
    requires Visited(cfg, s.tasks, caches, b, DecodeRows(caches, b.batch).caches, id in s.loop.turn[..|s.loop.turn|], id)
    ensures SlotOk(cfg, s.slots[q], DecodeRows(caches, b.batch).caches[q], RetireBoth(b), Without(s.active, b.cancelled + b.stopped))
  {
    var d := DecodeRows(caches, b.batch).caches;
    assert SlotOk(cfg, s.slots[q], s.caches[q], s.tasks, s.active);
    assert s.loop.turn[..|s.loop.turn|] == s.loop.turn;
    if id in b.cancelled {
      FlaggedRetires(cfg, s, id, Cancelled);
      assert d[q] == [];
    } else if id in b.stopped {
      FlaggedRetires(cfg, s, id, Stopped);
      assert d[q] == s.caches[q];
    }
  }

  lemma BuildSlots(cfg: Config, s: State, b: Batching, caches: Caches)
    requires BatchDone(cfg, s, b, caches)
    ensures AllSlots(cfg, s.slots, DecodeRows(caches, b.batch).caches, RetireBoth(b), Without(s.active, b.cancelled + b.stopped))
  {
    forall q | 0 <= q < |s.slots| && q < |DecodeRows(caches, b.batch).caches|
      ensures SlotOk(cfg, s.slots[q], DecodeRows(caches, b.batch).caches[q], RetireBoth(b), Without(s.active, b.cancelled + b.stopped))
    {
      BuildSlot(cfg, s, b, caches, q);
    }
  }

  /** Retiring keeps everything but the sampler and the events. */
  lemma BothFrame(tasks: Tasks, b: Batching)
    requires b.tasks.Keys == tasks.Keys && forall id :: id in tasks ==> SameCaller(tasks[id], b.tasks[id])
    ensures RetireBoth(b).Keys == tasks.Keys
    ensures forall id :: id in tasks ==>
              && RetireBoth(b)[id].req == tasks[id].req && RetireBoth(b)[id].flags == tasks[id].flags
              && RetireBoth(b)[id].pool == tasks[id].pool && RetireBoth(b)[id].run == b.tasks[id].run
  {
  }

  lemma RetiredBothFrame(cfg: Config, s: State, b: Batching, caches: Caches)
    requires BatchDone(cfg, s, b, caches)
    ensures RetireBoth(b).Keys == s.tasks.Keys
    ensures forall id :: id in s.tasks ==>
              && RetireBoth(b)[id].req == s.tasks[id].req && RetireBoth(b)[id].flags == s.tasks[id].flags
              && RetireBoth(b)[id].pool == s.tasks[id].pool && RetireBoth(b)[id].run == b.tasks[id].run
    ensures forall id :: id in s.active && id in s.tasks ==> b.tasks[id].run.initialized == s.tasks[id].run.initialized
  {
    VisitedReq(cfg, s, caches, b);
    BothFrame(s.tasks, b);
    BuiltInitialized(cfg, s, b, caches);
  }

  lemma BuildLoop(cfg: Config, s: State, b: Batching, caches: Caches)
    requires BatchDone(cfg, s, b, caches)
    ensures var gone := b.cancelled + b.stopped;
            var loop := s.loop.(phase := if b.batch == [] then Top else Finish, turn := Without(s.loop.turn, gone),
                                runnable := [], batch := b.batch);
            && LoopOk(Without(s.active, gone), loop)
            && TurnOk(cfg, RetireBoth(b), Without(s.active, gone), loop)
            && Wired(Without(s.active, gone), RetireBoth(b), caches, s.slots)
  {
    var gone := b.cancelled + b.stopped;
    RetiredBothFrame(cfg, s, b, caches);
    RemoveWired(s.active, s.tasks, s.caches, s.slots, gone, RetireBoth(b), caches);
    ShrunkLoop(cfg, s, gone, RetireBoth(b), if b.batch == [] then Top else Finish, b.batch);
  }

  lemma ShrunkLoop(cfg: Config, s: State, gone: set<nat>, tasks: Tasks, phase: Phase, batch: seq<Row>)
    requires LoopOk(s.active, s.loop) && TurnOk(cfg, s.tasks, s.active, s.loop) && s.loop.phase != Top
    requires tasks.Keys == s.tasks.Keys && (phase == Top || phase == Finish)
    requires forall id :: id in s.active && id in s.tasks ==>
               tasks[id].run.initialized == s.tasks[id].run.initialized && tasks[id].pool == s.tasks[id].pool
    ensures var loop := s.loop.(phase := phase, turn := Without(s.loop.turn, gone), runnable := [], batch := batch);
            && LoopOk(Without(s.active, gone), loop)
            && TurnOk(cfg, tasks, Without(s.active, gone), loop)
  {
    WithoutDistinct(s.loop.turn, gone);
  }

  lemma BuiltInitialized(cfg: Config, s: State, b: Batching, caches: Caches)
    requires BatchDone(cfg, s, b, caches)
    ensures forall id :: id in s.active && id in s.tasks ==> b.tasks[id].run.initialized == s.tasks[id].run.initialized
  {
    forall id | id in s.active && id in s.tasks
      ensures b.tasks[id].run.initialized == s.tasks[id].run.initialized
    {
      assert Visited(cfg, s.tasks, caches, b, DecodeRows(caches, b.batch).caches, id in s.loop.turn[..|s.loop.turn|], id);
      assert s.loop.turn[..|s.loop.turn|] == s.loop.turn;
    }
  }

  /** The state after building, given the batch. */
  function AfterBuilding(s: State, b: Batching, caches: Caches): State {
    var gone := b.cancelled + b.stopped;
    s.(tasks := RetireBoth(b), caches := caches, active := Without(s.active, gone), leaked := s.leaked + Leaks(s, |s.slots|),
       loop := s.loop.(phase := if b.batch == [] then Top else Finish, turn := Without(s.loop.turn, gone),
                       runnable := [], batch := b.batch))
  }

  lemma BuiltOk(cfg: Config, s: State, b: Batching, caches: Caches)
    requires BatchDone(cfg, s, b, caches)
    ensures Inv(cfg, AfterBuilding(s, b, caches))
  {
    BuildAllOk(cfg, s, b, caches);
    BuildSlots(cfg, s, b, caches);
    BuildRetired(cfg, s, b, caches);
    BuildLoop(cfg, s, b, caches);
  }

  lemma BuildOk(cfg: Config, s: State)
    requires Inv(cfg, s) && s.loop.phase == Building
    ensures Inv(cfg, BuildTurn(cfg, s))
  {
    var b := BatchAll(cfg, s.loop.turn, |s.loop.turn|, s.tasks, s.loop.limit);
    BatchIsDone(cfg, s);
    BuiltOk(cfg, s, b, ClearSlots(s.caches, SlotsOf(b.tasks, b.cancelled)));
  }
}
