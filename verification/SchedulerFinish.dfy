/** Decoding, sampling, verification and completion
    preserve the invariant. */
module SchedulerFinish {
  import opened Generation
  import opened BatchOrder
  import opened SlotTask
  import opened SlotTaskProofs
  import opened Scheduler
  import opened SchedulerInv
  import opened SchedulerSteps

  ghost predicate AtFinish(cfg: Config, s: State, caches: Caches) {
    Inv(cfg, s) && s.loop.phase == Finish && DecodeRows(s.caches, s.loop.batch) == Kv(caches)
  }

  /** Sampling or verifying one task: the KV invariant holds again, or the whole answer is out. */
  lemma FinishOne(cfg: Config, t: Task, cache: seq<Token>, batch: seq<Row>) returns (g: seq<Token>)
    requires Built(cfg, t, cache, batch) && !t.place.capturing
    ensures var f := FinishTask(cfg, t, cache, batch);
            if f.completed then Answered(cfg, f.task, f.cache, g) else Ready(cfg, f.task, f.cache)
  {
    g := [];
    if t.place.iBatch >= 0 {
      g := SampleKeeps(cfg, t, cache, batch);
    } else if t.place.specRows != [] {
      g := VerifyKeeps(cfg, t, cache, batch);
    } else {
      IdleIsReady(cfg, t, cache, batch);
    }
  }

  /** Finishing keeps the parts of a task that belong to its caller and to the pool. */
  lemma FinishFrame(cfg: Config, t: Task, cache: seq<Token>, batch: seq<Row>)
    ensures var u := FinishTask(cfg, t, cache, batch).task;
            && u.req == t.req && u.last == t.last && u.ckpt == t.ckpt && u.flags == t.flags && u.pool == t.pool
            && u.run.initialized == t.run.initialized && u.outCkpt == t.outCkpt
            && |FinishTask(cfg, t, cache, batch).cache| <= |cache|
  {
  }

  lemma CapturedBuilt(cfg: Config, s: State, caches: Caches, capture: nat -> bool, id: nat)
    requires AtFinish(cfg, s, caches) && id in s.active
    ensures var t := CaptureAll(s.tasks, s.loop.turn, caches, capture)[id];
            && Built(cfg, t, CacheOf(caches, t.req.slot), s.loop.batch)
            && (id in s.loop.turn ==> !t.place.capturing)
            && (id !in s.loop.turn ==> t == s.tasks[id] && !t.run.initialized)
            && t.req == s.tasks[id].req && t.last == s.tasks[id].last && t.ckpt == s.tasks[id].ckpt
            && t.flags == s.tasks[id].flags && t.pool == s.tasks[id].pool && t.run == s.tasks[id].run
  {
    var t := s.tasks[id];
    assert TaskOk(cfg, Finish, s.loop.batch, t, caches);
    if id in s.loop.turn {
      CaptureKeeps(cfg, t, CacheOf(caches, t.req.slot), s.loop.batch, capture(id));
    }
  }

  /** After a fault, every active task still only has plain tokens behind it. */
  lemma FaultSpeaks(cfg: Config, s: State, caches: Caches, capture: nat -> bool, done: set<nat>, id: nat)
    requires AtFinish(cfg, s, caches) && id in s.active && (forall x :: x in done ==> x in s.loop.turn)
    ensures Speaking(cfg, FinishTasks(cfg, CaptureAll(s.tasks, s.loop.turn, caches, capture), done, caches, s.loop.batch)[id])
  {
    CapturedBuilt(cfg, s, caches, capture, id);
    var t := CaptureAll(s.tasks, s.loop.turn, caches, capture)[id];
    var cache := CacheOf(caches, t.req.slot);
    if id in done {
      var g := FinishOne(cfg, t, cache, s.loop.batch);
      var f := FinishTask(cfg, t, cache, s.loop.batch);
      if f.completed {
        assert Tokens(cfg, f.task.req, g);
      } else {
        ReadySpeaks(cfg, f.task, f.cache);
      }
    } else {
      BuiltSpeaks(cfg, t, cache, s.loop.batch);
    }
  }

  lemma FaultOk(cfg: Config, s: State, caches: Caches, capture: nat -> bool, done: set<nat>, left: Caches)
    requires AtFinish(cfg, s, caches) && (forall x :: x in done ==> x in s.loop.turn)
    requires |left| == |caches|
    ensures var tasks := FinishTasks(cfg, CaptureAll(s.tasks, s.loop.turn, caches, capture), done, caches, s.loop.batch);
            Inv(cfg, FailAll(s.(caches := left, tasks := tasks)))
  {
    var tasks := FinishTasks(cfg, CaptureAll(s.tasks, s.loop.turn, caches, capture), done, caches, s.loop.batch);
    var s1 := s.(caches := left, tasks := tasks);
    FinishedFrame(cfg, s, caches, capture, done);
    forall id | id in s1.active && id in s1.tasks ensures Speaking(cfg, s1.tasks[id]) {
      FaultSpeaks(cfg, s, caches, capture, done, id);
    }
    FinishedWired(cfg, s, left, tasks);
    FailAllOk(cfg, s1);
  }

  /** Tasks outside the turn are untouched, and every task keeps its identity and flags. */
  lemma FinishedFrame(cfg: Config, s: State, caches: Caches, capture: nat -> bool, done: set<nat>)
    requires forall x :: x in done ==> x in s.loop.turn
    ensures var tasks := FinishTasks(cfg, CaptureAll(s.tasks, s.loop.turn, caches, capture), done, caches, s.loop.batch);
            && tasks.Keys == s.tasks.Keys
            && forall id :: id in s.tasks ==>
                 && (id !in s.loop.turn ==> tasks[id] == s.tasks[id])
                 && tasks[id].req == s.tasks[id].req && tasks[id].last == s.tasks[id].last && tasks[id].ckpt == s.tasks[id].ckpt
                 && tasks[id].flags == s.tasks[id].flags && tasks[id].pool == s.tasks[id].pool
                 && tasks[id].run.initialized == s.tasks[id].run.initialized
  {
    var captured := CaptureAll(s.tasks, s.loop.turn, caches, capture);
    var tasks := FinishTasks(cfg, captured, done, caches, s.loop.batch);
    forall id | id in s.tasks
      ensures (id !in s.loop.turn ==> tasks[id] == s.tasks[id]) &&
              tasks[id].req == s.tasks[id].req && tasks[id].last == s.tasks[id].last && tasks[id].ckpt == s.tasks[id].ckpt &&
              tasks[id].flags == s.tasks[id].flags && tasks[id].pool == s.tasks[id].pool &&
              tasks[id].run.initialized == s.tasks[id].run.initialized
    {
      FinishFrame(cfg, captured[id], CacheOf(caches, captured[id].req.slot), s.loop.batch);
    }
  }

  lemma FinishedWired(cfg: Config, s: State, caches: Caches, tasks: Tasks)
    requires Inv(cfg, s) && |caches| == |s.caches|
    requires tasks.Keys == s.tasks.Keys
    requires forall id :: id in s.tasks ==> tasks[id].req == s.tasks[id].req && (id !in s.loop.turn ==> tasks[id] == s.tasks[id])
    ensures Wired(s.active, tasks, caches, s.slots)
    ensures AllRetired(cfg, s.active, tasks)
  {
    forall id | id in tasks && id !in s.active ensures Retired(cfg, tasks[id]) {
      assert id !in s.loop.turn;
    }
  }

  // ---- the good path ----

  /** Everything a completed sampling step leaves, task by task. */
  datatype Round = Round(tasks: Tasks, caches: Caches, completed: set<nat>)

  function Finishing(cfg: Config, s: State, caches: Caches, capture: nat -> bool): Round {
    var tasks := CaptureAll(s.tasks, s.loop.turn, caches, capture);
    Round(FinishTasks(cfg, tasks, ToSet(s.loop.turn), caches, s.loop.batch),
          FinishCaches(cfg, s, tasks, ToSet(s.loop.turn), caches),
          CompletedOf(cfg, tasks, s.loop.turn, caches, s.loop.batch))
  }

  /** A task of the turn: finished, with its sequence's cache where FinishCache puts it. */
  lemma TurnTask(cfg: Config, s: State, caches: Caches, capture: nat -> bool, id: nat) returns (g: seq<Token>)
    requires AtFinish(cfg, s, caches) && id in s.active
    ensures var r := Finishing(cfg, s, caches, capture);
            && id in r.tasks && r.tasks[id].req.slot < |r.caches|
            && if id in r.completed then Answered(cfg, r.tasks[id], r.caches[r.tasks[id].req.slot], g)
               else Ready(cfg, r.tasks[id], r.caches[r.tasks[id].req.slot])
  {
    CapturedBuilt(cfg, s, caches, capture, id);
    var tasks := CaptureAll(s.tasks, s.loop.turn, caches, capture);
    var t, q := tasks[id], s.tasks[id].req.slot;
    assert s.slots[q].owner == Held(id);
    var r := Finishing(cfg, s, caches, capture);
    assert r.caches[q] == FinishCache(cfg, s, tasks, ToSet(s.loop.turn), caches, q);
    FinishFrame(cfg, t, caches[q], s.loop.batch);
    g := [];
    if id in s.loop.turn {
      g := FinishOne(cfg, t, caches[q], s.loop.batch);
    } else {
      IdleIsReady(cfg, t, caches[q], s.loop.batch);
    }
  }

  lemma AnsweredRetires(cfg: Config, t: Task, cache: seq<Token>, g: seq<Token>)
    requires Answered(cfg, t, cache, g)
    ensures Retired(cfg, Retire(t, Completed)) && Left(cfg, Retire(t, Completed), cache)
    ensures RetiredWith(cfg, Retire(t, Completed), g, Completed)
  {
    assert RetiredWith(cfg, Retire(t, Completed), g, Completed);
  }

  lemma FinishAllOk(cfg: Config, s: State, caches: Caches, capture: nat -> bool)
    requires AtFinish(cfg, s, caches)
    ensures var r := Finishing(cfg, s, caches, capture);
            AllOk(cfg, Top, [], Without(s.active, r.completed), RetireAll(r.tasks, r.completed, Completed), r.caches)
  {
    var r := Finishing(cfg, s, caches, capture);
    var active, tasks := Without(s.active, r.completed), RetireAll(r.tasks, r.completed, Completed);
    forall id | id in active && id in tasks ensures TaskOk(cfg, Top, [], tasks[id], r.caches) {
      var g := TurnTask(cfg, s, caches, capture, id);
    }
  }

  lemma FinishRetired(cfg: Config, s: State, caches: Caches, capture: nat -> bool)
    requires AtFinish(cfg, s, caches)
    ensures var r := Finishing(cfg, s, caches, capture);
            AllRetired(cfg, Without(s.active, r.completed), RetireAll(r.tasks, r.completed, Completed))
  {
    var r := Finishing(cfg, s, caches, capture);
    var tasks := RetireAll(r.tasks, r.completed, Completed);
    FinishedFrame(cfg, s, caches, capture, ToSet(s.loop.turn));
    forall id | id in r.completed && id in s.tasks ensures Retired(cfg, tasks[id]) {
      var g := TurnTask(cfg, s, caches, capture, id);
      AnsweredRetires(cfg, r.tasks[id], r.caches[r.tasks[id].req.slot], g);
    }
    RemoveRetired(cfg, s.active, s.tasks, r.completed, tasks);
  }

  lemma FinishSlot(cfg: Config, s: State, caches: Caches, capture: nat -> bool, q: nat)
    requires AtFinish(cfg, s, caches) && q < |s.slots|
    ensures var r := Finishing(cfg, s, caches, capture);
            SlotOk(cfg, s.slots[q], r.caches[q], RetireAll(r.tasks, r.completed, Completed), Without(s.active, r.completed))
  {
    var r := Finishing(cfg, s, caches, capture);
    var tasks := CaptureAll(s.tasks, s.loop.turn, caches, capture);
    assert SlotOk(cfg, s.slots[q], caches[q], s.tasks, s.active);
    assert r.caches[q] == FinishCache(cfg, s, tasks, ToSet(s.loop.turn), caches, q);
    if s.slots[q].owner.Held? {
      var id := s.slots[q].owner.id;
      FinishedFrame(cfg, s, caches, capture, ToSet(s.loop.turn));
      if id in s.active {
        FinishHeld(cfg, s, caches, capture, q, id);
      }
    }
  }

  lemma FinishHeld(cfg: Config, s: State, caches: Caches, capture: nat -> bool, q: nat, id: nat)
    requires AtFinish(cfg, s, caches) && q < |s.slots| && s.slots[q].owner == Held(id) && id in s.active
    requires SlotOk(cfg, s.slots[q], caches[q], s.tasks, s.active)
    ensures var r := Finishing(cfg, s, caches, capture);
            SlotOk(cfg, s.slots[q], r.caches[q], RetireAll(r.tasks, r.completed, Completed), Without(s.active, r.completed))
  {
    var r := Finishing(cfg, s, caches, capture);
    var tasks := CaptureAll(s.tasks, s.loop.turn, caches, capture);
    var g := TurnTask(cfg, s, caches, capture, id);
    FinishedFrame(cfg, s, caches, capture, ToSet(s.loop.turn));
    if id in r.completed {
      AnsweredRetires(cfg, r.tasks[id], r.caches[q], g);
    } else if !s.tasks[id].run.initialized {
      UntouchedFinish(cfg, s, caches, capture, id);
    }
  }

  /** A task that has not been initialised takes no part in sampling. */
  lemma UntouchedFinish(cfg: Config, s: State, caches: Caches, capture: nat -> bool, id: nat)
    requires AtFinish(cfg, s, caches) && id in s.active && !s.tasks[id].run.initialized
    ensures Finishing(cfg, s, caches, capture).caches[s.tasks[id].req.slot] == caches[s.tasks[id].req.slot]
  {
    CapturedBuilt(cfg, s, caches, capture, id);
    var tasks := CaptureAll(s.tasks, s.loop.turn, caches, capture);
    var q := s.tasks[id].req.slot;
    assert Finishing(cfg, s, caches, capture).caches[q] == FinishCache(cfg, s, tasks, ToSet(s.loop.turn), caches, q);
    assert s.slots[q].owner == Held(id);
  }

  lemma FinishSlots(cfg: Config, s: State, caches: Caches, capture: nat -> bool)
    requires AtFinish(cfg, s, caches)
    ensures var r := Finishing(cfg, s, caches, capture);
            AllSlots(cfg, s.slots, r.caches, RetireAll(r.tasks, r.completed, Completed), Without(s.active, r.completed))
  {
    var r := Finishing(cfg, s, caches, capture);
    forall q | 0 <= q < |s.slots| && q < |r.caches|
      ensures SlotOk(cfg, s.slots[q], r.caches[q], RetireAll(r.tasks, r.completed, Completed), Without(s.active, r.completed))
    {
      FinishSlot(cfg, s, caches, capture, q);
    }
  }

  lemma FinishLoop(cfg: Config, s: State, caches: Caches, capture: nat -> bool)
    requires AtFinish(cfg, s, caches)
    ensures var r := Finishing(cfg, s, caches, capture);
            var active, tasks := Without(s.active, r.completed), RetireAll(r.tasks, r.completed, Completed);
            && Wired(active, tasks, r.caches, s.slots)
            && TurnOk(cfg, tasks, active, s.loop.(phase := Top, turn := [], runnable := [], batch := []))
  {
    var r := Finishing(cfg, s, caches, capture);
    FinishedFrame(cfg, s, caches, capture, ToSet(s.loop.turn));
    CompleteFrame(cfg, s, r.tasks, r.completed);
    RemoveWired(s.active, s.tasks, s.caches, s.slots, r.completed, RetireAll(r.tasks, r.completed, Completed), r.caches);
  }

  lemma CompleteFrame(cfg: Config, s: State, tasks: Tasks, completed: set<nat>)
    requires TurnOk(cfg, s.tasks, s.active, s.loop) && tasks.Keys == s.tasks.Keys
    requires forall id :: id in s.tasks ==>
               && tasks[id].req == s.tasks[id].req && tasks[id].pool == s.tasks[id].pool
               && tasks[id].run.initialized == s.tasks[id].run.initialized
    ensures var tasks1 := RetireAll(tasks, completed, Completed);
            && tasks1.Keys == s.tasks.Keys && (forall id :: id in s.tasks ==> tasks1[id].req == s.tasks[id].req)
            && TurnOk(cfg, tasks1, Without(s.active, completed), s.loop.(phase := Top, turn := [], runnable := [], batch := []))
  {
  }

  function AfterFinish(s: State, r: Round): State {
    s.(tasks := RetireAll(r.tasks, r.completed, Completed), caches := r.caches, active := Without(s.active, r.completed),
       loop := s.loop.(phase := Top, turn := [], runnable := [], batch := []))
  }

  lemma GoodFinishOk(cfg: Config, s: State, caches: Caches, capture: nat -> bool)
    requires AtFinish(cfg, s, caches)
    ensures Inv(cfg, AfterFinish(s, Finishing(cfg, s, caches, capture)))
  {
    FinishAllOk(cfg, s, caches, capture);
    FinishRetired(cfg, s, caches, capture);
    FinishSlots(cfg, s, caches, capture);
    FinishLoop(cfg, s, caches, capture);
    InvAtTop(cfg, AfterFinish(s, Finishing(cfg, s, caches, capture)));
  }

  lemma InvAtTop(cfg: Config, s: State)
    requires s.loop.phase == Top && s.loop.turn == [] && s.loop.runnable == [] && s.loop.batch == []
    requires Wired(s.active, s.tasks, s.caches, s.slots) && AllRetired(cfg, s.active, s.tasks)
    requires AllOk(cfg, Top, [], s.active, s.tasks, s.caches) && AllSlots(cfg, s.slots, s.caches, s.tasks, s.active)
    requires TurnOk(cfg, s.tasks, s.active, s.loop)
    ensures Inv(cfg, s)
  {
  }

  lemma FinishOk(cfg: Config, s: State, e: Env)
    requires Inv(cfg, s) && s.loop.phase == Finish
    ensures Inv(cfg, SchedulerStep(cfg, s, e))
  {
    var kv := DecodeRows(s.caches, s.loop.batch);
    if !e.decode {
      InvSpeaks(cfg, s);
      FailAllOk(cfg, s);
    } else {
      SamplingOk(cfg, s, kv.caches, e.capture, e.rollback);
    }
  }

  lemma SamplingOk(cfg: Config, s: State, caches: Caches, capture: nat -> bool, rollback: nat -> bool)
    requires AtFinish(cfg, s, caches)
    ensures Inv(cfg, Sampling(cfg, s, caches, capture, rollback))
  {
    var tasks := CaptureAll(s.tasks, s.loop.turn, caches, capture);
    var fault := FirstFault(tasks, s.loop.turn, rollback);
    if fault < |s.loop.turn| {
      var done := set id | id in s.loop.turn && (!Verifies(Get(tasks, id)) || id in s.loop.turn[..fault]);
      FaultOk(cfg, s, caches, capture, done, FinishCaches(cfg, s, tasks, done, caches));
    } else {
      GoodFinishOk(cfg, s, caches, capture);
      SamplingIs(cfg, s, caches, capture, rollback);
    }
  }

  lemma SamplingIs(cfg: Config, s: State, caches: Caches, capture: nat -> bool, rollback: nat -> bool)
    ensures FirstFault(CaptureAll(s.tasks, s.loop.turn, caches, capture), s.loop.turn, rollback) >= |s.loop.turn| ==>
              Sampling(cfg, s, caches, capture, rollback) == AfterFinish(s, Finishing(cfg, s, caches, capture))
  {
  }
}
