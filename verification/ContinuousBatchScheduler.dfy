/** The scheduler as the object it is: its fields change in place, loop by loop, and every call is a step of the
    state machine. */
module ContinuousBatchScheduler {
  import opened Generation
  import opened BatchOrder
  import opened SlotTask
  import opened SlotTaskProofs
  import opened Scheduler
  import opened SchedulerInv
  import opened SchedulerLoops
  import opened SchedulerAdmitLoop
  import opened SchedulerPrepareLoop
  import opened SchedulerBatchLoop
  import opened SchedulerFinishLoop
  import opened SchedulerFinish
  import opened SchedulerRun

  // ---- facts the loops need, from the invariant ----

  lemma ActiveKnown(cfg: Config, s: State)
    requires Inv(cfg, s)
    ensures Known(s.active, s.tasks)
  {
  }

  lemma InitCanRun(cfg: Config, s: State)
    requires Inv(cfg, s)
    ensures CanInit(s)
  {
  }

  lemma TurnKnown(cfg: Config, s: State)
    requires Inv(cfg, s)
    ensures Known(s.loop.turn, s.tasks) && Known(s.loop.runnable, s.tasks)
    ensures forall id :: id in s.loop.turn ==> s.tasks[id].req.slot < |s.caches|
  {
  }

  lemma BuiltIsPlaced(cfg: Config, t: Task, cache: seq<Token>, batch: seq<Row>)
    requires Built(cfg, t, cache, batch)
    ensures Placed(t, cache, batch)
  {
  }

  lemma CapturedKnown(cfg: Config, s: State, caches: Caches, capture: nat -> bool)
    requires AtFinish(cfg, s, caches)
    ensures Known(s.loop.turn, CaptureAll(s.tasks, s.loop.turn, caches, capture))
  {
    TurnKnown(cfg, s);
  }

  lemma FinishCanRun(cfg: Config, s: State, caches: Caches, capture: nat -> bool)
    requires AtFinish(cfg, s, caches)
    ensures CanFinish(s, CaptureAll(s.tasks, s.loop.turn, caches, capture), caches)
  {
    var tasks := CaptureAll(s.tasks, s.loop.turn, caches, capture);
    CapturedKnown(cfg, s, caches, capture);
    forall id | id in s.loop.turn
      ensures tasks[id].req.slot < |s.slots| && s.slots[tasks[id].req.slot].owner == Held(id)
      ensures Placed(tasks[id], caches[tasks[id].req.slot], s.loop.batch)
    {
      CapturedBuilt(cfg, s, caches, capture, id);
      BuiltIsPlaced(cfg, tasks[id], caches[tasks[id].req.slot], s.loop.batch);
    }
    forall q | 0 <= q < |s.slots| && s.slots[q].owner.Held? && s.slots[q].owner.id in s.loop.turn
      ensures tasks[s.slots[q].owner.id].req.slot == q
    {
      CapturedBuilt(cfg, s, caches, capture, s.slots[q].owner.id);
    }
  }

  class ContinuousBatchScheduler {
    const cfg: Config
    var active: seq<nat>
    var tasks: Tasks
    var caches: Caches
    var slots: seq<Slot>
    var terminal: bool
    var stopping: bool
    ghost var leaked: nat
    var loop: Loop

    ghost function Abs(): State
      reads this
    {
      State(active, tasks, caches, slots, terminal, stopping, leaked, loop)
    }

    ghost predicate Valid()
      reads this
    {
      Sound(cfg, Abs())
    }

    constructor (cfg: Config, n: nat)
      requires cfg.capacity >= 0
      ensures Valid() && this.cfg == cfg && Abs() == Start(n)
    {
      this.cfg := cfg;
      active, tasks, terminal, stopping, leaked := [], map[], false, false, 0;
      caches, slots := seq(n, _ => []), seq(n, _ => Slot([], [], Unowned));
      loop := Loop(Top, 0, [], [], 0, []);
      StartSound(cfg, n);
    }

    // ---- callers ----

    method Submit(id: nat, req: Request)
      requires Valid() && Enabled(cfg, Abs(), Submitted(id, req))
      modifies this
      ensures Valid() && Abs() == Next(cfg, old(Abs()), Submitted(id, req))
    {
      ActionKeeps(cfg, Abs(), Submitted(id, req));
      Enqueue(id, req);
    }

    method Enqueue(id: nat, req: Request)
      requires req.slot < |slots|
      modifies this
      ensures Abs() == Scheduler.Submit(old(Abs()), id, req)
    {
      var slot := slots[req.slot];
      var t := NewTask(req, slot.last, slot.ckpt);
      slots := slots[req.slot := slot.(owner := Held(id))];
      if terminal || stopping {
        t := t.(sampler := Free(t.sampler), events := t.events + [Done(Failed)]);
      } else {
        active := active + [id];
      }
      tasks := tasks[id := t];
    }

    method Cancel(id: nat)
      requires Valid() && id in tasks
      modifies this
      ensures Valid() && Abs() == Next(cfg, old(Abs()), CancelRaised(id))
    {
      ActionKeeps(cfg, Abs(), CancelRaised(id));
      Raise(id, tasks[id].flags.(cancel := true));
    }

    method StopTask(id: nat)
      requires Valid() && id in tasks
      modifies this
      ensures Valid() && Abs() == Next(cfg, old(Abs()), StopRaised(id))
    {
      ActionKeeps(cfg, Abs(), StopRaised(id));
      Raise(id, tasks[id].flags.(stop := true));
    }

    /** A caller's flag becomes visible to the thread. */
    method Raise(id: nat, flags: Flags)
      requires id in tasks
      modifies this
      ensures Abs() == old(Abs()).(tasks := old(tasks)[id := old(tasks)[id].(flags := flags)])
    {
      tasks := tasks[id := tasks[id].(flags := flags)];
    }

    method RequestStop()
      requires Valid()
      modifies this
      ensures Valid() && Abs() == Next(cfg, old(Abs()), ShutdownRaised)
    {
      ActionKeeps(cfg, Abs(), ShutdownRaised);
      stopping := true;
    }

    // ---- the thread ----

    method FailAll()
      requires Known(active, tasks)
      modifies this
      ensures Abs() == Scheduler.FailAll(old(Abs()))
    {
      terminal := true;
      var list := active;
      active := [];
      tasks := RetireList(tasks, list, Failed);
      loop := loop.(phase := Dead, turn := [], runnable := [], batch := []);
    }

    /** Snapshot of the active list, admission, rejection. */
    method BeginTurn(evictions: nat -> Eviction)
      requires Known(active, tasks)
      modifies this
      ensures Abs() == Begin(cfg, old(Abs()), evictions)
    {
      var all := active;
      var cleared, runnable := OpenTurn(tasks, all);
      if !cfg.bounded {
        tasks := cleared;
        loop := loop.(phase := Prepare, turn := all, runnable := runnable, batch := []);
        return;
      }
      assert Known(all, cleared);
      var a, rejected := AdmitTasks(cfg, all, cleared, caches, evictions);
      AdmitKeys(cfg, all, |all|, cleared, caches, evictions);
      leaked := StillLeaked(leaked, cleared, a);
      active := EraseAll(active, rejected);
      var turn := EraseAll(all, rejected);
      tasks := RetireList(a.tasks, rejected, Rejected);
      caches := a.caches;
      loop := loop.(phase := Prepare, turn := turn, runnable := a.runnable, batch := []);
    }

    /** Initialise, draft, order. */
    method PrepareTurn(init: nat -> InitEnv, mtp: nat -> bool, drafts: nat -> seq<Token>)
      requires CanInit(Abs()) && Known(loop.runnable, tasks)
      modifies this
      ensures Abs() == Scheduler.PrepareTurn(cfg, old(Abs()), init, mtp, drafts)
    {
      var p := PrepareAll(cfg, Abs(), tasks, caches, loop.runnable, loop.turn, loop.turnNo, init, mtp, drafts);
      tasks, caches := p.tasks, p.caches;
      loop := loop.(phase := Building, turnNo := loop.turnNo + 1, runnable := p.runnable, limit := p.limit, turn := p.turn);
    }

    /** Build the batch; retire the cancelled and the stopped. */
    method BuildTurn()
      requires Known(loop.turn, tasks) && forall id :: id in loop.turn ==> tasks[id].req.slot < |caches|
      modifies this
      ensures Abs() == Scheduler.BuildTurn(cfg, old(Abs()))
    {
      ghost var s := Abs();
      leaked := leaked + Leaks(s, |slots|);
      var tasks1, batch, cancelled, stopped := BuildBatch(cfg, loop.turn, tasks, loop.limit);
      ListsKnown(cfg, loop.turn, tasks, loop.limit, caches, cancelled, stopped);
      BuiltIs(cfg, s, cancelled, stopped);
      caches := ClearCaches(caches, tasks1, cancelled);
      active := EraseBoth(active, cancelled, stopped);
      var turn := EraseBoth(loop.turn, cancelled, stopped);
      var tasks2 := RetireList(tasks1, cancelled, Cancelled);
      tasks := RetireList(tasks2, stopped, Stopped);
      loop := loop.(phase := if batch == [] then Top else Finish, turn := turn, runnable := [], batch := batch);
    }

    /** After the decode: capture, sample, verify, complete. */
    method FinishTurn(decoded: Caches, capture: nat -> bool, rollback: nat -> bool)
      requires Inv(cfg, Abs()) && AtFinish(cfg, Abs(), decoded)
      modifies this
      ensures Abs() == Sampling(cfg, old(Abs()), decoded, capture, rollback)
    {
      TurnKnown(cfg, Abs());
      ActiveKnown(cfg, Abs());
      FinishCanRun(cfg, Abs(), decoded, capture);
      CompleteTurn(decoded, capture, rollback);
    }

    method CompleteTurn(decoded: Caches, capture: nat -> bool, rollback: nat -> bool)
      requires Known(loop.turn, tasks) && Known(active, tasks)
      requires CanFinish(Abs(), CaptureAll(tasks, loop.turn, decoded, capture), decoded)
      modifies this
      ensures Abs() == Sampling(cfg, old(Abs()), decoded, capture, rollback)
    {
      ghost var s := Abs();
      var r := FinishLoops(cfg, s, loop.turn, loop.batch, tasks, decoded, capture, rollback);
      tasks, caches := r.tasks, r.caches;
      if !r.ok {
        FaultIs(cfg, s, decoded, capture, rollback, r);
        FailAll();
        return;
      }
      CompletedKnown(cfg, s, decoded, capture, r);
      CompletedIs(cfg, s, decoded, capture, rollback, r);
      active := EraseAll(active, r.completed);
      tasks := RetireList(tasks, r.completed, Completed);
      loop := loop.(phase := Top, turn := [], runnable := [], batch := []);
    }

    /** One step of the thread. */
    method Step(e: Env)
      requires Valid() && EnvOk(cfg, Abs(), e)
      modifies this
      ensures Valid() && Abs() == Next(cfg, old(Abs()), Stepped(e))
    {
      ghost var s := Abs();
      ActionKeeps(cfg, s, Stepped(e));
      ActiveKnown(cfg, s);
      InitCanRun(cfg, s);
      TurnKnown(cfg, s);
      match loop.phase
      case Top =>
        if stopping {
          FailAll();
        } else if active != [] {
          BeginTurn(e.evictions);
        }
      case Prepare =>
        PrepareTurn(e.init, e.mtp, e.drafts);
        if !e.drafting {
          PreparedKnown(cfg, s, e);
          FailAll();
        }
      case Building => BuildTurn();
      case Finish =>
        var kv := DecodeRows(caches, loop.batch);
        if !e.decode || kv.Clash? {
          FailAll();
        } else {
          FinishTurn(kv.caches, e.capture, e.rollback);
        }
      case Dead =>
    }
  }

  // ---- small facts about the methods' intermediate states ----

  lemma {:induction false} BatchSlots(cfg: Config, turn: seq<nat>, k: nat, tasks: Tasks, limit: nat)
    requires k <= |turn| && forall id :: id in turn ==> id in tasks
    ensures var b := BatchAll(cfg, turn, k, tasks, limit);
            b.tasks.Keys == tasks.Keys && forall id :: id in tasks ==> b.tasks[id].req == tasks[id].req
  {
    BatchKeys(cfg, turn, k, tasks, limit);
    if k == 0 {
    } else {
      BatchSlots(cfg, turn, k - 1, tasks, limit);
      assert turn[k - 1] in turn;
    }
  }

  lemma ListsKnown(cfg: Config, turn: seq<nat>, tasks: Tasks, limit: nat, caches: Caches, cancelled: seq<nat>, stopped: seq<nat>)
    requires Known(turn, tasks) && (forall id :: id in turn ==> tasks[id].req.slot < |caches|)
    requires Lists(BatchAll(cfg, turn, |turn|, tasks, limit), cancelled, stopped, turn)
    ensures var b := BatchAll(cfg, turn, |turn|, tasks, limit);
            && Known(cancelled, b.tasks) && (forall id :: id in cancelled ==> b.tasks[id].req.slot < |caches|)
            && Known(stopped, RetireAll(b.tasks, ToSet(cancelled), Cancelled))
  {
    BatchKeys(cfg, turn, |turn|, tasks, limit);
    BatchSlots(cfg, turn, |turn|, tasks, limit);
  }

  /** What the machine makes of a turn whose cancelled and stopped tasks are listed. */
  lemma BuiltIs(cfg: Config, s: State, cancelled: seq<nat>, stopped: seq<nat>)
    requires Lists(BatchAll(cfg, s.loop.turn, |s.loop.turn|, s.tasks, s.loop.limit), cancelled, stopped, s.loop.turn)
    ensures var b := BatchAll(cfg, s.loop.turn, |s.loop.turn|, s.tasks, s.loop.limit);
            var gone := ToSet(cancelled) + ToSet(stopped);
            Scheduler.BuildTurn(cfg, s) ==
            s.(tasks := RetireAll(RetireAll(b.tasks, ToSet(cancelled), Cancelled), ToSet(stopped), Stopped),
               caches := ClearSlots(s.caches, SlotsOf(b.tasks, ToSet(cancelled))),
               active := Without(s.active, gone), leaked := s.leaked + Leaks(s, |s.slots|),
               loop := s.loop.(phase := if b.batch == [] then Top else Finish, turn := Without(s.loop.turn, gone),
                               runnable := [], batch := b.batch))
  {
  }

  method EraseBoth(ids: seq<nat>, a: seq<nat>, b: seq<nat>) returns (r: seq<nat>)
    ensures r == Without(ids, ToSet(a) + ToSet(b))
  {
    r := EraseAll(ids, a);
    WithoutTwice(ids, ToSet(a), ToSet(b));
    r := EraseAll(r, b);
  }

  /** What the machine makes of a turn in which a rollback fails. */
  lemma FaultIs(cfg: Config, s: State, caches: Caches, capture: nat -> bool, rollback: nat -> bool, r: Loops)
    requires var captured := CaptureAll(s.tasks, s.loop.turn, caches, capture);
             var fault := FirstFault(captured, s.loop.turn, rollback);
             && fault < |s.loop.turn|
             && Reached(cfg, s, captured, caches, DoneUpto(captured, s.loop.turn, fault), r.tasks, r.caches, r.completed)
    ensures Sampling(cfg, s, caches, capture, rollback) == Scheduler.FailAll(s.(tasks := r.tasks, caches := r.caches))
  {
  }

  /** What the machine makes of a turn in which all rollbacks succeed. */
  lemma CompletedIs(cfg: Config, s: State, caches: Caches, capture: nat -> bool, rollback: nat -> bool, r: Loops)
    requires var captured := CaptureAll(s.tasks, s.loop.turn, caches, capture);
             && FirstFault(captured, s.loop.turn, rollback) == |s.loop.turn|
             && r.tasks == FinishTasks(cfg, captured, ToSet(s.loop.turn), caches, s.loop.batch)
             && r.caches == FinishCaches(cfg, s, captured, ToSet(s.loop.turn), caches)
             && ToSet(r.completed) == CompletedOf(cfg, captured, s.loop.turn, caches, s.loop.batch)
    ensures Sampling(cfg, s, caches, capture, rollback)
         == s.(tasks := RetireAll(r.tasks, ToSet(r.completed), Completed), caches := r.caches,
               active := Without(s.active, ToSet(r.completed)),
               loop := s.loop.(phase := Top, turn := [], runnable := [], batch := []))
  {
  }

  lemma CompletedKnown(cfg: Config, s: State, caches: Caches, capture: nat -> bool, r: Loops)
    requires var captured := CaptureAll(s.tasks, s.loop.turn, caches, capture);
             && Known(s.loop.turn, captured)
             && Reached(cfg, s, captured, caches, DoneUpto(captured, s.loop.turn, |s.loop.turn|), r.tasks, r.caches, r.completed)
    ensures var captured := CaptureAll(s.tasks, s.loop.turn, caches, capture);
            && Known(r.completed, r.tasks)
            && r.tasks == FinishTasks(cfg, captured, ToSet(s.loop.turn), caches, s.loop.batch)
            && r.caches == FinishCaches(cfg, s, captured, ToSet(s.loop.turn), caches)
            && ToSet(r.completed) == CompletedOf(cfg, captured, s.loop.turn, caches, s.loop.batch)
  {
    var captured := CaptureAll(s.tasks, s.loop.turn, caches, capture);
    ReachedAll(cfg, s, captured, caches, r.tasks, r.caches, r.completed);
    forall id | id in r.completed ensures id in r.tasks {
      assert id in ToSet(r.completed);
    }
  }

  lemma PreparedKnown(cfg: Config, s: State, e: Env)
    requires Inv(cfg, s)
    ensures var p := Scheduler.PrepareTurn(cfg, s, e.init, e.mtp, e.drafts); Known(p.active, p.tasks)
  {
    InitKeys(cfg, s, e.init);
  }
}
