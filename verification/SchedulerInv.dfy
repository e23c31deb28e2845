/** The invariant of the scheduler,
    and its preservation by callers and by failure. */
module SchedulerInv {
  // Everything is stated pointwise: a task, its slot and the cache of its sequence.

  import opened Generation
  import opened BatchOrder
  import opened SlotTask
  import opened SlotTaskProofs
  import opened Scheduler

  ghost predicate Distinct(ids: seq<nat>) {
    forall i, j :: 0 <= i < j < |ids| ==> ids[i] != ids[j]
  }

  /** Active tasks are known, and each holds its own sequence. */
  ghost predicate Wired(active: seq<nat>, tasks: Tasks, caches: Caches, slots: seq<Slot>) {
    && |caches| == |slots| && Distinct(active)
    && (forall id :: id in tasks ==> tasks[id].req.slot < |slots|)
    && (forall id :: id in active ==> id in tasks && slots[tasks[id].req.slot].owner == Held(id))
    && (forall q :: 0 <= q < |slots| && slots[q].owner.Held? ==>
          slots[q].owner.id in tasks && tasks[slots[q].owner.id].req.slot == q)
  }

  ghost predicate LoopOk(active: seq<nat>, loop: Loop) {
    && Distinct(loop.turn) && Distinct(loop.runnable)
    && (forall id :: id in loop.turn ==> id in active)
    && (forall id :: id in loop.runnable ==> id in loop.turn)
    && (loop.phase == Top || loop.phase == Dead ==> loop.runnable == [])
  }

  ghost predicate Retired(cfg: Config, t: Task) {
    exists g, why :: RetiredWith(cfg, t, g, why)
  }

  ghost predicate AllRetired(cfg: Config, active: seq<nat>, tasks: Tasks) {
    forall id :: id in tasks && id !in active ==> Retired(cfg, tasks[id])
  }

  /** What the sequences hold, with a built batch counted as decoded. */
  ghost function Phys(s: State): Caches {
    var kv := DecodeRows(s.caches, s.loop.batch);
    if s.loop.phase == Finish && kv.Kv? then kv.caches else s.caches
  }

  ghost predicate TaskOk(cfg: Config, phase: Phase, batch: seq<Row>, t: Task, caches: Caches) {
    if phase == Finish then Built(cfg, t, CacheOf(caches, t.req.slot), batch)
    else Ready(cfg, t, CacheOf(caches, t.req.slot))
  }

  ghost predicate AllOk(cfg: Config, phase: Phase, batch: seq<Row>, active: seq<nat>, tasks: Tasks, caches: Caches) {
    forall id :: id in active && id in tasks ==> TaskOk(cfg, phase, batch, tasks[id], caches)
  }

  /** A retired task's cache agrees with what its caller may record for the slot. */
  ghost predicate Left(cfg: Config, t: Task, cache: seq<Token>) {
    && t.outCkpt <= t.req.prompt
    && exists g, why :: RetiredWith(cfg, t, g, why) && !IsError(why) &&
         (t.flags.cancel || Agrees(cache, t.req.prompt + g))
  }

  /** The slot's tokens and checkpoint are true of its cache whenever they will be used. */
  ghost predicate SlotOk(cfg: Config, slot: Slot, cache: seq<Token>, tasks: Tasks, active: seq<nat>) {
    && slot.ckpt <= slot.last
    && match slot.owner
       case Unowned => Agrees(cache, slot.last)
       case Held(id) =>
         id in tasks ==>
           && tasks[id].last == slot.last && tasks[id].ckpt == slot.ckpt
           && (!tasks[id].run.initialized ==> Agrees(cache, slot.last))
           && (tasks[id].run.initialized && id !in active ==> Left(cfg, tasks[id], cache))
  }

  ghost predicate AllSlots(cfg: Config, slots: seq<Slot>, caches: Caches, tasks: Tasks, active: seq<nat>) {
    forall q :: 0 <= q < |slots| && q < |caches| ==> SlotOk(cfg, slots[q], caches[q], tasks, active)
  }

  /** May be put into a batch. */
  predicate Unblocked(cfg: Config, t: Task) { !Flagged(t) && (cfg.bounded ==> t.pool.admitted) }

  ghost predicate TurnOk(cfg: Config, tasks: Tasks, active: seq<nat>, loop: Loop) {
    && (loop.phase == Prepare ==>
          && (forall id :: id in loop.turn && id in tasks && Unblocked(cfg, tasks[id]) ==> id in loop.runnable)
          && (forall id :: id in loop.runnable && id in tasks && cfg.bounded ==> tasks[id].pool.admitted))
    && (loop.phase == Building ==>
          forall id :: id in loop.turn && id in tasks && Unblocked(cfg, tasks[id]) ==> tasks[id].run.initialized)
    && (cfg.bounded ==> forall id :: id in active && id in tasks && tasks[id].run.initialized ==> tasks[id].pool.admitted)
    && (loop.phase != Top ==>
          forall id :: id in active && id in tasks && tasks[id].run.initialized ==> id in loop.turn)
  }

  ghost predicate Inv(cfg: Config, s: State) {
    && Wired(s.active, s.tasks, s.caches, s.slots)
    && LoopOk(s.active, s.loop)
    && AllRetired(cfg, s.active, s.tasks)
    && (s.loop.phase == Dead ==> s.terminal && s.active == [])
    && (s.loop.phase == Finish ==> DecodeRows(s.caches, s.loop.batch).Kv?)
    && (s.loop.phase != Dead ==>
          && AllOk(cfg, s.loop.phase, s.loop.batch, s.active, s.tasks, Phys(s))
          && AllSlots(cfg, s.slots, Phys(s), s.tasks, s.active)
          && TurnOk(cfg, s.tasks, s.active, s.loop))
  }

  lemma StartOk(cfg: Config, n: nat)
    ensures Inv(cfg, Start(n))
  {
  }

  // ---- retiring ----

  lemma RetireSpeaking(cfg: Config, t: Task, why: Outcome)
    requires Speaking(cfg, t) && why != Completed
    ensures Retired(cfg, Retire(t, why))
  {
    var g :| Tokens(cfg, t.req, g) && t.events == Toks(g);
    assert RetiredWith(cfg, Retire(t, why), g, why);
  }

  lemma TaskSpeaks(cfg: Config, phase: Phase, batch: seq<Row>, t: Task, caches: Caches)
    requires TaskOk(cfg, phase, batch, t, caches)
    ensures Speaking(cfg, t)
  {
    var cache := CacheOf(caches, t.req.slot);
    if phase != Finish {
      ReadyIsBuilt(cfg, t, cache, batch);
    }
    BuiltSpeaks(cfg, t, cache, batch);
  }

  /** Failing every active task ends the scheduler with each of them retired. */
  lemma FailAllOk(cfg: Config, s: State)
    requires Wired(s.active, s.tasks, s.caches, s.slots)
    requires AllRetired(cfg, s.active, s.tasks)
    requires forall id :: id in s.active && id in s.tasks ==> Speaking(cfg, s.tasks[id])
    ensures Inv(cfg, FailAll(s))
  {
    var f := FailAll(s);
    forall id | id in f.tasks && id !in f.active ensures Retired(cfg, f.tasks[id]) {
      if id in s.active {
        RetireSpeaking(cfg, s.tasks[id], Failed);
      }
    }
  }

  lemma InvSpeaks(cfg: Config, s: State)
    requires Inv(cfg, s)
    ensures forall id :: id in s.active && id in s.tasks ==> Speaking(cfg, s.tasks[id])
  {
    forall id | id in s.active && id in s.tasks ensures Speaking(cfg, s.tasks[id]) {
      TaskSpeaks(cfg, s.loop.phase, s.loop.batch, s.tasks[id], Phys(s));
    }
  }

  // ---- callers ----

  lemma NewTaskReady(cfg: Config, req: Request, last: seq<Token>, ckpt: seq<Token>, cache: seq<Token>, batch: seq<Row>)
    ensures var t := NewTask(req, last, ckpt); Ready(cfg, t, cache) && Built(cfg, t, cache, batch)
    ensures Retired(cfg, Retire(NewTask(req, last, ckpt), Failed))
  {
    var t := NewTask(req, last, ckpt);
    ReadyIsBuilt(cfg, t, cache, batch);
    BuiltSpeaks(cfg, t, cache, batch);
    RetireSpeaking(cfg, t, Failed);
  }

  // One task changes, or a new one is added at the end of the active list.

  ghost predicate Appended(active: seq<nat>, more: seq<nat>, id: nat) {
    more == active || (more == active + [id] && id !in active)
  }

  lemma PutWired(active: seq<nat>, tasks: Tasks, caches: Caches, slots: seq<Slot>, id: nat, t: Task, more: seq<nat>, slots1: seq<Slot>)
    requires Wired(active, tasks, caches, slots) && Appended(active, more, id)
    requires |slots1| == |slots| && t.req.slot < |slots|
    requires forall q :: 0 <= q < |slots| && q != t.req.slot ==> slots1[q] == slots[q]
    requires if id in tasks then slots1 == slots && tasks[id].req.slot == t.req.slot && more == active
             else slots1[t.req.slot].owner == Held(id) && slots[t.req.slot].owner == Unowned
    ensures Wired(more, tasks[id := t], caches, slots1)
  {
  }

  lemma PutRetired(cfg: Config, active: seq<nat>, tasks: Tasks, id: nat, t: Task, more: seq<nat>)
    requires AllRetired(cfg, active, tasks) && Appended(active, more, id)
    requires id in more || Retired(cfg, t)
    ensures AllRetired(cfg, more, tasks[id := t])
  {
  }

  lemma PutAllOk(cfg: Config, phase: Phase, batch: seq<Row>, active: seq<nat>, tasks: Tasks, caches: Caches, id: nat, t: Task, more: seq<nat>)
    requires AllOk(cfg, phase, batch, active, tasks, caches) && Appended(active, more, id)
    requires id in more ==> TaskOk(cfg, phase, batch, t, caches)
    ensures AllOk(cfg, phase, batch, more, tasks[id := t], caches)
  {
    forall x | x in more && x in tasks[id := t] ensures TaskOk(cfg, phase, batch, tasks[id := t][x], caches) {
      if x != id { assert x in active; }
    }
  }

  lemma PutSlots(cfg: Config, slots: seq<Slot>, caches: Caches, tasks: Tasks, active: seq<nat>, id: nat, t: Task, more: seq<nat>, slots1: seq<Slot>)
    requires AllSlots(cfg, slots, caches, tasks, active) && Appended(active, more, id)
    requires |slots1| == |slots|
    requires forall q :: 0 <= q < |slots| && q < |caches| && slots1[q].owner == Held(id) ==>
               SlotOk(cfg, slots1[q], caches[q], tasks[id := t], more)
    requires forall q :: 0 <= q < |slots| && slots1[q].owner != Held(id) ==>
               slots1[q] == slots[q] && (slots1[q].owner.Held? ==> slots1[q].owner.id in tasks)
    ensures AllSlots(cfg, slots1, caches, tasks[id := t], more)
  {
    forall q | 0 <= q < |slots1| && q < |caches| ensures SlotOk(cfg, slots1[q], caches[q], tasks[id := t], more) {
      if slots1[q].owner != Held(id) {
        assert SlotOk(cfg, slots[q], caches[q], tasks, active);
      }
    }
  }

  lemma PutTurn(cfg: Config, tasks: Tasks, active: seq<nat>, loop: Loop, id: nat, t: Task, more: seq<nat>)
    requires TurnOk(cfg, tasks, active, loop) && Appended(active, more, id)
    requires forall x :: x in loop.turn ==> x in active
    requires forall x :: x in loop.runnable ==> x in loop.turn
    requires if id in tasks then
               t.run == tasks[id].run && t.pool == tasks[id].pool && (Flagged(tasks[id]) ==> Flagged(t))
             else id !in active && !t.run.initialized
    requires id in tasks ==> more == active
    ensures TurnOk(cfg, tasks[id := t], more, loop)
  {
  }

  lemma SubmitOk(cfg: Config, s: State, id: nat, req: Request)
    requires Inv(cfg, s)
    requires id !in s.tasks && req.slot < |s.slots| && s.slots[req.slot].owner == Unowned
    ensures Inv(cfg, Submit(s, id, req))
  {
    var s1 := Submit(s, id, req);
    var slot := s.slots[req.slot];
    var t := s1.tasks[id];
    var p := Phys(s);
    NewTaskReady(cfg, req, slot.last, slot.ckpt, CacheOf(p, req.slot), s.loop.batch);
    PutWired(s.active, s.tasks, s.caches, s.slots, id, t, s1.active, s1.slots);
    PutRetired(cfg, s.active, s.tasks, id, t, s1.active);
    if s.loop.phase != Dead {
      PutAllOk(cfg, s.loop.phase, s.loop.batch, s.active, s.tasks, p, id, t, s1.active);
      assert SlotOk(cfg, slot, p[req.slot], s.tasks, s.active);
      PutSlots(cfg, s.slots, p, s.tasks, s.active, id, t, s1.active, s1.slots);
      PutTurn(cfg, s.tasks, s.active, s.loop, id, t, s1.active);
    }
  }

  lemma FlagsKeepOk(cfg: Config, phase: Phase, batch: seq<Row>, t: Task, caches: Caches, flags: Flags)
    requires TaskOk(cfg, phase, batch, t, caches)
    ensures TaskOk(cfg, phase, batch, t.(flags := flags), caches)
  {
  }

  lemma FlagsOk(cfg: Config, s: State, id: nat, flags: Flags)
    requires Inv(cfg, s) && id in s.tasks
    requires s.tasks[id].flags.cancel ==> flags.cancel
    requires s.tasks[id].flags.stop ==> flags.stop
    ensures Inv(cfg, s.(tasks := s.tasks[id := s.tasks[id].(flags := flags)]))
  {
    var t0, p := s.tasks[id], Phys(s);
    var t := t0.(flags := flags);
    FlagsKeepRetired(cfg, t0, flags);
    PutWired(s.active, s.tasks, s.caches, s.slots, id, t, s.active, s.slots);
    PutRetired(cfg, s.active, s.tasks, id, t, s.active);
    if s.loop.phase != Dead {
      if id in s.active {
        FlagsKeepOk(cfg, s.loop.phase, s.loop.batch, t0, p, flags);
      }
      PutAllOk(cfg, s.loop.phase, s.loop.batch, s.active, s.tasks, p, id, t, s.active);
      forall q | 0 <= q < |s.slots| && q < |p| && s.slots[q].owner == Held(id)
        ensures SlotOk(cfg, s.slots[q], p[q], s.tasks[id := t], s.active)
      {
        FlagsKeepSlot(cfg, s.slots[q], p[q], s.tasks, s.active, id, flags);
      }
      PutSlots(cfg, s.slots, p, s.tasks, s.active, id, t, s.active, s.slots);
      PutTurn(cfg, s.tasks, s.active, s.loop, id, t, s.active);
    }
  }

  lemma FlagsKeepSlot(cfg: Config, slot: Slot, cache: seq<Token>, tasks: Tasks, active: seq<nat>, id: nat, flags: Flags)
    requires id in tasks && slot.owner == Held(id) && SlotOk(cfg, slot, cache, tasks, active)
    requires tasks[id].flags.cancel ==> flags.cancel
    ensures SlotOk(cfg, slot, cache, tasks[id := tasks[id].(flags := flags)], active)
  {
    if tasks[id].run.initialized && id !in active {
      FlagsKeepLeft(cfg, tasks[id], flags, cache);
    }
  }

  lemma FlagsKeepRetired(cfg: Config, t: Task, flags: Flags)
    ensures Retired(cfg, t) ==> Retired(cfg, t.(flags := flags))
  {
    if Retired(cfg, t) {
      var g, why :| RetiredWith(cfg, t, g, why);
      assert RetiredWith(cfg, t.(flags := flags), g, why);
    }
  }

  lemma FlagsKeepLeft(cfg: Config, t: Task, flags: Flags, cache: seq<Token>)
    requires Left(cfg, t, cache) && (t.flags.cancel ==> flags.cancel)
    ensures Left(cfg, t.(flags := flags), cache)
  {
    var g, why :| RetiredWith(cfg, t, g, why) && !IsError(why) && (t.flags.cancel || Agrees(cache, t.req.prompt + g));
    assert RetiredWith(cfg, t.(flags := flags), g, why);
  }

  // ---- releasing a slot ----

  lemma {:induction false} TokenIdsOfToks(g: seq<Token>, k: nat)
    requires k <= |g|
    ensures TokenIds(Toks(g)[..k]) == g[..k]
  {
    if k == 0 {
    } else {
      assert Toks(g)[..k][..k - 1] == Toks(g)[..k - 1];
      TokenIdsOfToks(g, k - 1);
      assert g[..k] == g[..k - 1] + [g[k - 1]];
    }
  }

  /** Whatever the caller kept of the answer, its new slot record is true of the cache. */
  lemma ReleasedSlotAgrees(cfg: Config, t: Task, slot: Slot, cache: seq<Token>, k: nat)
    requires Retired(cfg, t) && k < |t.events|
    requires slot.ckpt <= slot.last
    requires !t.run.initialized ==> Agrees(cache, slot.last)
    requires t.run.initialized ==> Left(cfg, t, cache)
    ensures var r := ReleasedSlot(t, slot, k);
            r.owner == Unowned && r.ckpt <= r.last && Agrees(cache, r.last)
  {
    if t.run.initialized {
      var g, why :| RetiredWith(cfg, t, g, why) && !IsError(why) && (t.flags.cancel || Agrees(cache, t.req.prompt + g));
      assert t.events[..k] == Toks(g)[..k];
      TokenIdsOfToks(g, k);
      if !t.flags.cancel {
        AgreesWithPrefix(cache, t.req.prompt, g, k);
        assert t.outCkpt <= t.req.prompt + g[..k];
      }
    }
  }

  lemma AgreesWithPrefix(cache: seq<Token>, p: seq<Token>, g: seq<Token>, k: nat)
    requires Agrees(cache, p + g) && k <= |g|
    ensures Agrees(cache, p + g[..k])
  {
    assert p + g[..k] <= p + g;
  }

  lemma ReleaseOk(cfg: Config, s: State, id: nat, k: nat)
    requires Inv(cfg, s)
    requires id in s.tasks && id !in s.active && k < |s.tasks[id].events|
    requires s.tasks[id].req.slot < |s.slots| && s.slots[s.tasks[id].req.slot].owner == Held(id)
    ensures Inv(cfg, Release(s, id, k))
  {
    var s1 := Release(s, id, k);
    var t := s.tasks[id];
    var q := t.req.slot;
    assert Phys(s1) == Phys(s);
    if s.loop.phase != Dead {
      assert SlotOk(cfg, s.slots[q], Phys(s)[q], s.tasks, s.active);
      ReleasedSlotAgrees(cfg, t, s.slots[q], Phys(s)[q], k);
      assert AllSlots(cfg, s1.slots, Phys(s1), s1.tasks, s1.active);
    }
    assert ReleasedSlot(t, s.slots[q], k).owner == Unowned;
    assert Wired(s1.active, s1.tasks, s1.caches, s1.slots);
  }
}
