/** The loops behind a decode: capture checkpoints,
    sample, verify drafts, complete. */
module SchedulerFinishLoop {
  import opened Generation
  import opened BatchOrder
  import opened SlotTask
  import opened SlotTaskProofs
  import opened Scheduler
  import opened SchedulerInv
  import opened SchedulerLoops

  // ---- one task ----

  /** Pushes the verified tokens until one of them ends the task. */
  method EmitTokens(m: Model, req: Request, before: Speech, ids: seq<Token>) returns (s: Speech)
    ensures s == Emit(m, req, before, ids)
  {
    s := before;
    var i := 0;
    assert ids[0..] == ids;
    while i < |ids|
      invariant i <= |ids| && Emit(m, req, s, ids[i..]) == Emit(m, req, before, ids)
    {
      assert ids[i..][1..] == ids[i + 1..];
      if StopsAt(m, req.stops, ids[i]) {
        return s.(completed := true);
      }
      s := s.(events := s.events + [Tok(ids[i])], nGenerated := s.nGenerated + 1);
      if s.nGenerated >= req.maxTokens {
        return s.(completed := true);
      }
      s := s.(lastToken := ids[i]);
      i := i + 1;
    }
  }

  /** The rows of a task lie in the batch and, if drafted, in the cache. */
  ghost predicate Placed(t: Task, cache: seq<Token>, batch: seq<Row>) {
    && (t.place.iBatch >= 0 ==> t.place.iBatch < |batch| && t.place.specRows == [])
    && (t.place.specRows != [] ==> t.run.nPos + |t.place.draft| < |cache|)
  }

  method SampleOne(cfg: Config, t: Task, cache: seq<Token>, batch: seq<Row>) returns (u: Task, completed: bool)
    requires 0 <= t.place.iBatch < |batch|
    ensures Finished(u, cache, completed) == FinishTask(cfg, t, cache, batch)
  {
    var id := cfg.model.next(RowPrefix(cache, batch[t.place.iBatch]), t.run.accepted);
    u := t.(run := t.run.(accepted := t.run.accepted + [id]), place := t.place.(iBatch := -1));
    if !u.run.promptDone && u.run.promptPos >= |u.req.prompt| {
      u := u.(run := u.run.(promptDone := true));
    }
    var stop := StopsAt(cfg.model, t.req.stops, id);
    completed := stop || AtMax(t.req.maxTokens, t.run.nGenerated);
    if completed {
      if !stop {
        u := u.(events := u.events + [Tok(id)]);
      }
      u := u.(sampler := Free(u.sampler));
    } else {
      u := u.(events := u.events + [Tok(id)], run := u.run.(lastToken := id, nGenerated := u.run.nGenerated + 1));
    }
  }

  method VerifyOne(cfg: Config, t: Task, cache: seq<Token>, ghost batch: seq<Row>)
    returns (u: Task, left: seq<Token>, completed: bool)
    requires Verifies(t) && t.run.nPos + |t.place.draft| < |cache|
    ensures Finished(u, left, completed) == FinishTask(cfg, t, cache, batch)
  {
    var ids := SampleAndAcceptN(cfg.model, cache, t.run.nPos, t.run.accepted, t.place.draft);
    var nPos := t.run.nPos + |ids|;
    left := cache[..nPos];
    var s := EmitTokens(cfg.model, t.req, Speech(t.events, t.run.nGenerated, t.run.lastToken, false), ids);
    u := t.(run := t.run.(nPos := nPos, nGenerated := s.nGenerated, lastToken := s.lastToken, accepted := t.run.accepted + ids),
            place := t.place.(specRows := [], draft := []), events := s.events);
    if s.completed {
      u := u.(sampler := Free(u.sampler));
    }
    completed := s.completed;
  }

  // ---- checkpoints ----

  lemma CaptureOne(tasks: Tasks, ids: seq<nat>, i: nat, caches: Caches, ok: nat -> bool)
    requires Known(ids, tasks) && i < |ids|
    ensures ids[i] in tasks && CaptureAll(tasks, ids[..i], caches, ok)[ids[i]] == tasks[ids[i]]
    ensures CaptureAll(tasks, ids[..i + 1], caches, ok)
         == CaptureAll(tasks, ids[..i], caches, ok)
              [ids[i] := CaptureTask(tasks[ids[i]], CacheOf(caches, tasks[ids[i]].req.slot), ok(ids[i]))]
  {
    NotBefore(ids, i);
    Snoc(ids, i);
  }

  method CaptureCheckpoints(before: Tasks, ids: seq<nat>, caches: Caches, ok: nat -> bool) returns (tasks: Tasks)
    requires Known(ids, before)
    ensures tasks == CaptureAll(before, ids, caches, ok)
  {
    tasks := before;
    assert CaptureAll(before, ids[..0], caches, ok) == before;
    var i := 0;
    while i < |ids|
      invariant i <= |ids| && tasks == CaptureAll(before, ids[..i], caches, ok)
    {
      CaptureOne(before, ids, i, caches, ok);
      var t := tasks[ids[i]];
      if t.place.capturing {
        t := t.(place := t.place.(capturing := false));
        if ok(ids[i]) {
          t := t.(outCkpt := CacheOf(caches, t.req.slot));
        }
      }
      tasks := tasks[ids[i] := t];
      i := i + 1;
    }
    Whole(ids);
  }

  // ---- the turn ----

  /** Facts the loops use: the tasks of the turn are known, each holds its sequence, and their rows are in place. */
  ghost predicate CanFinish(s: State, tasks: Tasks, caches: Caches) {
    && Known(s.loop.turn, tasks) && |caches| == |s.slots|
    && (forall id :: id in s.loop.turn ==>
          && tasks[id].req.slot < |s.slots| && s.slots[tasks[id].req.slot].owner == Held(id)
          && Placed(tasks[id], caches[tasks[id].req.slot], s.loop.batch))
    && (forall q :: 0 <= q < |s.slots| && s.slots[q].owner.Held? && s.slots[q].owner.id in s.loop.turn ==>
          tasks[s.slots[q].owner.id].req.slot == q)
  }

  function FinishOf(cfg: Config, tasks: Tasks, caches: Caches, batch: seq<Row>, id: nat): Finished
    requires id in tasks
  {
    FinishTask(cfg, tasks[id], CacheOf(caches, tasks[id].req.slot), batch)
  }

  ghost function CompletedIn(cfg: Config, tasks: Tasks, done: set<nat>, caches: Caches, batch: seq<Row>): set<nat> {
    set id | id in done && id in tasks && FinishOf(cfg, tasks, caches, batch, id).completed
  }

  /** What the loops have reached when the tasks in done are finished. */
  ghost predicate Reached(cfg: Config, s: State, tasks: Tasks, caches: Caches, done: set<nat>,
                          now: Tasks, left: Caches, completed: seq<nat>) {
    && now == FinishTasks(cfg, tasks, done, caches, s.loop.batch)
    && left == FinishCaches(cfg, s, tasks, done, caches)
    && ToSet(completed) == CompletedIn(cfg, tasks, done, caches, s.loop.batch) && Distinct(completed)
  }

  lemma FinishOneTask(cfg: Config, tasks: Tasks, done: set<nat>, caches: Caches, batch: seq<Row>, id: nat)
    requires id in tasks && id !in done
    ensures FinishTasks(cfg, tasks, done, caches, batch)[id] == tasks[id]
    ensures FinishTasks(cfg, tasks, done + {id}, caches, batch)
         == FinishTasks(cfg, tasks, done, caches, batch)[id := FinishOf(cfg, tasks, caches, batch, id).task]
    ensures CompletedIn(cfg, tasks, done + {id}, caches, batch)
         == CompletedIn(cfg, tasks, done, caches, batch) + if FinishOf(cfg, tasks, caches, batch, id).completed then {id} else {}
  {
  }

  lemma FinishOneCache(cfg: Config, s: State, tasks: Tasks, done: set<nat>, caches: Caches, id: nat)
    requires CanFinish(s, tasks, caches) && id in s.loop.turn && id !in done
    ensures var q := tasks[id].req.slot;
            && FinishCaches(cfg, s, tasks, done, caches)[q] == caches[q]
            && FinishCaches(cfg, s, tasks, done + {id}, caches)
            == FinishCaches(cfg, s, tasks, done, caches)[q := FinishOf(cfg, tasks, caches, s.loop.batch, id).cache]
  {
  }

  lemma CompletedNew(cfg: Config, tasks: Tasks, done: set<nat>, caches: Caches, batch: seq<Row>, completed: seq<nat>, id: nat)
    requires ToSet(completed) == CompletedIn(cfg, tasks, done, caches, batch) && Distinct(completed) && id !in done
    ensures id !in completed && Distinct(completed + [id]) && ToSet(completed + [id]) == ToSet(completed) + {id}
  {
    assert id !in ToSet(completed);
  }

  /** One more task is finished. */
  lemma ReachedOne(cfg: Config, s: State, tasks: Tasks, caches: Caches, done: set<nat>, now: Tasks, left: Caches,
                   completed: seq<nat>, id: nat, f: Finished)
    requires CanFinish(s, tasks, caches) && id in s.loop.turn && id !in done
    requires Reached(cfg, s, tasks, caches, done, now, left, completed) && f == FinishOf(cfg, tasks, caches, s.loop.batch, id)
    ensures Reached(cfg, s, tasks, caches, done + {id}, now[id := f.task], left[tasks[id].req.slot := f.cache],
                    if f.completed then completed + [id] else completed)
  {
    FinishOneTask(cfg, tasks, done, caches, s.loop.batch, id);
    FinishOneCache(cfg, s, tasks, done, caches, id);
    CompletedNew(cfg, tasks, done, caches, s.loop.batch, completed, id);
  }

  /** A task without rows in the batch is finished as it is. */
  lemma ReachedIdle(cfg: Config, s: State, tasks: Tasks, caches: Caches, done: set<nat>, now: Tasks, left: Caches,
                    completed: seq<nat>, id: nat)
    requires CanFinish(s, tasks, caches) && id in s.loop.turn && id !in done
    requires Reached(cfg, s, tasks, caches, done, now, left, completed)
    requires tasks[id].place.iBatch < 0 && tasks[id].place.specRows == []
    ensures Reached(cfg, s, tasks, caches, done + {id}, now, left, completed)
  {
    FinishOneTask(cfg, tasks, done, caches, s.loop.batch, id);
    FinishOneCache(cfg, s, tasks, done, caches, id);
    assert now[id := tasks[id]] == now;
  }

  function SampledIn(tasks: Tasks, ids: seq<nat>): set<nat> { set id | id in ids && !Verifies(Get(tasks, id)) }

  /** The tasks that are finished when the first i of the turn have been verified. */
  function DoneUpto(tasks: Tasks, turn: seq<nat>, i: nat): set<nat>
    requires i <= |turn|
  {
    set id | id in turn && (!Verifies(Get(tasks, id)) || id in turn[..i])
  }

  lemma SampledNext(tasks: Tasks, ids: seq<nat>, i: nat)
    requires i < |ids| && Distinct(ids)
    ensures ids[i] !in SampledIn(tasks, ids[..i])
    ensures SampledIn(tasks, ids[..i + 1]) == SampledIn(tasks, ids[..i]) + if Verifies(Get(tasks, ids[i])) then {} else {ids[i]}
  {
    NotBefore(ids, i);
    Snoc(ids, i);
  }

  lemma DoneNext(tasks: Tasks, turn: seq<nat>, i: nat)
    requires i < |turn| && Distinct(turn)
    ensures Verifies(Get(tasks, turn[i])) ==>
              turn[i] !in DoneUpto(tasks, turn, i) && DoneUpto(tasks, turn, i + 1) == DoneUpto(tasks, turn, i) + {turn[i]}
    ensures !Verifies(Get(tasks, turn[i])) ==> DoneUpto(tasks, turn, i + 1) == DoneUpto(tasks, turn, i)
  {
    NotBefore(turn, i);
    Snoc(turn, i);
  }

  lemma ReachedNothing(cfg: Config, s: State, tasks: Tasks, caches: Caches)
    ensures Reached(cfg, s, tasks, caches, {}, tasks, caches, [])
  {
  }

  /** Samples a token for every task with a plain row. */
  method SampleTurn(cfg: Config, ghost s: State, turn: seq<nat>, batch: seq<Row>, tasks: Tasks, caches: Caches)
    returns (now: Tasks, completed: seq<nat>)
    requires CanFinish(s, tasks, caches) && turn == s.loop.turn && batch == s.loop.batch
    ensures Reached(cfg, s, tasks, caches, DoneUpto(tasks, s.loop.turn, 0), now, caches, completed)
  {
    now, completed := tasks, [];
    ReachedNothing(cfg, s, tasks, caches);
    assert SampledIn(tasks, turn[..0]) == {};
    var i := 0;
    while i < |turn|
      invariant i <= |turn|
      invariant Reached(cfg, s, tasks, caches, SampledIn(tasks, turn[..i]), now, caches, completed)
    {
      var id := turn[i];
      ghost var done := SampledIn(tasks, turn[..i]);
      SampledNext(tasks, turn, i);
      assert id in turn && Get(tasks, id) == tasks[id];
      FinishOneTask(cfg, tasks, done, caches, s.loop.batch, id);
      var t := now[id];
      i := i + 1;
      if t.place.iBatch < 0 {
        if !Verifies(t) {
          ReachedIdle(cfg, s, tasks, caches, done, now, caches, completed, id);
        }
        continue;
      }
      var u, stops := SampleOne(cfg, t, caches[t.req.slot], batch);
      ReachedOne(cfg, s, tasks, caches, done, now, caches, completed, id, Finished(u, caches[t.req.slot], stops));
      now := now[id := u];
      if stops {
        completed := completed + [id];
      }
    }
    Whole(turn);
    assert SampledIn(tasks, turn) == DoneUpto(tasks, turn, 0);
  }

  lemma {:induction false} FaultIsFirst(tasks: Tasks, turn: seq<nat>, rollback: nat -> bool, i: nat)
    requires i <= |turn|
    requires forall j :: 0 <= j < i ==> !(Verifies(Get(tasks, turn[j])) && !rollback(turn[j]))
    ensures FirstFault(tasks, turn, rollback) >= i
    ensures i < |turn| && Verifies(Get(tasks, turn[i])) && !rollback(turn[i]) ==> FirstFault(tasks, turn, rollback) == i
  {
    if i == 0 {
    } else {
      assert !(Verifies(Get(tasks, turn[0])) && !rollback(turn[0]));
      FaultIsFirst(tasks, turn[1..], rollback, i - 1);
    }
  }

  /** A finished task that had no draft has no draft rows. */
  lemma RowsAfter(cfg: Config, t: Task, cache: seq<Token>, batch: seq<Row>)
    requires Placed(t, cache, batch) && !Verifies(t)
    ensures t.place.specRows == [] && FinishTask(cfg, t, cache, batch).task.place.specRows == []
  {
  }

  /** The next task of the turn has rows to verify exactly if it is drafted, and then nothing has touched it yet. */
  lemma NextToVerify(cfg: Config, s: State, tasks: Tasks, caches: Caches, i: nat, now: Tasks, left: Caches, completed: seq<nat>)
    requires CanFinish(s, tasks, caches) && i < |s.loop.turn|
    requires Reached(cfg, s, tasks, caches, DoneUpto(tasks, s.loop.turn, i), now, left, completed)
    ensures var id := s.loop.turn[i];
            && id in s.loop.turn && id in now && id in tasks && Get(tasks, id) == tasks[id] && tasks[id].req.slot < |left| == |caches|
            && (now[id].place.specRows == [] <==> !Verifies(tasks[id]))
            && (Verifies(tasks[id]) ==> now[id] == tasks[id] && left[tasks[id].req.slot] == caches[tasks[id].req.slot])
  {
    var id, done := s.loop.turn[i], DoneUpto(tasks, s.loop.turn, i);
    assert id in s.loop.turn && Get(tasks, id) == tasks[id];
    if Verifies(tasks[id]) {
      DoneNext(tasks, s.loop.turn, i);
      FinishOneTask(cfg, tasks, done, caches, s.loop.batch, id);
      FinishOneCache(cfg, s, tasks, done, caches, id);
    } else {
      RowsAfter(cfg, tasks[id], caches[tasks[id].req.slot], s.loop.batch);
    }
  }

  /** Verifies every draft and rolls back what was rejected, up to the first rollback that fails. */
  method VerifyTurn(cfg: Config, ghost s: State, turn: seq<nat>, ghost tasks: Tasks, caches: Caches, rollback: nat -> bool,
                    before: Tasks, sampled: seq<nat>)
    returns (ok: bool, now: Tasks, left: Caches, completed: seq<nat>)
    requires CanFinish(s, tasks, caches) && turn == s.loop.turn
    requires Reached(cfg, s, tasks, caches, DoneUpto(tasks, s.loop.turn, 0), before, caches, sampled)
    ensures var fault := FirstFault(tasks, s.loop.turn, rollback);
            && (ok <==> fault == |s.loop.turn|)
            && Reached(cfg, s, tasks, caches, DoneUpto(tasks, s.loop.turn, fault), now, left, completed)
  {
    now, left, completed := before, caches, sampled;
    var i := 0;
    while i < |turn|
      invariant i <= |turn|
      invariant forall j :: 0 <= j < i ==> !(Verifies(Get(tasks, turn[j])) && !rollback(turn[j]))
      invariant Reached(cfg, s, tasks, caches, DoneUpto(tasks, turn, i), now, left, completed)
    {
      var id := turn[i];
      ghost var done := DoneUpto(tasks, turn, i);
      DoneNext(tasks, turn, i);
      FaultIsFirst(tasks, turn, rollback, i);
      NextToVerify(cfg, s, tasks, caches, i, now, left, completed);
      i := i + 1;
      var t := now[id];
      if t.place.specRows == [] {
        continue;
      }
      if !rollback(id) {
        return false, now, left, completed;
      }
      var u, kept, stops := VerifyOne(cfg, t, left[t.req.slot], s.loop.batch);
      ReachedOne(cfg, s, tasks, caches, done, now, left, completed, id, Finished(u, kept, stops));
      now, left := now[id := u], left[t.req.slot := kept];
      if stops {
        completed := completed + [id];
      }
    }
    FaultIsFirst(tasks, turn, rollback, i);
    ok := true;
  }

  /** When all of the turn is finished, that is what the machine says. */
  lemma ReachedAll(cfg: Config, s: State, tasks: Tasks, caches: Caches, now: Tasks, left: Caches, completed: seq<nat>)
    requires Reached(cfg, s, tasks, caches, DoneUpto(tasks, s.loop.turn, |s.loop.turn|), now, left, completed)
    ensures now == FinishTasks(cfg, tasks, ToSet(s.loop.turn), caches, s.loop.batch)
    ensures left == FinishCaches(cfg, s, tasks, ToSet(s.loop.turn), caches)
    ensures ToSet(completed) == CompletedOf(cfg, tasks, s.loop.turn, caches, s.loop.batch) && Distinct(completed)
  {
    Whole(s.loop.turn);
    assert DoneUpto(tasks, s.loop.turn, |s.loop.turn|) == ToSet(s.loop.turn);
  }

  /** What the loops behind a decode leave. */
  datatype Loops = Loops(ok: bool, tasks: Tasks, caches: Caches, completed: seq<nat>)

  /** All of the loops; captured and fault are what the specification calls them. */
  method FinishLoops(cfg: Config, ghost s: State, turn: seq<nat>, batch: seq<Row>, tasks: Tasks, caches: Caches,
                     capture: nat -> bool, rollback: nat -> bool) returns (r: Loops)
    requires Known(turn, tasks) && turn == s.loop.turn && batch == s.loop.batch && tasks == s.tasks
    requires CanFinish(s, CaptureAll(tasks, turn, caches, capture), caches)
    ensures var captured := CaptureAll(tasks, turn, caches, capture);
            var fault := FirstFault(captured, turn, rollback);
            && (r.ok <==> fault == |turn|)
            && Reached(cfg, s, captured, caches, DoneUpto(captured, turn, fault), r.tasks, r.caches, r.completed)
  {
    var captured := CaptureCheckpoints(tasks, turn, caches, capture);
    var now, sampled := SampleTurn(cfg, s, turn, batch, captured, caches);
    var ok, done, left, completed := VerifyTurn(cfg, s, turn, captured, caches, rollback, now, sampled);
    r := Loops(ok, done, left, completed);
  }
}
