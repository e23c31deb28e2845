/** Preparing a turn preserves the invariant, and the batch loop leaves every task it has visited as
    its rows say. */
module SchedulerTurn {
  import opened Generation
  import opened BatchOrder
  import opened SlotTask
  import opened SlotTaskProofs
  import opened Scheduler
  import opened SchedulerInv
  import opened SchedulerSteps

  // ---- the batch order is a permutation of the runnable tasks ----

  lemma {:induction false} CountAtMostOne(s: seq<Item>, x: Item)
    requires forall i, j :: 0 <= i < j < |s| ==> s[i] != s[j]
    ensures multiset(s)[x] <= 1
  {
    if s == [] {
    } else {
      var n := |s| - 1;
      assert s == s[..n] + [s[n]];
      CountAtMostOne(s[..n], x);
      if s[n] == x {
        assert x !in s[..n];
      }
    }
  }

  lemma CountAtLeastTwo(s: seq<Item>, i: nat, j: nat)
    requires i < j < |s| && s[i] == s[j]
    ensures multiset(s)[s[i]] >= 2
  {
    assert s == s[..i] + [s[i]] + s[i + 1..j] + [s[j]] + s[j + 1..];
  }

  lemma OrderIds(cfg: Config, tasks: Tasks, ids: seq<nat>, capacity: int, turn: nat)
    requires Distinct(ids)
    ensures var r := Ids(Order(Views(cfg, tasks, ids), capacity, turn).0);
            Distinct(r) && forall x :: x in r <==> x in ids
  {
    var v := Views(cfg, tasks, ids);
    var o := Order(v, capacity, turn).0;
    OrderIsPermutation(v, capacity, turn);
    PermutedIds(v, o);
    IdsSubset(v, o);
    IdsSubset(o, v);
    assert Ids(v) == ids;
  }

  lemma IdsSubset(v: seq<Item>, o: seq<Item>)
    requires multiset(v) == multiset(o)
    ensures forall x :: x in Ids(v) ==> x in Ids(o)
  {
    forall x | x in Ids(v) ensures x in Ids(o) {
      var i :| 0 <= i < |v| && Ids(v)[i] == x;
      assert v[i] in multiset(o);
      var j :| 0 <= j < |o| && o[j] == v[i];
      assert Ids(o)[j] == x;
    }
  }

  lemma PermutedIds(v: seq<Item>, o: seq<Item>)
    requires multiset(v) == multiset(o)
    requires forall i, j :: 0 <= i < j < |v| ==> v[i].id != v[j].id
    ensures forall i, j :: 0 <= i < j < |o| ==> o[i].id != o[j].id
  {
    forall i, j | 0 <= i < j < |o| ensures o[i].id != o[j].id {
      assert o[i] in multiset(v) && o[j] in multiset(v);
      var a :| 0 <= a < |v| && v[a] == o[i];
      var b :| 0 <= b < |v| && v[b] == o[j];
      CountAtMostOne(v, o[i]);
      if o[i] == o[j] {
        CountAtLeastTwo(o, i, j);
      }
    }
  }

  // ---- preparation ----

  lemma InitReady(cfg: Config, t: Task, cache: seq<Token>, e: InitEnv)
    requires Ready(cfg, t, cache) && !t.run.initialized
    requires Agrees(cache, t.last) && t.ckpt <= t.last && !DraftLags(cfg, t, cache, e)
    ensures Ready(cfg, InitTask(cfg, t, cache, e), InitReuse(cfg, t, cache, e).cache)
  {
    ReuseIsPrefix(cfg, t, cache, e);
  }

  lemma DraftReady(cfg: Config, t: Task, cache: seq<Token>, mtp: bool, draft: seq<Token>)
    requires Ready(cfg, t, cache) && |draft| <= cfg.margin
    ensures Ready(cfg, t.(place := t.place.(mtp := mtp, draft := if t.run.promptDone then draft else t.place.draft)), cache)
  {
  }

  function PreparedTasks(cfg: Config, s: State, e: Env): Tasks {
    DraftTasks(InitTasks(cfg, s, e.init), s.loop.runnable, e.mtp, e.drafts)
  }

  lemma PreparedCache(cfg: Config, s: State, e: Env, id: nat)
    requires Inv(cfg, s) && s.loop.phase == Prepare && id in s.active && id in s.tasks
    ensures var t, q := s.tasks[id], s.tasks[id].req.slot;
            && q < |s.caches| && q < |s.slots| && s.slots[q].owner == Held(id)
            && TaskOk(cfg, Prepare, s.loop.batch, t, s.caches) && SlotOk(cfg, s.slots[q], s.caches[q], s.tasks, s.active)
            && CacheOf(InitCaches(cfg, s, e.init), q) == InitCache(cfg, s, q, e.init)
  {
  }

  lemma PreparedReady(cfg: Config, s: State, e: Env, id: nat)
    requires Inv(cfg, s) && s.loop.phase == Prepare && EnvOk(cfg, s, e)
    requires id in s.active && id in s.tasks
    ensures var t1 := PreparedTasks(cfg, s, e)[id];
            Ready(cfg, t1, CacheOf(InitCaches(cfg, s, e.init), t1.req.slot))
  {
    var t := s.tasks[id];
    var q := t.req.slot;
    PreparedCache(cfg, s, e, id);
    if NeedsInit(s.tasks, s.loop.runnable, id) {
      InitReady(cfg, t, s.caches[q], e.init(id));
      DraftReady(cfg, InitTask(cfg, t, s.caches[q], e.init(id)), InitReuse(cfg, t, s.caches[q], e.init(id)).cache, e.mtp(id), e.drafts(id));
    } else {
      DraftReady(cfg, t, s.caches[q], e.mtp(id), e.drafts(id));
    }
  }

  lemma PreparedAllOk(cfg: Config, s: State, e: Env)
    requires Inv(cfg, s) && s.loop.phase == Prepare && EnvOk(cfg, s, e)
    ensures AllOk(cfg, Building, s.loop.batch, s.active, PreparedTasks(cfg, s, e), InitCaches(cfg, s, e.init))
  {
    var tasks := PreparedTasks(cfg, s, e);
    forall id | id in s.active && id in tasks
      ensures TaskOk(cfg, Building, s.loop.batch, tasks[id], InitCaches(cfg, s, e.init))
    {
      PreparedReady(cfg, s, e, id);
    }
  }

  /** Preparation touches runnable tasks only, and keeps identity, flags, reservation and events. */
  lemma PreparedFrame(cfg: Config, s: State, e: Env)
    ensures var tasks := PreparedTasks(cfg, s, e);
            && tasks.Keys == s.tasks.Keys
            && forall id :: id in s.tasks ==>
                 var t, t1 := s.tasks[id], tasks[id];
                 && (id !in s.loop.runnable ==> t1 == t)
                 && t1.req == t.req && t1.last == t.last && t1.ckpt == t.ckpt && t1.flags == t.flags && t1.pool == t.pool
                 && (t.run.initialized ==> t1.run.initialized)
                 && (t1.run.initialized && !t.run.initialized ==> NeedsInit(s.tasks, s.loop.runnable, id))
                 && (id in s.loop.runnable && !Flagged(t) ==> t1.run.initialized)
  {
  }

  lemma PreparedSlots(cfg: Config, s: State, e: Env)
    requires Inv(cfg, s) && s.loop.phase == Prepare
    ensures AllSlots(cfg, s.slots, InitCaches(cfg, s, e.init), PreparedTasks(cfg, s, e), s.active)
  {
    var tasks, caches := PreparedTasks(cfg, s, e), InitCaches(cfg, s, e.init);
    PreparedFrame(cfg, s, e);
    forall q | 0 <= q < |s.slots| && q < |caches| ensures SlotOk(cfg, s.slots[q], caches[q], tasks, s.active) {
      assert SlotOk(cfg, s.slots[q], s.caches[q], s.tasks, s.active);
      assert caches[q] == InitCache(cfg, s, q, e.init);
      if s.slots[q].owner.Held? {
        var id := s.slots[q].owner.id;
        if !NeedsInit(s.tasks, s.loop.runnable, id) {
          assert caches[q] == s.caches[q];
        }
      }
    }
  }

  lemma PreparedWired(cfg: Config, s: State, e: Env)
    requires Inv(cfg, s) && s.loop.phase == Prepare
    ensures Wired(s.active, PreparedTasks(cfg, s, e), InitCaches(cfg, s, e.init), s.slots)
    ensures AllRetired(cfg, s.active, PreparedTasks(cfg, s, e))
  {
    PreparedFrame(cfg, s, e);
    PreparedRetired(cfg, s, e);
  }

  lemma PreparedRetired(cfg: Config, s: State, e: Env)
    requires Inv(cfg, s) && s.loop.phase == Prepare
    ensures AllRetired(cfg, s.active, PreparedTasks(cfg, s, e))
  {
    PreparedFrame(cfg, s, e);
    var tasks := PreparedTasks(cfg, s, e);
    forall id | id in tasks && id !in s.active ensures Retired(cfg, tasks[id]) {
      assert tasks[id] == s.tasks[id];
    }
  }

  lemma PreparedLoop(cfg: Config, s: State, tasks: Tasks, runnable: seq<nat>, turn: seq<nat>, limit: nat)
    requires LoopOk(s.active, s.loop) && TurnOk(cfg, s.tasks, s.active, s.loop) && s.loop.phase == Prepare
    requires tasks.Keys == s.tasks.Keys
    requires forall id :: id in s.tasks ==>
               var t, t1 := s.tasks[id], tasks[id];
               && t1.flags == t.flags && t1.pool == t.pool
               && (t1.run.initialized && !t.run.initialized ==> id in s.loop.runnable)
               && (id in s.loop.runnable && !Flagged(t) ==> t1.run.initialized)
    requires Distinct(runnable) && (forall x :: x in runnable <==> x in s.loop.runnable)
    requires Distinct(turn) && (forall x :: x in turn <==> x in s.loop.turn)
    ensures var loop := Loop(Building, s.loop.turnNo + 1, turn, runnable, limit, s.loop.batch);
            LoopOk(s.active, loop) && TurnOk(cfg, tasks, s.active, loop)
  {
  }

  lemma PreparedTurn(cfg: Config, s: State, e: Env)
    requires LoopOk(s.active, s.loop) && TurnOk(cfg, s.tasks, s.active, s.loop) && s.loop.phase == Prepare
    ensures var s1 := PrepareTurn(cfg, s, e.init, e.mtp, e.drafts);
            LoopOk(s1.active, s1.loop) && TurnOk(cfg, s1.tasks, s1.active, s1.loop)
  {
    var tasks := PreparedTasks(cfg, s, e);
    PreparedFrame(cfg, s, e);
    OrderIds(cfg, tasks, s.loop.runnable, cfg.nBatch, s.loop.turnNo);
    var (o, limit) := Order(Views(cfg, tasks, s.loop.runnable), cfg.nBatch, s.loop.turnNo);
    ReorderedTurn(s.loop.turn, Ids(o));
    PreparedLoop(cfg, s, tasks, Ids(o), Ids(o) + Without(s.loop.turn, ToSet(Ids(o))), limit);
  }

  lemma ReorderedTurn(turn: seq<nat>, runnable: seq<nat>)
    requires Distinct(turn) && Distinct(runnable) && forall x :: x in runnable ==> x in turn
    ensures var r := runnable + Without(turn, ToSet(runnable));
            Distinct(r) && forall x :: x in r <==> x in turn
  {
    var w := Without(turn, ToSet(runnable));
    WithoutDistinct(turn, ToSet(runnable));
    forall i, j | 0 <= i < j < |runnable + w| ensures (runnable + w)[i] != (runnable + w)[j] {
      if i < |runnable| <= j {
        assert w[j - |runnable|] in w;
      }
    }
  }

  lemma PrepareOk(cfg: Config, s: State, e: Env)
    requires Inv(cfg, s) && s.loop.phase == Prepare && EnvOk(cfg, s, e)
    ensures Inv(cfg, PrepareTurn(cfg, s, e.init, e.mtp, e.drafts))
  {
    PreparedTurn(cfg, s, e);
    PreparedWired(cfg, s, e);
    PreparedSlots(cfg, s, e);
    PreparedAllOk(cfg, s, e);
  }

  // ---- batch building ----

  /** Only progress and place in the batch may differ. */
  predicate SameCaller(t: Task, u: Task) {
    && u.req == t.req && u.last == t.last && u.ckpt == t.ckpt && u.flags == t.flags && u.pool == t.pool
    && u.sampler == t.sampler && u.outCkpt == t.outCkpt && u.events == t.events
  }

  /** Where one active task stands after the first k tasks of the turn have been visited. */
  ghost predicate Visited(cfg: Config, tasks: Tasks, caches: Caches, b: Batching, d: Caches, visited: bool, id: nat)
    requires id in tasks && id in b.tasks
  {
    var t, q := tasks[id], tasks[id].req.slot;
    if visited && Unblocked(cfg, t) then
      && SameCaller(t, b.tasks[id]) && Built(cfg, b.tasks[id], CacheOf(d, q), b.batch)
      && b.tasks[id].run.initialized
    else b.tasks[id] == t && CacheOf(d, q) == CacheOf(caches, q)
  }

  ghost predicate AllVisited(cfg: Config, s: State, caches: Caches, turn: seq<nat>, k: nat, b: Batching)
    requires k <= |turn| && b.tasks.Keys == s.tasks.Keys && DecodeRows(caches, b.batch).Kv?
  {
    forall id :: id in s.active && id in s.tasks ==>
      Visited(cfg, s.tasks, caches, b, DecodeRows(caches, b.batch).caches, id in turn[..k], id)
  }

  /** Retired tasks and their sequences are left alone, and flagged tasks are collected. */
  ghost predicate Collected(s: State, caches: Caches, turn: seq<nat>, k: nat, b: Batching)
    requires k <= |turn|
  {
    CollectedWith(s, caches, turn, k, b, DecodeRows(caches, b.batch))
  }

  ghost predicate CollectedWith(s: State, caches: Caches, turn: seq<nat>, k: nat, b: Batching, d: Kv)
    requires k <= |turn|
  {
    && b.tasks.Keys == s.tasks.Keys
    && d.Kv? && |d.caches| == |caches|
    && (forall id :: id in s.tasks && id !in s.active ==> b.tasks[id] == s.tasks[id])
    && (forall q :: 0 <= q < |caches| && q < |s.slots| && !(s.slots[q].owner.Held? && s.slots[q].owner.id in s.active) ==>
          d.caches[q] == caches[q])
    && (forall id :: id in b.cancelled <==> id in turn[..k] && Get(s.tasks, id).flags.cancel)
    && (forall id :: id in b.stopped <==> id in turn[..k] && !Get(s.tasks, id).flags.cancel && Get(s.tasks, id).flags.stop)
    && (b.batch == [] ==> b.tasks == s.tasks)
  }

  ghost predicate BatchMid(cfg: Config, s: State, caches: Caches, turn: seq<nat>, k: nat, b: Batching)
    requires k <= |turn|
  {
    Collected(s, caches, turn, k, b) && AllVisited(cfg, s, caches, turn, k, b)
  }

  lemma BuildNothing(cfg: Config, t: Task, used: nat, limit: nat)
    requires Build(cfg, t, used, limit).rows == []
    ensures BuildTask(cfg, t, used, limit) == t
  {
  }

  /** Visiting an unblocked task. */
  lemma VisitOne(cfg: Config, s: State, caches: Caches, b: Batching, id: nat, limit: nat)
    requires Wired(s.active, s.tasks, caches, s.slots) && id in s.active
    requires b.tasks.Keys == s.tasks.Keys && DecodeRows(caches, b.batch).Kv?
    requires Unblocked(cfg, s.tasks[id]) && s.tasks[id].run.initialized && b.tasks[id] == s.tasks[id]
    requires Ready(cfg, s.tasks[id], CacheOf(caches, s.tasks[id].req.slot))
    requires CacheOf(DecodeRows(caches, b.batch).caches, s.tasks[id].req.slot) == CacheOf(caches, s.tasks[id].req.slot)
    ensures var b1 := BatchOne(cfg, b, id, limit);
            var d, d1, q := DecodeRows(caches, b.batch).caches, DecodeRows(caches, b1.batch), s.tasks[id].req.slot;
            && d1.Kv? && (forall p :: 0 <= p < |caches| && p != q ==> d1.caches[p] == d[p])
            && Visited(cfg, s.tasks, caches, b1, d1.caches, true, id)
            && b1 == Batching(b.tasks[id := b1.tasks[id]], b.batch + Build(cfg, s.tasks[id], |b.batch|, limit).rows, b.cancelled, b.stopped)
  {
    var t := s.tasks[id];
    var ids := BuildKeeps(cfg, t, CacheOf(caches, t.req.slot), b.batch, limit);
    DecodeBlock(caches, b.batch, Build(cfg, t, |b.batch|, limit).rows, t.req.slot, ids);
  }

  lemma VisitOthers(cfg: Config, tasks: Tasks, caches: Caches, b: Batching, d: Caches, visited: bool, x: nat, b1: Batching,
                    d1: Caches, more: seq<Row>)
    requires x in tasks && x in b.tasks && x in b1.tasks && Visited(cfg, tasks, caches, b, d, visited, x)
    requires b1.tasks[x] == b.tasks[x] && b1.batch == b.batch + more
    requires CacheOf(d1, tasks[x].req.slot) == CacheOf(d, tasks[x].req.slot)
    ensures Visited(cfg, tasks, caches, b1, d1, visited, x)
  {
    if visited && Unblocked(cfg, tasks[x]) {
      BuiltGrows(cfg, b.tasks[x], CacheOf(d, tasks[x].req.slot), b.batch, more);
    }
  }

  lemma BatchStepBlocked(cfg: Config, s: State, caches: Caches, turn: seq<nat>, k: nat, b: Batching, limit: nat)
    requires k < |turn| && Distinct(turn) && turn[k] in s.active && turn[k] in s.tasks
    requires BatchMid(cfg, s, caches, turn, k, b) && !Unblocked(cfg, s.tasks[turn[k]])
    ensures BatchMid(cfg, s, caches, turn, k + 1, BatchOne(cfg, b, turn[k], limit))
  {
    var id := turn[k];
    assert turn[..k + 1] == turn[..k] + [id];
    assert Visited(cfg, s.tasks, caches, b, DecodeRows(caches, b.batch).caches, id in turn[..k], id);
    BlockedStays(cfg, b, id, limit);
    BlockedVisited(cfg, s, caches, turn, k, b, BatchOne(cfg, b, id, limit));
  }

  /** A task that cannot run leaves tasks and batch as they are. */
  lemma BlockedStays(cfg: Config, b: Batching, id: nat, limit: nat)
    requires !Unblocked(cfg, Get(b.tasks, id))
    ensures BatchOne(cfg, b, id, limit).tasks == b.tasks && BatchOne(cfg, b, id, limit).batch == b.batch
  {
  }

  lemma BlockedVisited(cfg: Config, s: State, caches: Caches, turn: seq<nat>, k: nat, b: Batching, b1: Batching)
    requires k < |turn| && turn[k] in s.tasks && turn[..k + 1] == turn[..k] + [turn[k]]
    requires b.tasks.Keys == s.tasks.Keys && DecodeRows(caches, b.batch).Kv? && AllVisited(cfg, s, caches, turn, k, b)
    requires !Unblocked(cfg, s.tasks[turn[k]]) && b1.tasks == b.tasks && b1.batch == b.batch
    ensures AllVisited(cfg, s, caches, turn, k + 1, b1)
  {
    forall id | id in s.active && id in s.tasks
      ensures Visited(cfg, s.tasks, caches, b1, DecodeRows(caches, b.batch).caches, id in turn[..k + 1], id)
    {
      assert Visited(cfg, s.tasks, caches, b, DecodeRows(caches, b.batch).caches, id in turn[..k], id);
    }
  }

  lemma BatchStepOpen(cfg: Config, s: State, caches: Caches, turn: seq<nat>, k: nat, b: Batching, limit: nat)
    requires Wired(s.active, s.tasks, caches, s.slots)
    requires k < |turn| && Distinct(turn) && turn[k] in s.active
    requires BatchMid(cfg, s, caches, turn, k, b)
    requires var t := s.tasks[turn[k]];
             Unblocked(cfg, t) && t.run.initialized && Ready(cfg, t, CacheOf(caches, t.req.slot))
    ensures BatchMid(cfg, s, caches, turn, k + 1, BatchOne(cfg, b, turn[k], limit))
  {
    var id := turn[k];
    var t := s.tasks[id];
    assert turn[..k + 1] == turn[..k] + [id] && id !in turn[..k];
    assert Visited(cfg, s.tasks, caches, b, DecodeRows(caches, b.batch).caches, false, id);
    VisitOne(cfg, s, caches, b, id, limit);
    var rows := Build(cfg, t, |b.batch|, limit).rows;
    if rows == [] {
      BuildNothing(cfg, t, |b.batch|, limit);
    }
    BatchJoin(cfg, s, caches, turn, k, b, BatchOne(cfg, b, id, limit).tasks[id], rows);
  }

  lemma BatchJoin(cfg: Config, s: State, caches: Caches, turn: seq<nat>, k: nat, b: Batching, t1: Task, rows: seq<Row>)
    requires Wired(s.active, s.tasks, caches, s.slots)
    requires k < |turn| && turn[k] in s.active && turn[..k + 1] == turn[..k] + [turn[k]] && !Flagged(s.tasks[turn[k]])
    requires Collected(s, caches, turn, k, b) && AllVisited(cfg, s, caches, turn, k, b)
    requires DecodeRows(caches, b.batch + rows).Kv?
    requires forall p :: 0 <= p < |caches| && p != s.tasks[turn[k]].req.slot ==>
               DecodeRows(caches, b.batch + rows).caches[p] == DecodeRows(caches, b.batch).caches[p]
    requires var b1 := Batching(b.tasks[turn[k] := t1], b.batch + rows, b.cancelled, b.stopped);
             Visited(cfg, s.tasks, caches, b1, DecodeRows(caches, b1.batch).caches, true, turn[k])
    requires rows == [] ==> t1 == s.tasks[turn[k]]
    ensures BatchMid(cfg, s, caches, turn, k + 1, Batching(b.tasks[turn[k] := t1], b.batch + rows, b.cancelled, b.stopped))
  {
    JoinCollected(s, caches, turn, k, b, t1, rows);
    VisitRest(cfg, s, caches, turn, k, b, Batching(b.tasks[turn[k] := t1], b.batch + rows, b.cancelled, b.stopped), rows);
  }

  lemma JoinCollected(s: State, caches: Caches, turn: seq<nat>, k: nat, b: Batching, t1: Task, rows: seq<Row>)
    requires Wired(s.active, s.tasks, caches, s.slots)
    requires k < |turn| && turn[k] in s.active && turn[..k + 1] == turn[..k] + [turn[k]] && !Flagged(s.tasks[turn[k]])
    requires Collected(s, caches, turn, k, b)
    requires DecodeRows(caches, b.batch + rows).Kv?
    requires forall p :: 0 <= p < |caches| && p != s.tasks[turn[k]].req.slot ==>
               DecodeRows(caches, b.batch + rows).caches[p] == DecodeRows(caches, b.batch).caches[p]
    requires rows == [] ==> t1 == s.tasks[turn[k]]
    ensures Collected(s, caches, turn, k + 1, Batching(b.tasks[turn[k] := t1], b.batch + rows, b.cancelled, b.stopped))
  {
    assert b.batch + rows == [] ==> b.batch == [] && rows == [];
    JoinWith(s, caches, turn, k, b, t1, b.batch + rows, DecodeRows(caches, b.batch), DecodeRows(caches, b.batch + rows));
  }

  lemma JoinWith(s: State, caches: Caches, turn: seq<nat>, k: nat, b: Batching, t1: Task, batch: seq<Row>, d: Kv, d1: Kv)
    requires Wired(s.active, s.tasks, caches, s.slots)
    requires k < |turn| && turn[k] in s.active && turn[..k + 1] == turn[..k] + [turn[k]] && !Flagged(s.tasks[turn[k]])
    requires CollectedWith(s, caches, turn, k, b, d) && d1.Kv? && |d1.caches| == |caches|
    requires forall p :: 0 <= p < |caches| && p != s.tasks[turn[k]].req.slot ==> d1.caches[p] == d.caches[p]
    requires batch == [] ==> b.batch == [] && t1 == s.tasks[turn[k]]
    ensures CollectedWith(s, caches, turn, k + 1, Batching(b.tasks[turn[k] := t1], batch, b.cancelled, b.stopped), d1)
  {
    JoinIdle(s, caches, turn[k], d.caches, d1.caches);
    JoinFlags(s.tasks, turn, k, b);
  }

  /** Sequences that no active task holds are not written. */
  lemma JoinIdle(s: State, caches: Caches, id: nat, d: Caches, d1: Caches)
    requires Wired(s.active, s.tasks, caches, s.slots) && id in s.active && |d| == |caches| == |d1|
    requires forall p :: 0 <= p < |caches| && p != s.tasks[id].req.slot ==> d1[p] == d[p]
    requires forall q :: 0 <= q < |caches| && q < |s.slots| && !(s.slots[q].owner.Held? && s.slots[q].owner.id in s.active) ==> d[q] == caches[q]
    ensures forall q :: 0 <= q < |caches| && q < |s.slots| && !(s.slots[q].owner.Held? && s.slots[q].owner.id in s.active) ==> d1[q] == caches[q]
  {
  }

  /** A task that is not flagged adds nothing to the lists of the flagged. */
  lemma JoinFlags(tasks: Tasks, turn: seq<nat>, k: nat, b: Batching)
    requires k < |turn| && turn[..k + 1] == turn[..k] + [turn[k]] && turn[k] in tasks && !Flagged(tasks[turn[k]])
    requires forall id :: id in b.cancelled <==> id in turn[..k] && Get(tasks, id).flags.cancel
    requires forall id :: id in b.stopped <==> id in turn[..k] && !Get(tasks, id).flags.cancel && Get(tasks, id).flags.stop
    ensures forall id :: id in b.cancelled <==> id in turn[..k + 1] && Get(tasks, id).flags.cancel
    ensures forall id :: id in b.stopped <==> id in turn[..k + 1] && !Get(tasks, id).flags.cancel && Get(tasks, id).flags.stop
  {
  }

  lemma VisitRest(cfg: Config, s: State, caches: Caches, turn: seq<nat>, k: nat, b: Batching, b1: Batching, rows: seq<Row>)
    requires Wired(s.active, s.tasks, caches, s.slots)
    requires k < |turn| && turn[k] in s.active && turn[..k + 1] == turn[..k] + [turn[k]]
    requires b.tasks.Keys == s.tasks.Keys && DecodeRows(caches, b.batch).Kv? && AllVisited(cfg, s, caches, turn, k, b)
    requires b1.tasks.Keys == s.tasks.Keys && b1.batch == b.batch + rows && DecodeRows(caches, b1.batch).Kv?
    requires forall x :: x in s.tasks && x != turn[k] ==> b1.tasks[x] == b.tasks[x]
    requires forall p :: 0 <= p < |caches| && p != s.tasks[turn[k]].req.slot ==>
               DecodeRows(caches, b1.batch).caches[p] == DecodeRows(caches, b.batch).caches[p]
    requires Visited(cfg, s.tasks, caches, b1, DecodeRows(caches, b1.batch).caches, true, turn[k])
    ensures AllVisited(cfg, s, caches, turn, k + 1, b1)
  {
    var d, d1 := DecodeRows(caches, b.batch).caches, DecodeRows(caches, b1.batch).caches;
    forall x | x in s.active && x in s.tasks ensures Visited(cfg, s.tasks, caches, b1, d1, x in turn[..k + 1], x) {
      if x != turn[k] {
        assert s.tasks[x].req.slot != s.tasks[turn[k]].req.slot;
        VisitOthers(cfg, s.tasks, caches, b, d, x in turn[..k], x, b1, d1, rows);
      }
    }
  }

  /** Ready for batching from the given caches. */
  ghost predicate BatchPre(cfg: Config, s: State, caches: Caches) {
    && Wired(s.active, s.tasks, caches, s.slots)
    && Distinct(s.loop.turn) && (forall id :: id in s.loop.turn ==> id in s.active)
    && forall id :: id in s.loop.turn && id in s.tasks && Unblocked(cfg, s.tasks[id]) ==>
         s.tasks[id].run.initialized && Ready(cfg, s.tasks[id], CacheOf(caches, s.tasks[id].req.slot))
  }

  lemma BatchStep(cfg: Config, s: State, caches: Caches, k: nat, b: Batching, b1: Batching)
    requires BatchPre(cfg, s, caches) && 0 < k <= |s.loop.turn|
    requires BatchMid(cfg, s, caches, s.loop.turn, k - 1, b)
    requires b1 == BatchOne(cfg, b, s.loop.turn[k - 1], s.loop.limit)
    ensures BatchMid(cfg, s, caches, s.loop.turn, k, b1)
  {
    var id := s.loop.turn[k - 1];
    assert id in s.active && id in s.tasks;
    if Unblocked(cfg, s.tasks[id]) {
      BatchStepOpen(cfg, s, caches, s.loop.turn, k - 1, b, s.loop.limit);
    } else {
      BatchStepBlocked(cfg, s, caches, s.loop.turn, k - 1, b, s.loop.limit);
    }
  }

  lemma {:induction false} BatchEffect(cfg: Config, s: State, caches: Caches, k: nat)
    requires BatchPre(cfg, s, caches) && k <= |s.loop.turn|
    ensures BatchMid(cfg, s, caches, s.loop.turn, k, BatchAll(cfg, s.loop.turn, k, s.tasks, s.loop.limit))
  {
    if k == 0 {
      BatchStart(cfg, s, caches);
    } else {
      BatchEffect(cfg, s, caches, k - 1);
      BatchStep(cfg, s, caches, k, BatchAll(cfg, s.loop.turn, k - 1, s.tasks, s.loop.limit),
                BatchAll(cfg, s.loop.turn, k, s.tasks, s.loop.limit));
    }
  }

  lemma BatchStart(cfg: Config, s: State, caches: Caches)
    ensures BatchMid(cfg, s, caches, s.loop.turn, 0, Batching(s.tasks, [], {}, {}))
  {
  }
}
