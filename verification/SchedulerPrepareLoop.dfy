/** The loops that initialise tasks,
    hand out drafts and order the batch. */
module SchedulerPrepareLoop {
  import opened Generation
  import opened BatchOrder
  import opened SlotTask
  import opened SlotTaskProofs
  import opened Scheduler
  import opened SchedulerInv
  import opened SchedulerLoops

  // ---- init_task ----

  lemma CommonLenIs(a: seq<Token>, b: seq<Token>, n: nat)
    requires n <= |a| && n <= |b| && a[..n] == b[..n] && (n < |a| && n < |b| ==> a[n] != b[n])
    ensures CommonLen(a, b) == n
  {
  }

  method CommonPrefix(a: seq<Token>, b: seq<Token>) returns (n: nat)
    ensures n == CommonLen(a, b)
  {
    n := 0;
    while n < |a| && n < |b| && a[n] == b[n]
      invariant n <= |a| && n <= |b| && a[..n] == b[..n]
    {
      assert a[..n + 1] == a[..n] + [a[n]] && b[..n + 1] == b[..n] + [b[n]];
      n := n + 1;
    }
    CommonLenIs(a, b, n);
  }

  method ReusablePrefix(last: seq<Token>, prompt: seq<Token>) returns (n: nat)
    ensures n == Reusable(last, prompt)
  {
    n := CommonPrefix(last, prompt);
    if n >= |prompt| && n > 0 {
      n := n - 1;
    }
  }

  /** What init_task decides about the cache, branch by branch. */
  method DecideReuse(cfg: Config, t: Task, cache: seq<Token>, e: InitEnv) returns (r: Reuse)
    ensures r == InitReuse(cfg, t, cache, e)
  {
    var past := ReusablePrefix(t.last, t.req.prompt);
    if e.eligible && !e.synced {
      if !(0 < t.req.maxTokens <= cfg.margin + 2 && Min(past, |cache|) >= cfg.nBatch) {
        return Reuse(0, [], []);
      }
    }
    if past == 0 {
      return Reuse(0, [], []);
    }
    var withDraft := UsesDraft(e);
    var physical := |cache|;
    if withDraft {
      physical := Min(physical, e.draftLen);
    }
    var usable := CkptUsable(cfg, t, past, e);
    var handed := [];
    if |t.ckpt| == t.req.capturePos && usable {
      handed := t.ckpt;
    }
    var n := Min(past, physical);
    if n <= 0 {
      return Reuse(0, [], handed);
    }
    if n >= physical {
      return Reuse(n, cache, handed);
    }
    if !e.trimTarget || (withDraft && !e.trimDraft) {
      if usable && e.restored && e.trimCkpt {
        return Reuse(|t.ckpt|, (t.ckpt + e.junk)[..|t.ckpt|], handed);
      }
      return Reuse(0, [], handed);
    }
    return Reuse(n, cache[..n], handed);
  }

  /** The state as if only the first i runnable tasks were runnable. */
  function Upto(s: State, i: nat): State
    requires i <= |s.loop.runnable|
  {
    s.(loop := s.loop.(runnable := s.loop.runnable[..i]))
  }

  ghost predicate CanInit(s: State) {
    && Wired(s.active, s.tasks, s.caches, s.slots) && Distinct(s.loop.runnable)
    && forall id :: id in s.loop.runnable ==> id in s.active
  }

  lemma InitTasksOne(cfg: Config, s: State, init: nat -> InitEnv, i: nat)
    requires CanInit(s) && i < |s.loop.runnable|
    ensures var id := s.loop.runnable[i];
            && id in s.tasks && InitTasks(cfg, Upto(s, i), init)[id] == s.tasks[id]
            && InitTasks(cfg, Upto(s, i + 1), init) ==
               if !Flagged(s.tasks[id]) && !s.tasks[id].run.initialized
               then InitTasks(cfg, Upto(s, i), init)[id := InitTask(cfg, s.tasks[id], CacheOf(s.caches, s.tasks[id].req.slot), init(id))]
               else InitTasks(cfg, Upto(s, i), init)
  {
    NotBefore(s.loop.runnable, i);
    Snoc(s.loop.runnable, i);
  }

  lemma InitCacheOne(cfg: Config, s: State, init: nat -> InitEnv, i: nat, q: nat)
    requires CanInit(s) && i < |s.loop.runnable| && q < |s.caches|
    ensures var id := s.loop.runnable[i];
            && id in s.tasks
            && InitCache(cfg, Upto(s, i + 1), q, init) ==
               (if q == s.tasks[id].req.slot && !Flagged(s.tasks[id]) && !s.tasks[id].run.initialized
                then InitReuse(cfg, s.tasks[id], s.caches[q], init(id)).cache
                else InitCache(cfg, Upto(s, i), q, init))
            && (q == s.tasks[id].req.slot ==> InitCache(cfg, Upto(s, i), q, init) == s.caches[q])
  {
    NotBefore(s.loop.runnable, i);
    Snoc(s.loop.runnable, i);
  }

  lemma InitCachesOne(cfg: Config, s: State, init: nat -> InitEnv, i: nat)
    requires CanInit(s) && i < |s.loop.runnable|
    ensures var id := s.loop.runnable[i];
            && id in s.tasks && s.tasks[id].req.slot < |s.caches|
            && InitCaches(cfg, Upto(s, i), init)[s.tasks[id].req.slot] == s.caches[s.tasks[id].req.slot]
            && InitCaches(cfg, Upto(s, i + 1), init) ==
               if !Flagged(s.tasks[id]) && !s.tasks[id].run.initialized
               then InitCaches(cfg, Upto(s, i), init)
                      [s.tasks[id].req.slot := InitReuse(cfg, s.tasks[id], s.caches[s.tasks[id].req.slot], init(id)).cache]
               else InitCaches(cfg, Upto(s, i), init)
  {
    assert s.loop.runnable[i] in s.loop.runnable;
    forall q | 0 <= q < |s.caches| { InitCacheOne(cfg, s, init, i, q); }
  }

  lemma InitNothing(cfg: Config, s: State, init: nat -> InitEnv)
    ensures InitTasks(cfg, Upto(s, 0), init) == s.tasks && InitCaches(cfg, Upto(s, 0), init) == s.caches
  {
    assert s.loop.runnable[..0] == [];
  }

  /** Initialises every runnable task that is new and not flagged. */
  method InitRunnable(cfg: Config, ghost s: State, before: Tasks, runnable: seq<nat>, init: nat -> InitEnv, kept: Caches)
    returns (tasks: Tasks, caches: Caches)
    requires CanInit(s) && before == s.tasks && kept == s.caches && runnable == s.loop.runnable
    ensures tasks == InitTasks(cfg, s, init) && caches == InitCaches(cfg, s, init)
  {
    tasks, caches := before, kept;
    InitNothing(cfg, s, init);
    var i := 0;
    while i < |runnable|
      invariant i <= |runnable|
      invariant tasks == InitTasks(cfg, Upto(s, i), init) && caches == InitCaches(cfg, Upto(s, i), init)
    {
      InitTasksOne(cfg, s, init, i);
      InitCachesOne(cfg, s, init, i);
      var id := runnable[i];
      var t := tasks[id];
      if !Flagged(t) && !t.run.initialized {
        var r := DecideReuse(cfg, t, caches[t.req.slot], init(id));
        tasks := tasks[id := t.(run := t.run.(initialized := true, promptPos := r.pos, nPos := r.pos, cached := r.pos),
                                outCkpt := r.outCkpt)];
        caches := caches[t.req.slot := r.cache];
      }
      i := i + 1;
    }
    Whole(runnable);
    assert Upto(s, i) == s;
  }

  // ---- drafting ----

  function Drafted(t: Task, mtp: bool, draft: seq<Token>): Task {
    t.(place := t.place.(mtp := mtp, draft := if t.run.promptDone then draft else t.place.draft))
  }

  lemma DraftOne(tasks: Tasks, ids: seq<nat>, i: nat, mtp: nat -> bool, drafts: nat -> seq<Token>)
    requires Known(ids, tasks) && i < |ids|
    ensures ids[i] in tasks && DraftTasks(tasks, ids[..i], mtp, drafts)[ids[i]] == tasks[ids[i]]
    ensures DraftTasks(tasks, ids[..i + 1], mtp, drafts)
         == DraftTasks(tasks, ids[..i], mtp, drafts)[ids[i] := Drafted(tasks[ids[i]], mtp(ids[i]), drafts(ids[i]))]
  {
    NotBefore(ids, i);
    Snoc(ids, i);
  }

  method DraftRunnable(tasks: Tasks, ids: seq<nat>, mtp: nat -> bool, drafts: nat -> seq<Token>) returns (r: Tasks)
    requires Known(ids, tasks)
    ensures r == DraftTasks(tasks, ids, mtp, drafts)
  {
    r := tasks;
    assert DraftTasks(tasks, ids[..0], mtp, drafts) == tasks;
    var i := 0;
    while i < |ids|
      invariant i <= |ids| && r == DraftTasks(tasks, ids[..i], mtp, drafts)
    {
      DraftOne(tasks, ids, i, mtp, drafts);
      var t := r[ids[i]];
      var place := t.place.(mtp := mtp(ids[i]));
      if t.run.promptDone {
        place := place.(draft := drafts(ids[i]));
      }
      r := r[ids[i] := t.(place := place)];
      i := i + 1;
    }
    Whole(ids);
  }

  // ---- the order of the turn ----

  /** The runnable tasks in batch order, and the prompt tokens each of them may put in. */
  method OrderRunnable(cfg: Config, tasks: Tasks, ids: seq<nat>, turnNo: nat) returns (r: seq<nat>, limit: nat)
    ensures (r, limit) == (Ids(Order(Views(cfg, tasks, ids), cfg.nBatch, turnNo).0), Order(Views(cfg, tasks, ids), cfg.nBatch, turnNo).1)
  {
    var views := Views(cfg, tasks, ids);
    var items := new Item[|views|](i requires 0 <= i < |views| => views[i]);
    assert items[..] == views;
    limit := PrepareBatchOrder(items, cfg.nBatch, turnNo);
    r := Ids(items[..]);
  }

  /** The other tasks of the turn follow the runnable ones. */
  method AppendOthers(runnable: seq<nat>, turn: seq<nat>) returns (r: seq<nat>)
    ensures r == runnable + Without(turn, ToSet(runnable))
  {
    r := runnable;
    var i := 0;
    while i < |turn|
      invariant i <= |turn| && r == runnable + Without(turn[..i], ToSet(runnable))
    {
      Snoc(turn, i);
      WithoutSnoc(turn[..i], turn[i], ToSet(runnable));
      if turn[i] !in runnable {
        r := r + [turn[i]];
      }
      i := i + 1;
    }
    Whole(turn);
  }

  lemma InitKeys(cfg: Config, s: State, init: nat -> InitEnv)
    ensures InitTasks(cfg, s, init).Keys == s.tasks.Keys
  {
  }

  datatype Prepared = Prepared(tasks: Tasks, caches: Caches, runnable: seq<nat>, limit: nat, turn: seq<nat>)

  ghost function PutBack(s: State, p: Prepared): State {
    s.(tasks := p.tasks, caches := p.caches,
       loop := s.loop.(phase := Building, turnNo := s.loop.turnNo + 1, runnable := p.runnable, limit := p.limit, turn := p.turn))
  }

  /** All of the preparation. */
  method PrepareAll(cfg: Config, ghost s: State, tasks: Tasks, caches: Caches, runnable: seq<nat>, turn: seq<nat>, turnNo: nat,
                    init: nat -> InitEnv, mtp: nat -> bool, drafts: nat -> seq<Token>) returns (p: Prepared)
    requires CanInit(s) && Known(runnable, tasks) && tasks == s.tasks && caches == s.caches
    requires runnable == s.loop.runnable && turn == s.loop.turn && turnNo == s.loop.turnNo
    ensures PutBack(s, p) == PrepareTurn(cfg, s, init, mtp, drafts)
  {
    var tasks1, caches1 := InitRunnable(cfg, s, tasks, runnable, init, caches);
    InitKeys(cfg, s, init);
    var tasks2 := DraftRunnable(tasks1, runnable, mtp, drafts);
    var ordered, limit := OrderRunnable(cfg, tasks2, runnable, turnNo);
    var rest := AppendOthers(ordered, turn);
    p := Prepared(tasks2, caches1, ordered, limit, rest);
  }
}
