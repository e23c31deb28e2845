/** The batch that a turn builds is the one its order plans. */
module SchedulerPlan {
  import opened Generation
  import opened BatchOrder
  import opened SlotTask
  import opened SlotTaskProofs
  import opened Scheduler
  import opened SchedulerInv
  import opened SchedulerTurn
  import opened SchedulerLoops
  import opened SchedulerRun

  /** Tasks whose turn has not come are as they were. */
  lemma {:induction false} NotYet(cfg: Config, turn: seq<nat>, k: nat, tasks: Tasks, limit: nat, id: nat)
    requires k <= |turn| && id !in turn[..k]
    ensures Get(BatchAll(cfg, turn, k, tasks, limit).tasks, id) == Get(tasks, id)
  {
    if k == 0 {
    } else {
      Snoc(turn, k - 1);
      NotYet(cfg, turn, k - 1, tasks, limit, id);
    }
  }

  /** The rows that the k-th task of the turn puts in. */
  function RowsOf(cfg: Config, turn: seq<nat>, k: nat, tasks: Tasks, limit: nat): int
    requires k < |turn|
  {
    |BatchAll(cfg, turn, k + 1, tasks, limit).batch| - |BatchAll(cfg, turn, k, tasks, limit).batch|
  }

  /** One task puts in what the plan gives it, or nothing if it waits for the pool. */
  lemma PlannedRows(cfg: Config, turn: seq<nat>, k: nat, tasks: Tasks, limit: nat)
    requires Distinct(turn) && k < |turn| && turn[k] in tasks
    ensures var t, used := tasks[turn[k]], |BatchAll(cfg, turn, k, tasks, limit).batch|;
            RowsOf(cfg, turn, k, tasks, limit) ==
            if Flagged(t) || (cfg.bounded && !t.pool.admitted) then 0 else Take(View(cfg, turn[k], t), used, cfg.nBatch, limit)
  {
    NotBefore(turn, k);
    NotYet(cfg, turn, k, tasks, limit, turn[k]);
    var t, used := tasks[turn[k]], |BatchAll(cfg, turn, k, tasks, limit).batch|;
    if !Flagged(t) {
      BlockIsTake(cfg, turn[k], t, used, limit);
    }
  }

  ghost predicate MayRun(cfg: Config, tasks: Tasks, turn: seq<nat>, k: nat)
    requires k <= |turn|
  {
    forall i :: 0 <= i < k && turn[i] in tasks ==> Flagged(tasks[turn[i]]) || !cfg.bounded || tasks[turn[i]].pool.admitted
  }

  lemma ViewsPrefix(cfg: Config, tasks: Tasks, turn: seq<nat>, i: nat, k: nat)
    requires i <= k <= |turn|
    ensures Views(cfg, tasks, turn[..k])[..i] == Views(cfg, tasks, turn[..i])
    ensures i < k ==> Views(cfg, tasks, turn[..k])[i] == View(cfg, turn[i], Get(tasks, turn[i]))
  {
  }

  lemma UsedNext(v: seq<Item>, capacity: int, limit: nat)
    requires v != []
    ensures Used(v, capacity, limit) == Used(v[..|v| - 1], capacity, limit) + Share(v, |v| - 1, capacity, limit)
  {
  }

  /** The first k tasks, all of them runnable, fill the batch as planned. */
  lemma {:induction false} FollowsPlan(cfg: Config, turn: seq<nat>, k: nat, tasks: Tasks, limit: nat)
    requires Known(turn, tasks) && k <= |turn| && MayRun(cfg, tasks, turn, k)
    ensures |BatchAll(cfg, turn, k, tasks, limit).batch| == Used(Views(cfg, tasks, turn[..k]), cfg.nBatch, limit)
  {
    if k == 0 {
    } else {
      FollowsPlan(cfg, turn, k - 1, tasks, limit);
      assert turn[k - 1] in turn;
      PlannedRows(cfg, turn, k - 1, tasks, limit);
      ViewsPrefix(cfg, tasks, turn, k - 1, k);
      UsedNext(Views(cfg, tasks, turn[..k]), cfg.nBatch, limit);
    }
  }

  /** Each runnable task puts in its share of the plan. */
  lemma RowsAreShare(cfg: Config, turn: seq<nat>, i: nat, k: nat, tasks: Tasks, limit: nat)
    requires Known(turn, tasks) && i < k <= |turn| && MayRun(cfg, tasks, turn, k)
    ensures RowsOf(cfg, turn, i, tasks, limit) == Share(Views(cfg, tasks, turn[..k]), i, cfg.nBatch, limit)
  {
    FollowsPlan(cfg, turn, i, tasks, limit);
    assert turn[i] in turn;
    PlannedRows(cfg, turn, i, tasks, limit);
    ViewsPrefix(cfg, tasks, turn, i, k);
  }

  /** Tasks behind the runnable ones put in nothing. */
  lemma {:induction false} RestAddsNothing(cfg: Config, turn: seq<nat>, m: nat, k: nat, tasks: Tasks, limit: nat)
    requires Known(turn, tasks) && m <= k <= |turn|
    requires forall i :: m <= i < |turn| ==> !Unblocked(cfg, tasks[turn[i]])
    ensures |BatchAll(cfg, turn, k, tasks, limit).batch| == |BatchAll(cfg, turn, m, tasks, limit).batch|
  {
    if m == k {
    } else {
      RestAddsNothing(cfg, turn, m, k - 1, tasks, limit);
      BlockedAddsNothing(cfg, turn, k - 1, tasks, limit);
    }
  }

  lemma BlockedAddsNothing(cfg: Config, turn: seq<nat>, k: nat, tasks: Tasks, limit: nat)
    requires Known(turn, tasks) && k < |turn| && turn[k] in tasks && !Unblocked(cfg, tasks[turn[k]])
    ensures RowsOf(cfg, turn, k, tasks, limit) == 0
  {
    PlannedRows(cfg, turn, k, tasks, limit);
  }

  // ---- a whole turn ----

  /** The order that a prepared turn was given. */
  function Plan(cfg: Config, p: State): seq<Item> { Views(cfg, p.tasks, p.loop.runnable) }

  /** The plan of a turn, whose tasks are prepared and not yet built. */
  ghost predicate Planned(cfg: Config, p: State) {
    && Known(p.loop.turn, p.tasks) && |p.loop.runnable| <= |p.loop.turn|
    && p.loop.turn[..|p.loop.runnable|] == p.loop.runnable
    && MayRun(cfg, p.tasks, p.loop.turn, |p.loop.runnable|)
    && forall i :: |p.loop.runnable| <= i < |p.loop.turn| ==> !Unblocked(cfg, p.tasks[p.loop.turn[i]])
  }

  /** The batch of a planned turn is the plan, task by task. */
  lemma BatchIsPlan(cfg: Config, p: State)
    requires Planned(cfg, p)
    ensures |BuildTurn(cfg, p).loop.batch| == Used(Plan(cfg, p), cfg.nBatch, p.loop.limit)
    ensures forall i :: 0 <= i < |p.loop.runnable| ==>
              RowsOf(cfg, p.loop.turn, i, p.tasks, p.loop.limit) == Share(Plan(cfg, p), i, cfg.nBatch, p.loop.limit)
  {
    var m, turn := |p.loop.runnable|, p.loop.turn;
    FollowsPlan(cfg, turn, m, p.tasks, p.loop.limit);
    RestAddsNothing(cfg, turn, m, |turn|, p.tasks, p.loop.limit);
    forall i | 0 <= i < m ensures RowsOf(cfg, turn, i, p.tasks, p.loop.limit) == Share(Plan(cfg, p), i, cfg.nBatch, p.loop.limit) {
      RowsAreShare(cfg, turn, i, m, p.tasks, p.loop.limit);
    }
  }

  /** Ordering the views of tasks gives the views of the ordered tasks. */
  lemma OrderedViews(cfg: Config, tasks: Tasks, ids: seq<nat>, o: seq<Item>)
    requires multiset(o) == multiset(Views(cfg, tasks, ids))
    ensures Views(cfg, tasks, Ids(o)) == o
  {
    forall i | 0 <= i < |o| ensures o[i] == View(cfg, o[i].id, Get(tasks, o[i].id)) {
      assert o[i] in multiset(Views(cfg, tasks, ids));
    }
  }

  /** The tasks of a turn that are not runnable cannot be put into its batch. */
  lemma OthersBlocked(cfg: Config, s: State, e: Env, id: nat)
    requires Inv(cfg, s) && s.loop.phase == Prepare && id in s.loop.turn && id !in s.loop.runnable
    ensures id in PreparedTasks(cfg, s, e) && !Unblocked(cfg, PreparedTasks(cfg, s, e)[id])
  {
  }

  lemma RunnableMayRun(cfg: Config, s: State, e: Env, id: nat)
    requires Inv(cfg, s) && s.loop.phase == Prepare && id in s.loop.runnable
    ensures id in PreparedTasks(cfg, s, e)
    ensures cfg.bounded ==> PreparedTasks(cfg, s, e)[id].pool.admitted
  {
  }

  /** Preparation leaves a plan: the runnable tasks in the order of prepare_batch_order, then the rest. */
  lemma PreparedIsPlanned(cfg: Config, s: State, e: Env)
    requires Inv(cfg, s) && s.loop.phase == Prepare
    ensures var p := PrepareTurn(cfg, s, e.init, e.mtp, e.drafts);
            && Planned(cfg, p)
            && (Plan(cfg, p), p.loop.limit) == Order(Views(cfg, p.tasks, s.loop.runnable), cfg.nBatch, s.loop.turnNo)
  {
    var p := PrepareTurn(cfg, s, e.init, e.mtp, e.drafts);
    var v := Views(cfg, p.tasks, s.loop.runnable);
    OrderIsPermutation(v, cfg.nBatch, s.loop.turnNo);
    OrderedViews(cfg, p.tasks, s.loop.runnable, Order(v, cfg.nBatch, s.loop.turnNo).0);
    OrderIds(cfg, p.tasks, s.loop.runnable, cfg.nBatch, s.loop.turnNo);
    ReorderedTurn(s.loop.turn, p.loop.runnable);
    TurnIsPlanned(cfg, s, e, p.loop.runnable, p.loop.turn);
  }

  lemma TurnIsPlanned(cfg: Config, s: State, e: Env, runnable: seq<nat>, turn: seq<nat>)
    requires Inv(cfg, s) && s.loop.phase == Prepare && Distinct(turn)
    requires turn == runnable + Without(s.loop.turn, ToSet(runnable))
    requires forall x :: x in runnable <==> x in s.loop.runnable
    ensures Known(turn, PreparedTasks(cfg, s, e)) && turn[..|runnable|] == runnable
    ensures MayRun(cfg, PreparedTasks(cfg, s, e), turn, |runnable|)
    ensures forall i :: |runnable| <= i < |turn| ==> !Unblocked(cfg, PreparedTasks(cfg, s, e)[turn[i]])
  {
    forall i | 0 <= i < |turn|
      ensures turn[i] in PreparedTasks(cfg, s, e)
      ensures i < |runnable| && cfg.bounded ==> PreparedTasks(cfg, s, e)[turn[i]].pool.admitted
      ensures i >= |runnable| ==> !Unblocked(cfg, PreparedTasks(cfg, s, e)[turn[i]])
    {
      if i < |runnable| {
        assert turn[i] in runnable;
        RunnableMayRun(cfg, s, e, turn[i]);
      } else {
        assert turn[i] in Without(s.loop.turn, ToSet(runnable));
        OthersBlocked(cfg, s, e, turn[i]);
      }
    }
  }

  // ---- batches of all runs ----

  lemma {:induction false} BatchFitsAlways(cfg: Config, turn: seq<nat>, k: nat, tasks: Tasks, limit: nat)
    requires k <= |turn| && cfg.nBatch >= 0
    ensures |BatchAll(cfg, turn, k, tasks, limit).batch| <= cfg.nBatch
  {
    if k == 0 {
    } else {
      BatchFitsAlways(cfg, turn, k - 1, tasks, limit);
      var b := BatchAll(cfg, turn, k - 1, tasks, limit);
      var t := Get(b.tasks, turn[k - 1]);
      if !Flagged(t) {
        BlockIsTake(cfg, turn[k - 1], t, |b.batch|, limit);
      }
    }
  }

  lemma StepBatch(cfg: Config, s: State, e: Env)
    requires cfg.nBatch >= 0 && |s.loop.batch| <= cfg.nBatch
    ensures |SchedulerStep(cfg, s, e).loop.batch| <= cfg.nBatch
  {
    BatchFitsAlways(cfg, s.loop.turn, |s.loop.turn|, s.tasks, s.loop.limit);
  }

  /** No run ever hands the decoder more than nBatch rows, whoever comes between the steps of a turn. */
  lemma {:induction false} BatchNeverTooLarge(cfg: Config, n: nat, acts: seq<Action>)
    requires cfg.nBatch >= 0
    ensures |Exec(cfg, n, acts).loop.batch| <= cfg.nBatch
  {
    if acts == [] {
    } else {
      var s, a := Exec(cfg, n, acts[..|acts| - 1]), acts[|acts| - 1];
      BatchNeverTooLarge(cfg, n, acts[..|acts| - 1]);
      if a.Stepped? {
        StepBatch(cfg, s, a.env);
      }
    }
  }
}
