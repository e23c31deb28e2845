/** Tasks that could be served complete: how far a task has come, and how many turns it takes at most. */
module SchedulerProgress {
  import opened Generation
  import opened BatchOrder
  import opened SlotTask
  import opened SlotTaskProofs
  import opened Scheduler
  import opened SchedulerInv
  import opened SchedulerSteps
  import opened SchedulerTurn
  import opened SchedulerBuild
  import opened SchedulerFinish
  import opened SchedulerLoops
  import opened SchedulerRun
  import opened SchedulerBatchLoop
  import opened SchedulerPlan
  import opened SchedulerFair

  /** Prompt tokens read, tokens generated behind the first -- which the last prompt token yields -- and one for a token
      about to be sampled. */
  function Progress(t: Task): nat {
    t.run.promptPos
    + (if t.run.nGenerated > 0 then t.run.nGenerated - 1 else 0)
    + (if t.run.promptDone && Expects(t.place) then 1 else 0)
  }

  /** What a task has to come to. */
  function Goal(req: Request): nat { |req.prompt| + Lim(req) - 1 }

  /** The task is still there, the same request, and has not fallen back. */
  predicate Forward(tasks: Tasks, tasks1: Tasks, id: nat) {
    && id in tasks && id in tasks1 && tasks1[id].req == tasks[id].req && Progress(tasks1[id]) >= Progress(tasks[id])
  }

  // ---- one task ----

  lemma {:induction false} EmitCounts(m: Model, req: Request, s: Speech, ids: seq<Token>)
    requires !s.completed && !Emit(m, req, s, ids).completed
    ensures Emit(m, req, s, ids).nGenerated == s.nGenerated + |ids|
    decreases |ids|
  {
    if ids == [] {
    } else {
      EmitCounts(m, req, Speech(s.events + [Tok(ids[0])], s.nGenerated + 1, ids[0], s.completed), ids[1..]);
    }
  }

  lemma VerifyProgress(cfg: Config, t: Task, cache: seq<Token>)
    requires Generating(cfg, t) && BuiltSpec(t, cache)
    ensures t.run.nPos + |t.place.draft| < |cache|
    ensures var s := VerifyTask(cfg.model, t, cache); !s.completed ==> Progress(s.task) >= Progress(t)
  {
    var ids := VerifySamples(cfg, t, cache);
    var start := Speech(t.events, t.run.nGenerated, t.run.lastToken, false);
    if !Emit(cfg.model, t.req, start, ids).completed {
      EmitCounts(cfg.model, t.req, start, ids);
    }
  }

  /** A finished task has come as far as was expected of it, unless it is complete. */
  lemma FinishProgress(cfg: Config, t: Task, cache: seq<Token>, batch: seq<Row>)
    requires Built(cfg, t, cache, batch) && !t.place.capturing
    ensures var f := FinishTask(cfg, t, cache, batch); !f.completed ==> Progress(f.task) >= Progress(t)
  {
    if t.place.iBatch >= 0 {
      BuiltAtRow(cfg, t, cache, batch);
    } else if t.place.specRows != [] {
      VerifyProgress(cfg, t, cache);
    }
  }

  /** Building reads prompt tokens at most; tokens are generated later. */
  predicate Read(t: Task, t1: Task) {
    && t1.req == t.req && t1.run.promptPos >= t.run.promptPos
    && t1.run.promptDone == t.run.promptDone && t1.run.nGenerated == t.run.nGenerated
  }

  lemma BuildReads(cfg: Config, t: Task, used: nat, limit: nat)
    ensures Read(t, BuildTask(cfg, t, used, limit))
  {
  }

  lemma ReadyExpectsNothing(cfg: Config, t: Task, cache: seq<Token>)
    requires Ready(cfg, t, cache)
    ensures !Expects(t.place)
  {
  }

  /** Between turns a task that is not complete has not read and generated all. */
  lemma ReadyProgress(cfg: Config, t: Task, cache: seq<Token>)
    requires Ready(cfg, t, cache) && Goal(t.req) > 0
    ensures Progress(t) < Goal(t.req)
  {
  }

  // ---- steps of the thread ----

  lemma ClearedForward(cfg: Config, s: State, id: nat)
    requires Inv(cfg, s) && s.loop.phase == Top && id in s.active
    ensures Forward(s.tasks, ClearDrafts(s.tasks, s.active), id)
  {
    ReadyNow(cfg, s, id);
  }

  lemma AdmitForward(cfg: Config, s: State, ev: nat -> Eviction, id: nat)
    requires Inv(cfg, s) && s.loop.phase == Top && cfg.bounded && id in s.active
    ensures Forward(ClearDrafts(s.tasks, s.active), Admit(cfg, s.active, |s.active|, ClearDrafts(s.tasks, s.active), s.caches, ev).tasks, id)
  {
    AdmitEffect(cfg, s.active, |s.active|, ClearDrafts(s.tasks, s.active), s.caches, ev);
  }

  lemma BeginProgress(cfg: Config, s: State, ev: nat -> Eviction, id: nat)
    requires Inv(cfg, s) && s.loop.phase == Top && id in s.active && id in Begin(cfg, s, ev).active
    ensures Forward(s.tasks, Begin(cfg, s, ev).tasks, id)
  {
    ClearedForward(cfg, s, id);
    if cfg.bounded {
      AdmitForward(cfg, s, ev, id);
    }
  }

  lemma PrepareProgress(cfg: Config, s: State, e: Env, id: nat)
    requires Inv(cfg, s) && s.loop.phase == Prepare && id in s.active
    ensures Forward(s.tasks, PreparedTasks(cfg, s, e), id)
  {
    ReadyNow(cfg, s, id);
  }

  /** What the batch loop makes of a task: it builds it or leaves it. */
  lemma {:induction false} BatchTask(cfg: Config, turn: seq<nat>, k: nat, tasks: Tasks, limit: nat, id: nat)
    requires k <= |turn| && Known(turn, tasks) && id in tasks
    ensures var b := BatchAll(cfg, turn, k, tasks, limit); id in b.tasks && Read(tasks[id], b.tasks[id])
  {
    if k == 0 {
    } else {
      BatchTask(cfg, turn, k - 1, tasks, limit, id);
      var b := BatchAll(cfg, turn, k - 1, tasks, limit);
      assert turn[k - 1] in turn;
      BatchKeys(cfg, turn, k - 1, tasks, limit);
      BuildReads(cfg, b.tasks[turn[k - 1]], |b.batch|, limit);
    }
  }

  lemma BuildTurnReads(cfg: Config, s: State, id: nat)
    requires Known(s.loop.turn, s.tasks) && id in s.tasks
    ensures id in BuildTurn(cfg, s).tasks && Read(s.tasks[id], BuildTurn(cfg, s).tasks[id])
  {
    BatchTask(cfg, s.loop.turn, |s.loop.turn|, s.tasks, s.loop.limit, id);
    BuiltReads(cfg, s, id);
  }

  /** Retiring does not touch how far a task has come. */
  lemma BuiltReads(cfg: Config, s: State, id: nat)
    requires id in BatchAll(cfg, s.loop.turn, |s.loop.turn|, s.tasks, s.loop.limit).tasks
    ensures id in BuildTurn(cfg, s).tasks
    ensures Read(BatchAll(cfg, s.loop.turn, |s.loop.turn|, s.tasks, s.loop.limit).tasks[id], BuildTurn(cfg, s).tasks[id])
  {
    BuiltRun(cfg, s, id);
    RetiredReq(cfg, s, id);
  }

  lemma RetiredReq(cfg: Config, s: State, id: nat)
    requires id in BatchAll(cfg, s.loop.turn, |s.loop.turn|, s.tasks, s.loop.limit).tasks
    ensures Get(BuildTurn(cfg, s).tasks, id).req == BatchAll(cfg, s.loop.turn, |s.loop.turn|, s.tasks, s.loop.limit).tasks[id].req
  {
  }

  lemma TurnIsKnown(cfg: Config, s: State)
    requires Inv(cfg, s)
    ensures Known(s.loop.turn, s.tasks)
  {
  }

  lemma BuildTurnProgress(cfg: Config, s: State, id: nat)
    requires Inv(cfg, s) && s.loop.phase == Building && id in s.active
    ensures Forward(s.tasks, BuildTurn(cfg, s).tasks, id)
    ensures Advances(s, BuildTurn(cfg, s), id) ==> Progress(BuildTurn(cfg, s).tasks[id]) > Progress(s.tasks[id])
  {
    ReadyNow(cfg, s, id);
    ReadyExpectsNothing(cfg, s.tasks[id], CacheOf(s.caches, s.tasks[id].req.slot));
    TurnIsKnown(cfg, s);
    BuildTurnReads(cfg, s, id);
    ReadForward(s, BuildTurn(cfg, s), id);
  }

  lemma ReadForward(s: State, s1: State, id: nat)
    requires id in s.tasks && id in s1.tasks && Read(s.tasks[id], s1.tasks[id]) && !Expects(s.tasks[id].place)
    ensures Forward(s.tasks, s1.tasks, id)
    ensures Advances(s, s1, id) ==> Progress(s1.tasks[id]) > Progress(s.tasks[id])
  {
  }

  lemma ReadyNow(cfg: Config, s: State, id: nat)
    requires Inv(cfg, s) && s.loop.phase != Finish && id in s.active
    ensures id in s.tasks && Ready(cfg, s.tasks[id], CacheOf(s.caches, s.tasks[id].req.slot))
  {
    assert TaskOk(cfg, s.loop.phase, s.loop.batch, s.tasks[id], s.caches);
  }

  lemma CaptureProgress(t: Task, cache: seq<Token>, ok: bool)
    ensures Progress(CaptureTask(t, cache, ok)) == Progress(t)
  {
  }

  /** What becomes of one task in a sampling step. */
  lemma FinishedIs(cfg: Config, s: State, caches: Caches, capture: nat -> bool, id: nat, t: Task, f: Finished)
    requires id in s.tasks && t == CaptureAll(s.tasks, s.loop.turn, caches, capture)[id]
    requires f == FinishTask(cfg, t, CacheOf(caches, t.req.slot), s.loop.batch)
    ensures var r := Finishing(cfg, s, caches, capture);
            && id in r.tasks && r.tasks[id] == (if id in s.loop.turn then f.task else t)
            && (id in r.completed <==> id in s.loop.turn && f.completed)
    ensures Progress(t) == Progress(s.tasks[id])
  {
    if id in s.loop.turn {
      CaptureProgress(s.tasks[id], CacheOf(caches, s.tasks[id].req.slot), capture(id));
    }
  }

  lemma SamplingProgress(cfg: Config, s: State, caches: Caches, capture: nat -> bool, id: nat)
    requires AtFinish(cfg, s, caches) && id in s.active
    ensures var r := Finishing(cfg, s, caches, capture);
            && id in s.tasks && id in r.tasks && r.tasks[id].req == s.tasks[id].req
            && (id !in r.completed ==> Progress(r.tasks[id]) >= Progress(s.tasks[id]))
  {
    CapturedBuilt(cfg, s, caches, capture, id);
    var t := CaptureAll(s.tasks, s.loop.turn, caches, capture)[id];
    var cache := CacheOf(caches, t.req.slot);
    FinishedIs(cfg, s, caches, capture, id, t, FinishTask(cfg, t, cache, s.loop.batch));
    FinishFrame(cfg, t, cache, s.loop.batch);
    if id in s.loop.turn {
      FinishProgress(cfg, t, cache, s.loop.batch);
    }
  }

  lemma FinishStepProgress(cfg: Config, s: State, e: Env, id: nat)
    requires Inv(cfg, s) && s.loop.phase == Finish && id in s.active && id in SchedulerStep(cfg, s, e).active
    ensures Forward(s.tasks, SchedulerStep(cfg, s, e).tasks, id)
  {
    var caches := DecodeRows(s.caches, s.loop.batch).caches;
    SamplingProgress(cfg, s, caches, e.capture, id);
    SamplingIs(cfg, s, caches, e.capture, e.rollback);
  }

  lemma TopProgress(cfg: Config, s: State, e: Env, id: nat)
    requires Inv(cfg, s) && s.loop.phase == Top && id in s.active && id in SchedulerStep(cfg, s, e).active
    ensures Forward(s.tasks, SchedulerStep(cfg, s, e).tasks, id)
  {
    if !s.stopping {
      BeginProgress(cfg, s, e.evictions, id);
    }
  }

  lemma ThreadProgress(cfg: Config, s: State, e: Env, id: nat)
    requires Inv(cfg, s) && id in s.active && id in SchedulerStep(cfg, s, e).active
    ensures Forward(s.tasks, SchedulerStep(cfg, s, e).tasks, id)
  {
    match s.loop.phase
    case Top => TopProgress(cfg, s, e, id);
    case Prepare => PrepareProgress(cfg, s, e, id);
    case Building => BuildTurnProgress(cfg, s, id);
    case Finish => FinishStepProgress(cfg, s, e, id);
    case Dead =>
  }

  lemma CallerProgress(cfg: Config, s: State, a: Action, id: nat)
    requires Enabled(cfg, s, a) && !a.Stepped? && id in s.tasks
    ensures Forward(s.tasks, Next(cfg, s, a).tasks, id)
  {
  }

  /** No step takes back what an active task has achieved. */
  lemma StepProgress(cfg: Config, s: State, a: Action, id: nat)
    requires Inv(cfg, s) && Enabled(cfg, s, a) && id in s.active && id in Next(cfg, s, a).active
    ensures Forward(s.tasks, Next(cfg, s, a).tasks, id)
  {
    if a.Stepped? {
      ThreadProgress(cfg, s, a.env, id);
    } else {
      CallerProgress(cfg, s, a, id);
    }
  }

  // ---- how tasks leave ----

  /** The task completed, or is flagged, or was never begun. */
  predicate Ended(t: Task) {
    Flagged(t) || !t.run.initialized || (t.events != [] && t.events[|t.events| - 1] == Done(Completed))
  }

  /** A retired task stays as it is but for its flags; an active one stays active, or ends, or all is over. */
  predicate Accounted(s: State, s1: State, id: nat)
    requires id in s.tasks
  {
    && id in s1.tasks && s1.tasks[id].req == s.tasks[id].req && (s.tasks[id].run.initialized ==> s1.tasks[id].run.initialized)
    && (s.tasks[id].flags.cancel ==> s1.tasks[id].flags.cancel) && (s.tasks[id].flags.stop ==> s1.tasks[id].flags.stop)
    && if id in s.active then id in s1.active || s1.loop.phase == Dead || Ended(s1.tasks[id])
       else id !in s1.active && s1.tasks[id] == s.tasks[id].(flags := s1.tasks[id].flags) && (Flagged(s.tasks[id]) ==> Flagged(s1.tasks[id]))
  }

  lemma FailAccounts(s: State, id: nat)
    requires id in s.tasks
    ensures Accounted(s, FailAll(s), id)
  {
  }

  lemma BeginAccounts(cfg: Config, s: State, ev: nat -> Eviction, id: nat)
    requires Inv(cfg, s) && s.loop.phase == Top && id in s.tasks
    ensures Accounted(s, Begin(cfg, s, ev), id)
  {
    if cfg.bounded {
      AdmitEffect(cfg, s.active, |s.active|, ClearDrafts(s.tasks, s.active), s.caches, ev);
    }
  }

  lemma PrepareAccounts(cfg: Config, s: State, e: Env, id: nat)
    requires Inv(cfg, s) && s.loop.phase == Prepare && id in s.tasks
    ensures Accounted(s, SchedulerStep(cfg, s, e), id)
  {
    PreparedFrame(cfg, s, e);
    FailAccounts(PrepareTurn(cfg, s, e.init, e.mtp, e.drafts), id);
  }

  lemma BuildAccounts(cfg: Config, s: State, id: nat)
    requires AtBuilding(cfg, s) && id in s.tasks
    ensures Accounted(s, BuildTurn(cfg, s), id)
  {
    BatchIsDone(cfg, s);
    var b := BatchAll(cfg, s.loop.turn, |s.loop.turn|, s.tasks, s.loop.limit);
    BuiltAccounts(cfg, s, b, ClearSlots(s.caches, SlotsOf(b.tasks, b.cancelled)), id);
  }

  lemma BuiltAccounts(cfg: Config, s: State, b: Batching, caches: Caches, id: nat)
    requires BatchDone(cfg, s, b, caches) && id in s.tasks
    ensures Accounted(s, AfterBuilding(s, b, caches), id)
  {
    RetiredBothFrame(cfg, s, b, caches);
  }

  lemma SamplingAccounts(cfg: Config, s: State, caches: Caches, capture: nat -> bool, id: nat)
    requires AtFinish(cfg, s, caches) && id in s.tasks
    ensures Accounted(s, AfterFinish(s, Finishing(cfg, s, caches, capture)), id)
  {
    FinishedFrame(cfg, s, caches, capture, ToSet(s.loop.turn));
  }

  lemma FaultAccounts(cfg: Config, s: State, caches: Caches, capture: nat -> bool, done: set<nat>, left: Caches, id: nat)
    requires Inv(cfg, s) && id in s.tasks && (forall x :: x in done ==> x in s.loop.turn)
    ensures Accounted(s, FailAll(s.(caches := left,
              tasks := FinishTasks(cfg, CaptureAll(s.tasks, s.loop.turn, caches, capture), done, caches, s.loop.batch))), id)
  {
    FinishedFrame(cfg, s, caches, capture, done);
  }

  lemma FinishAccounts(cfg: Config, s: State, e: Env, id: nat)
    requires Inv(cfg, s) && s.loop.phase == Finish && id in s.tasks
    ensures Accounted(s, SchedulerStep(cfg, s, e), id)
  {
    var caches := DecodeRows(s.caches, s.loop.batch).caches;
    if e.decode {
      SampledAccounts(cfg, s, caches, e.capture, e.rollback, id);
    } else {
      FailAccounts(s, id);
    }
  }

  lemma SampledAccounts(cfg: Config, s: State, caches: Caches, capture: nat -> bool, rollback: nat -> bool, id: nat)
    requires AtFinish(cfg, s, caches) && id in s.tasks
    ensures Accounted(s, Sampling(cfg, s, caches, capture, rollback), id)
  {
    var tasks := CaptureAll(s.tasks, s.loop.turn, caches, capture);
    var fault := FirstFault(tasks, s.loop.turn, rollback);
    if fault < |s.loop.turn| {
      var done := set x | x in s.loop.turn && (!Verifies(Get(tasks, x)) || x in s.loop.turn[..fault]);
      FaultAccounts(cfg, s, caches, capture, done, FinishCaches(cfg, s, tasks, done, caches), id);
    } else {
      SamplingAccounts(cfg, s, caches, capture, id);
      SamplingIs(cfg, s, caches, capture, rollback);
    }
  }

  lemma TopAccounts(cfg: Config, s: State, e: Env, id: nat)
    requires Inv(cfg, s) && s.loop.phase == Top && id in s.tasks
    ensures Accounted(s, SchedulerStep(cfg, s, e), id)
  {
    if s.stopping {
      FailAccounts(s, id);
    } else {
      BeginAccounts(cfg, s, e.evictions, id);
    }
  }

  lemma ThreadAccounts(cfg: Config, s: State, e: Env, id: nat)
    requires Inv(cfg, s) && id in s.tasks
    ensures Accounted(s, SchedulerStep(cfg, s, e), id)
  {
    match s.loop.phase
    case Top => TopAccounts(cfg, s, e, id);
    case Prepare => PrepareAccounts(cfg, s, e, id);
    case Building => BuildAccounts(cfg, s, id);
    case Finish => FinishAccounts(cfg, s, e, id);
    case Dead =>
  }

  lemma CallerAccounts(cfg: Config, s: State, a: Action, id: nat)
    requires Enabled(cfg, s, a) && !a.Stepped? && id in s.tasks
    ensures Accounted(s, Next(cfg, s, a), id)
  {
  }

  // ---- runs ----

  lemma StepAccounts(cfg: Config, s: State, a: Action, id: nat)
    requires Inv(cfg, s) && Enabled(cfg, s, a) && id in s.tasks
    ensures Accounted(s, Next(cfg, s, a), id)
  {
    if a.Stepped? {
      ThreadAccounts(cfg, s, a.env, id);
    } else {
      CallerAccounts(cfg, s, a, id);
    }
  }

  lemma RunAccounts(cfg: Config, n: nat, acts: seq<Action>, run: seq<State>, i: nat, id: nat)
    requires IsRun(cfg, n, acts, run) && cfg.capacity >= 0 && i < |acts| && id in run[i].tasks
    ensures Accounted(run[i], run[i + 1], id)
  {
    SoundAt(cfg, n, acts, run, i);
    RunStep(cfg, n, acts, run, i);
    if Enabled(cfg, run[i], acts[i]) {
      StepAccounts(cfg, run[i], acts[i], id);
    }
  }

  /** While a task is active, each action takes it forward or leaves it. */
  lemma RunForward(cfg: Config, n: nat, acts: seq<Action>, run: seq<State>, i: nat, id: nat)
    requires IsRun(cfg, n, acts, run) && cfg.capacity >= 0 && i < |acts| && id in run[i].active && id in run[i + 1].active
    ensures Forward(run[i].tasks, run[i + 1].tasks, id)
  {
    SoundAt(cfg, n, acts, run, i);
    RunStep(cfg, n, acts, run, i);
    if Enabled(cfg, run[i], acts[i]) {
      StepProgress(cfg, run[i], acts[i], id);
    }
  }

  /** A task that is active was active ever since it was submitted, and went forward. */
  lemma {:induction false} Throughout(cfg: Config, n: nat, acts: seq<Action>, run: seq<State>, i: nat, j: nat, id: nat)
    requires IsRun(cfg, n, acts, run) && cfg.capacity >= 0 && i <= j < |run| && id in run[i].tasks && id in run[j].active
    ensures id in run[i].active && Forward(run[i].tasks, run[j].tasks, id)
    decreases j - i
  {
    if i == j {
      SoundAt(cfg, n, acts, run, i);
    } else {
      RunAccounts(cfg, n, acts, run, i, id);
      Throughout(cfg, n, acts, run, i + 1, j, id);
      RunForward(cfg, n, acts, run, i, id);
    }
  }

  lemma DeadStays(cfg: Config, n: nat, acts: seq<Action>, run: seq<State>, i: nat)
    requires IsRun(cfg, n, acts, run) && i < |acts| && run[i].loop.phase == Dead
    ensures run[i + 1].loop.phase == Dead
  {
    RunStep(cfg, n, acts, run, i);
  }

  /** Why a task is no longer active: it is flagged, was never begun, or has completed -- or the scheduler died. */
  lemma {:induction false} LeavesEnded(cfg: Config, n: nat, acts: seq<Action>, run: seq<State>, i: nat, j: nat, id: nat)
    requires IsRun(cfg, n, acts, run) && cfg.capacity >= 0 && i <= j < |run| && id in run[i].tasks && id !in run[j].active
    requires id in run[i].active || run[i].loop.phase == Dead || Ended(run[i].tasks[id])
    ensures id in run[j].tasks && (run[j].loop.phase == Dead || Ended(run[j].tasks[id]))
    ensures run[i].tasks[id].run.initialized ==> run[j].tasks[id].run.initialized
    decreases j - i
  {
    if i == j {
    } else {
      RunAccounts(cfg, n, acts, run, i, id);
      if run[i].loop.phase == Dead {
        DeadStays(cfg, n, acts, run, i);
      }
      LeavesEnded(cfg, n, acts, run, i + 1, j, id);
    }
  }

  // ---- rounds of turns ----

  lemma BuiltNext(cfg: Config, n: nat, acts: seq<Action>, run: seq<State>, m: nat)
    requires IsRun(cfg, n, acts, run) && m < |acts| && run[m].loop.phase == Building && run[m + 1].loop.phase != Building
    ensures run[m + 1] == BuildTurn(cfg, run[m])
  {
    RunStep(cfg, n, acts, run, m);
    if Enabled(cfg, run[m], acts[m]) && !acts[m].Stepped? {
      CallerKeepsLoop(cfg, run[m], acts[m]);
    }
  }

  lemma ServedProgress(cfg: Config, n: nat, acts: seq<Action>, run: seq<State>, m: nat, id: nat)
    requires IsRun(cfg, n, acts, run) && cfg.capacity >= 0 && m < |acts| && id in run[m].active
    requires run[m].loop.phase == Building && run[m + 1].loop.phase != Building && Serves(cfg, run, m, id)
    ensures Forward(run[m].tasks, run[m + 1].tasks, id) && Progress(run[m + 1].tasks[id]) > Progress(run[m].tasks[id])
  {
    SoundAt(cfg, n, acts, run, m);
    BuiltNext(cfg, n, acts, run, m);
    BuildTurnProgress(cfg, run[m], id);
  }

  /** Consecutive turns of a run: turn j is prepared by action ks[j] and built by ms[j]. */
  ghost predicate Turns(run: seq<State>, ks: seq<nat>, ms: seq<nat>) {
    && |ks| == |ms|
    && (forall j {:trigger Turn(run, ks[j], ms[j])} :: 0 <= j < |ks| ==>
          Turn(run, ks[j], ms[j]) && ms[j] + 1 < |run| && run[ms[j] + 1].loop.phase != Building)
    && (forall j :: 0 <= j < |ks| ==> ks[j] < |run|)
    && InSuccession(run, ks)
    && (forall i, j :: 0 <= i < j < |ks| ==> ms[i] < ks[j])
  }

  /** In each of these turns the runnable tasks are the same, and the task could be served. */
  ghost predicate Chances(
    cfg: Config, acts: seq<Action>, run: seq<State>, ks: seq<nat>, ms: seq<nat>, runnable: seq<nat>, id: nat)
  {
    && Turns(run, ks, ms) && id in runnable && AllServable(cfg, acts, run, ks, ms, id)
    && forall j :: 0 <= j < |ks| ==> run[ks[j]].loop.runnable == runnable
  }

  /** The turns from a on are a round, if there are enough of them. */
  lemma RoundFrom(
    cfg: Config, acts: seq<Action>, run: seq<State>, ks: seq<nat>, ms: seq<nat>, runnable: seq<nat>, id: nat, a: nat)
    requires Chances(cfg, acts, run, ks, ms, runnable, id) && a + |runnable| <= |ks|
    ensures OneRound(run, ks[a..a + |runnable|], runnable)
  {
    TurnsInOrder(run, ks, ms);
    SuccessionPart(run, ks, a, a + |runnable|);
  }

  lemma TurnsInOrder(run: seq<State>, ks: seq<nat>, ms: seq<nat>)
    requires Turns(run, ks, ms)
    ensures forall i, j :: 0 <= i < j < |ks| ==> ks[i] <= ks[j]
  {
    forall i, j | 0 <= i < j < |ks| ensures ks[i] <= ks[j] {
      TurnIs(run, ks, ms, i);
    }
  }

  lemma ChancesFrom(cfg: Config, acts: seq<Action>, run: seq<State>, ks: seq<nat>, ms: seq<nat>, runnable: seq<nat>, id: nat, a: nat, b: nat)
    requires Chances(cfg, acts, run, ks, ms, runnable, id) && a <= b <= |ks|
    ensures |ks| == |ms| && AllServable(cfg, acts, run, ks[a..b], ms[a..b], id)
  {
    forall j | 0 <= j < |ks[a..b]| ensures CouldServe(cfg, acts, run, ks[a..b][j], ms[a..b][j], id) {
      assert CouldServe(cfg, acts, run, ks[a + j], ms[a + j], id);
    }
  }

  lemma TurnIs(run: seq<State>, ks: seq<nat>, ms: seq<nat>, j: nat)
    requires Turns(run, ks, ms) && j < |ks|
    ensures ks[j] < ms[j] && ms[j] + 1 < |run| && run[ms[j]].loop.phase == Building && run[ms[j] + 1].loop.phase != Building
    ensures forall i :: 0 <= i < j ==> ms[i] < ms[j]
  {
    assert Turn(run, ks[j], ms[j]);
  }

  /** Some turn of a round serves the task. */
  lemma ServedInRound(
    cfg: Config, n: nat, acts: seq<Action>, run: seq<State>, ks: seq<nat>, ms: seq<nat>, runnable: seq<nat>, id: nat, a: nat)
    returns (j: nat)
    requires IsRun(cfg, n, acts, run) && cfg.capacity >= 0
    requires Chances(cfg, acts, run, ks, ms, runnable, id) && a + |runnable| <= |ks|
    ensures a <= j < a + |runnable| && |ms| == |ks| && Serves(cfg, run, ms[j], id)
  {
    RoundFrom(cfg, acts, run, ks, ms, runnable, id, a);
    ChancesFrom(cfg, acts, run, ks, ms, runnable, id, a, a + |runnable|);
    var i := EveryoneAdvances(cfg, n, acts, run, ks[a..a + |runnable|], ms[a..a + |runnable|], runnable, id);
    j := a + i;
  }

  lemma ServedAt(cfg: Config, n: nat, acts: seq<Action>, run: seq<State>, m: nat, end: nat, id: nat)
    requires IsRun(cfg, n, acts, run) && cfg.capacity >= 0 && m < end < |run| && id in run[end].active
    requires run[m].loop.phase == Building && run[m + 1].loop.phase != Building && Serves(cfg, run, m, id)
    ensures id in run[m].active && id in run[m].tasks && id in run[end].tasks
    ensures Progress(run[end].tasks[id]) > Progress(run[m].tasks[id])
  {
    Throughout(cfg, n, acts, run, m, end, id);
    ServedProgress(cfg, n, acts, run, m, id);
    Throughout(cfg, n, acts, run, m + 1, end, id);
  }

  /** The turns of y rounds of n turns each. */
  function TurnsOf(y: nat, n: nat): nat { if y == 0 then 0 else TurnsOf(y - 1, n) + n }

  lemma {:induction false} TurnsOfIsProduct(y: nat, n: nat)
    ensures TurnsOf(y, n) == y * n
  {
    if y == 0 {
    } else {
      TurnsOfIsProduct(y - 1, n);
      MulSucc(y - 1, n);
    }
  }

  /** A round takes the task a step forward, from a state behind all earlier turns. */
  lemma RoundServes(
    cfg: Config, n: nat, acts: seq<Action>, run: seq<State>, ks: seq<nat>, ms: seq<nat>, runnable: seq<nat>, id: nat, a: nat, end: nat)
    returns (m: nat)
    requires IsRun(cfg, n, acts, run) && cfg.capacity >= 0 && end < |run| && id in run[end].active
    requires Chances(cfg, acts, run, ks, ms, runnable, id) && a + |runnable| <= |ks| == |ms|
    requires forall j :: 0 <= j < a + |runnable| ==> ms[j] < end
    ensures m < end && (forall i :: 0 <= i < a ==> ms[i] < m)
    ensures id in run[m].active && id in run[m].tasks && id in run[end].tasks
    ensures Progress(run[end].tasks[id]) > Progress(run[m].tasks[id])
  {
    var j := ServedInRound(cfg, n, acts, run, ks, ms, runnable, id, a);
    m := ms[j];
    TurnIs(run, ks, ms, j);
    ServedAt(cfg, n, acts, run, m, end, id);
  }

  /** After y rounds a task that is still active has come at least y steps forward. */
  lemma {:induction false} RoundsProgress(
    cfg: Config, n: nat, acts: seq<Action>, run: seq<State>, ks: seq<nat>, ms: seq<nat>, runnable: seq<nat>, id: nat, y: nat, end: nat)
    requires IsRun(cfg, n, acts, run) && cfg.capacity >= 0 && end < |run| && id in run[end].active
    requires Chances(cfg, acts, run, ks, ms, runnable, id) && TurnsOf(y, |runnable|) <= |ks| == |ms|
    requires forall j :: 0 <= j < TurnsOf(y, |runnable|) ==> ms[j] < end
    ensures y > 0 ==> id in run[end].tasks && Progress(run[end].tasks[id]) >= y
    decreases y
  {
    if y == 0 {
    } else {
      var m := RoundServes(cfg, n, acts, run, ks, ms, runnable, id, TurnsOf(y - 1, |runnable|), end);
      RoundsProgress(cfg, n, acts, run, ks, ms, runnable, id, y - 1, m);
    }
  }

  /** A task that could be served in a turn had been initialised. */
  lemma EagerIsBegun(cfg: Config, n: nat, acts: seq<Action>, run: seq<State>, k: nat, m: nat, id: nat)
    requires IsRun(cfg, n, acts, run) && cfg.capacity >= 0
    requires CouldServe(cfg, acts, run, k, m, id) && id in run[k].loop.runnable
    ensures id in run[k].tasks && id in run[k].active && id in run[m].tasks && run[m].tasks[id].run.initialized
  {
    SoundAt(cfg, n, acts, run, k);
    TurnPrepared(cfg, n, acts, run, k);
    TurnRaised(cfg, n, acts, run, k, m);
    PreparedFrame(cfg, run[k], acts[k].env);
  }

  /** Why a task that was served is no longer active at the end. */
  lemma ServedEnds(cfg: Config, n: nat, acts: seq<Action>, run: seq<State>, k: nat, m: nat, id: nat)
    requires IsRun(cfg, n, acts, run) && cfg.capacity >= 0
    requires CouldServe(cfg, acts, run, k, m, id) && id in run[k].loop.runnable && id !in run[|acts|].active
    ensures id in run[|acts|].tasks && run[|acts|].tasks[id].run.initialized
    ensures run[|acts|].loop.phase == Dead || Ended(run[|acts|].tasks[id])
  {
    EagerIsBegun(cfg, n, acts, run, k, m, id);
    if id !in run[m].active {
      LeavesEnded(cfg, n, acts, run, k, m, id);
    }
    LeavesEnded(cfg, n, acts, run, m, |acts|, id);
  }

  /** An active task has not come to its goal, except while its batch is being decoded. */
  lemma ActiveBelow(cfg: Config, n: nat, acts: seq<Action>, run: seq<State>, id: nat)
    requires IsRun(cfg, n, acts, run) && cfg.capacity >= 0
    requires id in run[|acts|].active && run[|acts|].loop.phase != Finish && Goal(Get(run[|acts|].tasks, id).req) > 0
    ensures id in run[|acts|].tasks && Progress(run[|acts|].tasks[id]) < Goal(run[|acts|].tasks[id].req)
  {
    var s := run[|acts|];
    SoundAt(cfg, n, acts, run, |acts|);
    ReadyNow(cfg, s, id);
    ReadyProgress(cfg, s.tasks[id], CacheOf(s.caches, s.tasks[id].req.slot));
  }

  /** A task that stays active has fewer chances than its goal asks for. */
  lemma OverByThen(
    cfg: Config, n: nat, acts: seq<Action>, run: seq<State>, ks: seq<nat>, ms: seq<nat>, runnable: seq<nat>, id: nat, y: nat)
    requires IsRun(cfg, n, acts, run) && cfg.capacity >= 0 && id in run[|acts|].active && run[|acts|].loop.phase != Finish
    requires Chances(cfg, acts, run, ks, ms, runnable, id) && TurnsOf(y, |runnable|) <= |ks| && y > 0
    ensures y != Goal(Get(run[|acts|].tasks, id).req)
  {
    BuiltBeforeEnd(acts, run, ks, ms);
    RoundsProgress(cfg, n, acts, run, ks, ms, runnable, id, y, |acts|);
    if y == Goal(Get(run[|acts|].tasks, id).req) {
      ActiveBelow(cfg, n, acts, run, id);
    }
  }

  lemma BuiltBeforeEnd(acts: seq<Action>, run: seq<State>, ks: seq<nat>, ms: seq<nat>)
    requires Turns(run, ks, ms) && |run| == |acts| + 1
    ensures |ks| == |ms| && forall j :: 0 <= j < |ks| ==> ms[j] < |acts|
  {
    forall j | 0 <= j < |ks| ensures ms[j] < |acts| {
      TurnIs(run, ks, ms, j);
    }
  }

  // ---- bounded completion ----

  /** As long as the task is active, the runnable tasks are these and it could be served in each turn. */
  ghost predicate ServableWhileActive(
    cfg: Config, acts: seq<Action>, run: seq<State>, ks: seq<nat>, ms: seq<nat>, runnable: seq<nat>, id: nat)
    requires Turns(run, ks, ms)
  {
    forall j {:trigger CouldServe(cfg, acts, run, ks[j], ms[j], id)} | 0 <= j < |ks| && ms[j] < |run| && id in run[ms[j]].active ::
      run[ks[j]].loop.runnable == runnable && CouldServe(cfg, acts, run, ks[j], ms[j], id)
  }

  /** The task is done: it was cancelled or stopped, or the scheduler failed, or it has its plain answer. */
  ghost predicate Over(cfg: Config, s: State, id: nat, req: Request) {
    && id in s.tasks && id !in s.active && s.tasks[id].req == req
    && (s.loop.phase != Dead && !Flagged(s.tasks[id]) ==>
          var es := s.tasks[id].events;
          es != [] && es[|es| - 1] == Done(Completed) && Answer(cfg, req, TokenIds(es)))
  }

  /** Bounded completion.  A task is active in the first of some consecutive turns; while it is active it could be served
      in each of them, and the runnable tasks stay the same.  Then at the end either it is done, and unless it was
      cancelled or stopped or the scheduler failed it has completed with its plain answer; or there were fewer turns than
      it has tokens to read and to generate, less one, times the number of runnable tasks -- whatever the drafter, the
      cache, the other tasks and the callers did.  No smaller number would do (SchedulerSolo.BoundIsAttained). */
  lemma ServedTasksComplete(
    cfg: Config, n: nat, acts: seq<Action>, run: seq<State>, ks: seq<nat>, ms: seq<nat>, runnable: seq<nat>, id: nat, req: Request)
    requires IsRun(cfg, n, acts, run) && cfg.capacity >= 0 && run[|acts|].loop.phase != Finish
    requires Turns(run, ks, ms) && ks != [] && ms[0] < |run|
    requires id in runnable && id in run[ms[0]].active && req == Get(run[ms[0]].tasks, id).req
    requires ServableWhileActive(cfg, acts, run, ks, ms, runnable, id)
    ensures Over(cfg, run[|acts|], id, req) || (id in run[|acts|].active && |ks| < Goal(req) * |runnable|)
  {
    TurnsOfIsProduct(Goal(req), |runnable|);
    CompleteBy(cfg, n, acts, run, ks, ms, runnable, id, req);
  }

  lemma CompleteBy(
    cfg: Config, n: nat, acts: seq<Action>, run: seq<State>, ks: seq<nat>, ms: seq<nat>, runnable: seq<nat>, id: nat, req: Request)
    requires IsRun(cfg, n, acts, run) && cfg.capacity >= 0 && run[|acts|].loop.phase != Finish
    requires Turns(run, ks, ms) && ks != [] && ms[0] < |run|
    requires id in runnable && id in run[ms[0]].active && req == Get(run[ms[0]].tasks, id).req
    requires ServableWhileActive(cfg, acts, run, ks, ms, runnable, id)
    ensures Over(cfg, run[|acts|], id, req) || (id in run[|acts|].active && |ks| < TurnsOf(Goal(req), |runnable|))
  {
    ActiveKnown(cfg, n, acts, run, ms[0], id);
    StaysKnown(cfg, n, acts, run, ms[0], |acts|, id);
    assert CouldServe(cfg, acts, run, ks[0], ms[0], id);
    if id !in run[|acts|].active {
      ServedEnds(cfg, n, acts, run, ks[0], ms[0], id);
      AnswerAtEnd(cfg, n, acts, run, id);
    } else if TurnsOf(Goal(req), |runnable|) <= |ks| {
      EagerHasGoal(cfg, n, acts, run, ks[0], ms[0], id);
      ActiveChances(cfg, n, acts, run, ks, ms, runnable, id);
      OverByThen(cfg, n, acts, run, ks, ms, runnable, id, Goal(req));
    }
  }

  /** A task that could be served has something to come to. */
  lemma EagerHasGoal(cfg: Config, n: nat, acts: seq<Action>, run: seq<State>, k: nat, m: nat, id: nat)
    requires IsRun(cfg, n, acts, run) && cfg.capacity >= 0 && CouldServe(cfg, acts, run, k, m, id) && id in run[m].active
    ensures Goal(Get(run[m].tasks, id).req) > 0
  {
    SoundAt(cfg, n, acts, run, m);
    ReadyNow(cfg, run[m], id);
  }

  lemma ActiveKnown(cfg: Config, n: nat, acts: seq<Action>, run: seq<State>, i: nat, id: nat)
    requires IsRun(cfg, n, acts, run) && cfg.capacity >= 0 && i < |run| && id in run[i].active
    ensures id in run[i].tasks
  {
    SoundAt(cfg, n, acts, run, i);
  }

  lemma {:induction false} StaysKnown(cfg: Config, n: nat, acts: seq<Action>, run: seq<State>, i: nat, j: nat, id: nat)
    requires IsRun(cfg, n, acts, run) && cfg.capacity >= 0 && i <= j < |run| && id in run[i].tasks
    ensures id in run[j].tasks && run[j].tasks[id].req == run[i].tasks[id].req
    decreases j - i
  {
    if i == j {
    } else {
      RunAccounts(cfg, n, acts, run, i, id);
      StaysKnown(cfg, n, acts, run, i + 1, j, id);
    }
  }

  /** A task that is active at the end was active in every turn, so each of them was a chance. */
  lemma ActiveChances(
    cfg: Config, n: nat, acts: seq<Action>, run: seq<State>, ks: seq<nat>, ms: seq<nat>, runnable: seq<nat>, id: nat)
    requires IsRun(cfg, n, acts, run) && cfg.capacity >= 0 && id in run[|acts|].active && id in runnable
    requires Turns(run, ks, ms) && ks != [] && ms[0] < |run| && id in run[ms[0]].tasks
    requires ServableWhileActive(cfg, acts, run, ks, ms, runnable, id)
    ensures Chances(cfg, acts, run, ks, ms, runnable, id)
  {
    forall j | 0 <= j < |ks|
      ensures run[ks[j]].loop.runnable == runnable && CouldServe(cfg, acts, run, ks[j], ms[j], id)
    {
      TurnIs(run, ks, ms, j);
      StaysKnown(cfg, n, acts, run, ms[0], ms[j], id);
      Throughout(cfg, n, acts, run, ms[j], |acts|, id);
      assert CouldServe(cfg, acts, run, ks[j], ms[j], id);
    }
  }

  lemma AnswerAtEnd(cfg: Config, n: nat, acts: seq<Action>, run: seq<State>, id: nat)
    requires IsRun(cfg, n, acts, run) && cfg.capacity >= 0 && id in run[|acts|].tasks
    ensures var t := run[|acts|].tasks[id];
            t.events != [] && t.events[|t.events| - 1] == Done(Completed) ==> Answer(cfg, t.req, TokenIds(t.events))
  {
    assert acts[..|acts|] == acts;
    assert run[|acts|] == Exec(cfg, n, acts[..|acts|]);
    EveryAnswerIsPlain(cfg, n, acts, id);
  }
}
