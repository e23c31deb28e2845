/** The bound on completion is attained: a request that has the scheduler to itself,
    with one row a batch. */
module SchedulerSolo {
  import opened Generation
  import opened BatchOrder
  import opened SlotTask
  import opened SlotTaskProofs
  import opened Scheduler
  import opened SchedulerInv
  import opened SchedulerSteps
  import opened SchedulerTurn
  import opened SchedulerBuild
  import opened SchedulerFinish
  import opened SchedulerLoops
  import opened SchedulerRun
  import opened SchedulerBatchLoop
  import opened SchedulerPlan
  import opened SchedulerFair
  import opened SchedulerProgress
  import SchedulerLeak

  /** One row a batch, no bounded pool, no drafts. */
  function Cfg(m: Model): Config { Config(m, 1, false, 0, 0, false) }

  function Ask(prompt: seq<Token>, maxTokens: int): Request { Request(0, prompt, maxTokens, {}, 0) }

  ghost predicate NeverStops(m: Model) { forall x :: !m.eog(x) }

  const CALM := SchedulerLeak.Calm()

  /** The request is the only active one, and has come at most this far. */
  ghost predicate Solo(m: Model, s: State, req: Request, phase: Phase, far: nat) {
    && Inv(Cfg(m), s) && s.loop.phase == phase && s.active == [0] && 0 in s.tasks && !s.stopping
    && (phase == Prepare ==> s.loop.runnable == [0]) && (phase != Top ==> s.loop.turn == [0])
    && Alone(s.tasks[0], req) && Progress(s.tasks[0]) <= far
  }

  predicate Alone(t: Task, req: Request) {
    t.req == req && t.last == [] && t.flags == Flags(false, false) && t.place.specRows == [] && t.place.draft == []
  }

  // ---- the four steps of a turn ----

  lemma BeginsAlone(m: Model, s: State, req: Request, far: nat)
    requires Solo(m, s, req, Top, far)
    ensures var s1 := SchedulerStep(Cfg(m), s, CALM);
            s1 == Begin(Cfg(m), s, CALM.evictions) && Solo(m, s1, req, Prepare, far) && s1.loop.turnNo == s.loop.turnNo
  {
    BeginPlainOk(Cfg(m), s, CALM.evictions);
    OnlyLive(ClearDrafts(s.tasks, s.active));
  }

  lemma OnlyLive(tasks: Tasks)
    requires 0 in tasks && !Flagged(tasks[0])
    ensures LiveOf(tasks, [0]) == [0]
  {
    assert [0][..0] == [];
  }

  /** Initialisation of a task without a past starts at the beginning; nothing is drafted. */
  lemma InitsAlone(m: Model, s: State, req: Request, far: nat)
    requires Solo(m, s, req, Prepare, far)
    ensures var tasks := PreparedTasks(Cfg(m), s, CALM);
            0 in tasks && Alone(tasks[0], req) && Progress(tasks[0]) <= far
  {
    var t := s.tasks[0];
    ReadyNow(Cfg(m), s, 0);
    SchedulerLeak.FreshStart(Cfg(m), t, CacheOf(s.caches, t.req.slot), CALM.init(0));
  }

  lemma TurnAlone(m: Model, s: State)
    requires s.loop.runnable == [0] && s.loop.turn == [0]
    ensures Prepared(Cfg(m), s, CALM).loop.runnable == [0] && Prepared(Cfg(m), s, CALM).loop.turn == [0]
  {
    var s1 := Prepared(Cfg(m), s, CALM);
    OrderIds(Cfg(m), s1.tasks, [0], 1, s.loop.turnNo);
    SchedulerLeak.Singleton(s1.loop.runnable, 0);
    SchedulerLeak.AllRunnable();
  }

  lemma PreparesAlone(m: Model, s: State, req: Request, far: nat)
    requires Solo(m, s, req, Prepare, far) && EnvOk(Cfg(m), s, CALM)
    ensures var s1 := SchedulerStep(Cfg(m), s, CALM);
            s1 == Prepared(Cfg(m), s, CALM) && Solo(m, s1, req, Building, far) && s1.loop.turnNo == s.loop.turnNo + 1
  {
    InitsAlone(m, s, req, far);
    PrepareOk(Cfg(m), s, CALM);
    TurnAlone(m, s);
  }

  lemma OneView(cfg: Config, tasks: Tasks)
    requires 0 in tasks && !tasks[0].run.promptDone
    ensures DecodeTokens(Views(cfg, tasks, [0])) == 0
  {
    var v := Views(cfg, tasks, [0]);
    assert v[..0] == [];
  }

  /** It could be served. */
  lemma EagerAlone(m: Model, s: State, s1: State, req: Request, far: nat)
    requires Solo(m, s, req, Prepare, far) && s1 == Prepared(Cfg(m), s, CALM) && Solo(m, s1, req, Building, far)
    requires req.prompt != []
    ensures Eager(Cfg(m), s1, Seen(Cfg(m), s, CALM), 0)
  {
    PreparedFrame(Cfg(m), s, CALM);
    BegunAlone(m, s, req, far);
    ReadyNow(Cfg(m), s1, 0);
    if !s1.tasks[0].run.promptDone {
      OneView(Cfg(m), s1.tasks);
    }
  }

  lemma BegunAlone(m: Model, s: State, req: Request, far: nat)
    requires Solo(m, s, req, Prepare, far)
    ensures Prepared(Cfg(m), s, CALM).tasks == PreparedTasks(Cfg(m), s, CALM)
    ensures 0 in PreparedTasks(Cfg(m), s, CALM) && PreparedTasks(Cfg(m), s, CALM)[0].run.initialized
  {
    PreparedFrame(Cfg(m), s, CALM);
  }

  /** A batch of one row takes a task one step at most. */
  lemma BuildsOneStep(m: Model, t: Task, req: Request, cache: seq<Token>, limit: nat)
    requires Alone(t, req) && Ready(Cfg(m), t, cache)
    ensures var u := BuildTask(Cfg(m), t, 0, limit); Alone(u, req) && Progress(u) <= Progress(t) + 1
  {
  }

  lemma BatchAlone(m: Model, tasks: Tasks, limit: nat)
    requires 0 in tasks && !Flagged(tasks[0])
    ensures var b := BatchAll(Cfg(m), [0], 1, tasks, limit);
            && b.tasks == tasks[0 := BuildTask(Cfg(m), tasks[0], 0, limit)] && b.batch == Build(Cfg(m), tasks[0], 0, limit).rows
            && b.cancelled == {} && b.stopped == {}
  {
    assert BatchAll(Cfg(m), [0], 0, tasks, limit) == Batching(tasks, [], {}, {});
    assert [] + Build(Cfg(m), tasks[0], 0, limit).rows == Build(Cfg(m), tasks[0], 0, limit).rows;
  }

  lemma NobodyGone(tasks: Tasks)
    ensures Without([0], {}) == [0] && RetireAll(RetireAll(tasks, {}, Cancelled), {}, Stopped) == tasks
  {
    assert [0][1..] == [];
  }

  /** The state after the batch of the only task was built. */
  lemma BuiltAlone(m: Model, s: State)
    requires 0 in s.tasks && !Flagged(s.tasks[0]) && s.loop.turn == [0] && s.active == [0]
    ensures var s1, t, limit := BuildTurn(Cfg(m), s), s.tasks[0], s.loop.limit;
            && s1.tasks == s.tasks[0 := BuildTask(Cfg(m), t, 0, limit)] && s1.active == [0] && s1.loop.turn == [0]
            && s1.loop.batch == Build(Cfg(m), t, 0, limit).rows && s1.stopping == s.stopping
            && (s1.loop.batch != [] ==> s1.loop.phase == Finish) && s1.loop.turnNo == s.loop.turnNo
  {
    BatchAlone(m, s.tasks, s.loop.limit);
    NobodyGone(s.tasks[0 := BuildTask(Cfg(m), s.tasks[0], 0, s.loop.limit)]);
    var b := BatchAll(Cfg(m), s.loop.turn, |s.loop.turn|, s.tasks, s.loop.limit);
    assert b.cancelled + b.stopped == {};
  }

  /** A task that advances has put a row into the batch. */
  lemma AdvanceHasRows(m: Model, s: State)
    requires 0 in s.tasks && !Flagged(s.tasks[0]) && s.loop.turn == [0] && s.active == [0]
    requires Advances(s, BuildTurn(Cfg(m), s), 0)
    ensures BuildTurn(Cfg(m), s).loop.batch != []
  {
    BuiltAlone(m, s);
    if Build(Cfg(m), s.tasks[0], 0, s.loop.limit).rows == [] {
      BuildNothing(Cfg(m), s.tasks[0], 0, s.loop.limit);
    }
  }

  lemma BuildsAlone(m: Model, s: State, req: Request, far: nat)
    requires Solo(m, s, req, Building, far) && Advances(s, BuildTurn(Cfg(m), s), 0)
    ensures SchedulerStep(Cfg(m), s, CALM) == BuildTurn(Cfg(m), s)
    ensures Solo(m, BuildTurn(Cfg(m), s), req, Finish, far + 1) && BuildTurn(Cfg(m), s).loop.turnNo == s.loop.turnNo
  {
    BuildOk(Cfg(m), s);
    ReadyNow(Cfg(m), s, 0);
    BuildsOneStep(m, s.tasks[0], req, CacheOf(s.caches, s.tasks[0].req.slot), s.loop.limit);
    BuiltAlone(m, s);
    AdvanceHasRows(m, s);
  }

  // ---- sampling ----

  /** A task completes only when it has come to its goal, and until then keeps no more than it had. */
  lemma FinishesAlone(m: Model, t: Task, req: Request, cache: seq<Token>, batch: seq<Row>)
    requires NeverStops(m) && Built(Cfg(m), t, cache, batch) && !t.place.capturing && Alone(t, req) && req.stops == {}
    ensures var f := FinishTask(Cfg(m), t, cache, batch);
            if f.completed then Progress(t) >= Goal(req) else Alone(f.task, req) && Progress(f.task) <= Progress(t)
  {
    if t.place.iBatch >= 0 {
      BuiltAtRow(Cfg(m), t, cache, batch);
    }
  }

  lemma NoFaultAlone(tasks: Tasks)
    requires 0 in tasks && !Verifies(tasks[0])
    ensures FirstFault(tasks, [0], CALM.rollback) == 1
  {
    assert [0][1..] == [];
  }

  lemma SamplesAlone(m: Model, s: State, req: Request, far: nat, caches: Caches)
    requires NeverStops(m) && Solo(m, s, req, Finish, far) && DecodeRows(s.caches, s.loop.batch) == Kv(caches) && req.stops == {}
    ensures var r := Finishing(Cfg(m), s, caches, CALM.capture);
            && 0 in r.tasks && (0 in r.completed ==> far >= Goal(req))
            && (0 !in r.completed ==> Alone(r.tasks[0], req) && Progress(r.tasks[0]) <= far)
    ensures SchedulerStep(Cfg(m), s, CALM) == AfterFinish(s, Finishing(Cfg(m), s, caches, CALM.capture))
  {
    var tasks := CaptureAll(s.tasks, s.loop.turn, caches, CALM.capture);
    var t := tasks[0];
    CapturedBuilt(Cfg(m), s, caches, CALM.capture, 0);
    FinishedIs(Cfg(m), s, caches, CALM.capture, 0, t, FinishTask(Cfg(m), t, CacheOf(caches, t.req.slot), s.loop.batch));
    FinishesAlone(m, t, req, CacheOf(caches, t.req.slot), s.loop.batch);
    NoFaultAlone(tasks);
    SamplingIs(Cfg(m), s, caches, CALM.capture, CALM.rollback);
  }

  lemma StaysAlone(m: Model, s: State, req: Request, far: nat, caches: Caches)
    requires NeverStops(m) && Solo(m, s, req, Finish, far) && DecodeRows(s.caches, s.loop.batch) == Kv(caches) && req.stops == {}
    requires 0 !in Finishing(Cfg(m), s, caches, CALM.capture).completed
    ensures Solo(m, AfterFinish(s, Finishing(Cfg(m), s, caches, CALM.capture)), req, Top, far)
  {
    var r := Finishing(Cfg(m), s, caches, CALM.capture);
    SamplesAlone(m, s, req, far, caches);
    GoodFinishOk(Cfg(m), s, caches, CALM.capture);
    NoneCompleted(r, s.active);
  }

  lemma NoneCompleted(r: Round, active: seq<nat>)
    requires active == [0] && 0 !in r.completed && 0 in r.tasks
    ensures Without(active, r.completed) == [0] && RetireAll(r.tasks, r.completed, Completed)[0] == r.tasks[0]
  {
    assert [0][1..] == [];
  }

  /** The turn ends, and the task goes on unless it has come to its goal. */
  lemma EndsAlone(m: Model, s: State, req: Request, far: nat)
    requires NeverStops(m) && Solo(m, s, req, Finish, far) && req.stops == {}
    ensures var s1 := SchedulerStep(Cfg(m), s, CALM);
            s1.loop.phase == Top && s1.loop.turnNo == s.loop.turnNo && (far < Goal(req) ==> Solo(m, s1, req, Top, far))
  {
    var caches := DecodeRows(s.caches, s.loop.batch).caches;
    SamplesAlone(m, s, req, far, caches);
    if far < Goal(req) {
      StaysAlone(m, s, req, far, caches);
    }
  }

  // ---- the run ----

  function Acts(req: Request, steps: nat): seq<Action> { [Submitted(0, req)] + seq(steps, _ => Stepped(CALM)) }

  lemma CalmIsOk(m: Model, s: State)
    ensures EnvOk(Cfg(m), s, CALM)
  {
  }

  /** One step of the thread in the run. */
  lemma StepIs(m: Model, acts: seq<Action>, run: seq<State>, i: nat)
    requires IsRun(Cfg(m), 1, acts, run) && i < |acts| && acts[i] == Stepped(CALM)
    ensures run[i + 1] == SchedulerStep(Cfg(m), run[i], CALM)
  {
    RunStep(Cfg(m), 1, acts, run, i);
    CalmIsOk(m, run[i]);
  }

  lemma SubmittedAlone(m: Model, acts: seq<Action>, run: seq<State>, req: Request)
    requires IsRun(Cfg(m), 1, acts, run) && acts != [] && acts[0] == Submitted(0, req) && req.slot == 0
    ensures Solo(m, run[1], req, Top, 0) && run[1].loop.turnNo == 0
  {
    assert acts[..0] == [];
    assert run[0] == Exec(Cfg(m), 1, acts[..0]);
    RunStep(Cfg(m), 1, acts, run, 0);
    SoundAt(Cfg(m), 1, acts, run, 1);
    FirstIs(req);
  }

  lemma FirstIs(req: Request)
    requires req.slot == 0
    ensures var s := Submit(Start(1), 0, req);
            && s.active == [0] && 0 in s.tasks && Alone(s.tasks[0], req) && Progress(s.tasks[0]) == 0
            && s.loop.phase == Top && s.loop.turnNo == 0 && !s.stopping
  {
  }

  ghost predicate CalmFrom(acts: seq<Action>, i: nat) { i + 4 <= |acts| && forall x :: i <= x < i + 4 ==> acts[x] == Stepped(CALM) }

  /** The first half of a turn: the task is prepared, and it could be served. */
  lemma TurnOpens(m: Model, acts: seq<Action>, run: seq<State>, req: Request, i: nat, far: nat)
    requires IsRun(Cfg(m), 1, acts, run) && CalmFrom(acts, i) && Solo(m, run[i], req, Top, far) && req.prompt != []
    ensures Solo(m, run[i + 1], req, Prepare, far) && run[i + 1].loop.turnNo == run[i].loop.turnNo
    ensures Solo(m, run[i + 2], req, Building, far) && run[i + 2].loop.turnNo == run[i].loop.turnNo + 1
    ensures run[i + 1].loop.runnable == [0] && run[i + 2].active == [0] && Get(run[i + 2].tasks, 0).req == req
    ensures Turn(run, i + 1, i + 2) && CouldServe(Cfg(m), acts, run, i + 1, i + 2, 0)
  {
    StepIs(m, acts, run, i);
    BeginsAlone(m, run[i], req, far);
    StepIs(m, acts, run, i + 1);
    CalmIsOk(m, run[i + 1]);
    PreparesAlone(m, run[i + 1], req, far);
    EagerAlone(m, run[i + 1], run[i + 2], req, far);
  }

  lemma Heads(turn: nat)
    ensures [0][turn % |[0]|] == 0
  {
  }

  /** The second half: it is served, and goes on unless it has come to its goal. */
  lemma TurnCloses(m: Model, acts: seq<Action>, run: seq<State>, req: Request, i: nat, far: nat)
    requires IsRun(Cfg(m), 1, acts, run) && CalmFrom(acts, i) && NeverStops(m) && req.stops == {}
    requires Solo(m, run[i + 1], req, Prepare, far) && Solo(m, run[i + 2], req, Building, far)
    requires CouldServe(Cfg(m), acts, run, i + 1, i + 2, 0)
    ensures run[i + 3].loop.phase == Finish && run[i + 4].loop.phase == Top && run[i + 4].loop.turnNo == run[i + 2].loop.turnNo
    ensures far + 1 < Goal(req) ==> Solo(m, run[i + 4], req, Top, far + 1)
  {
    Heads(run[i + 1].loop.turnNo);
    HeadOfTurnAdvances(Cfg(m), 1, acts, run, i + 1, i + 2, 0);
    StepIs(m, acts, run, i + 2);
    BuildsAlone(m, run[i + 2], req, far);
    StepIs(m, acts, run, i + 3);
    EndsAlone(m, run[i + 3], req, far + 1);
  }

  /** What is so in turn j, which starts after i actions. */
  ghost predicate InTurn(m: Model, acts: seq<Action>, run: seq<State>, req: Request, i: nat, j: nat) {
    && i + 4 < |run| && run[i + 1].loop.turnNo == j && run[i + 1].loop.runnable == [0]
    && run[i + 2].active == [0] && Get(run[i + 2].tasks, 0).req == req
    && run[i + 3].loop.phase == Finish && run[i + 4].loop.phase == Top
    && Turn(run, i + 1, i + 2) && CouldServe(Cfg(m), acts, run, i + 1, i + 2, 0)
  }

  ghost predicate AtTop(m: Model, run: seq<State>, req: Request, i: nat, j: nat) {
    i < |run| && Solo(m, run[i], req, Top, j) && run[i].loop.turnNo == j
  }

  lemma OneTurn(m: Model, acts: seq<Action>, run: seq<State>, req: Request, i: nat, j: nat)
    requires IsRun(Cfg(m), 1, acts, run) && CalmFrom(acts, i) && NeverStops(m) && req.stops == {} && req.prompt != []
    requires AtTop(m, run, req, i, j)
    ensures InTurn(m, acts, run, req, i, j) && (j + 1 < Goal(req) ==> AtTop(m, run, req, i + 4, j + 1))
  {
    TurnOpens(m, acts, run, req, i, j);
    TurnCloses(m, acts, run, req, i, j);
  }

  /** Turn j starts after so many actions. */
  function Opens(j: nat): nat { 1 + 4 * j }

  lemma {:induction false} ReachesTurn(m: Model, acts: seq<Action>, run: seq<State>, req: Request, j: nat)
    requires IsRun(Cfg(m), 1, acts, run) && acts == Acts(req, 4 * Goal(req)) && NeverStops(m)
    requires req.slot == 0 && req.stops == {} && req.prompt != [] && j < Goal(req)
    ensures AtTop(m, run, req, Opens(j), j)
  {
    if j == 0 {
      CalmThere(req, 0);
      SubmittedAlone(m, acts, run, req);
    } else {
      ReachesTurn(m, acts, run, req, j - 1);
      CalmThere(req, j - 1);
      NextTurn(m, acts, run, req, Opens(j - 1), j - 1, Opens(j));
    }
  }

  lemma NextTurn(m: Model, acts: seq<Action>, run: seq<State>, req: Request, i: nat, j: nat, i1: nat)
    requires IsRun(Cfg(m), 1, acts, run) && CalmFrom(acts, i) && NeverStops(m) && req.stops == {} && req.prompt != []
    requires AtTop(m, run, req, i, j) && j + 1 < Goal(req) && i1 == i + 4
    ensures AtTop(m, run, req, i1, j + 1)
  {
    OneTurn(m, acts, run, req, i, j);
  }

  lemma TurnReached(m: Model, acts: seq<Action>, run: seq<State>, req: Request, j: nat)
    requires IsRun(Cfg(m), 1, acts, run) && acts == Acts(req, 4 * Goal(req)) && NeverStops(m)
    requires req.slot == 0 && req.stops == {} && req.prompt != [] && j < Goal(req)
    ensures InTurn(m, acts, run, req, Opens(j), j)
  {
    CalmThere(req, j);
    ReachesTurn(m, acts, run, req, j);
    OneTurn(m, acts, run, req, Opens(j), j);
  }

  lemma CalmThere(req: Request, j: nat)
    requires j < Goal(req)
    ensures var acts := Acts(req, 4 * Goal(req)); CalmFrom(acts, Opens(j)) && acts != [] && acts[0] == Submitted(0, req)
  {
  }

  function Prepares(goal: nat): (ks: seq<nat>)
    ensures |ks| == goal && forall j :: 0 <= j < goal ==> ks[j] == Opens(j) + 1
  {
    seq(goal, j requires 0 <= j < goal => Opens(j) + 1)
  }

  function Builds(goal: nat): (ms: seq<nat>)
    ensures |ms| == goal && forall j :: 0 <= j < goal ==> ms[j] == Opens(j) + 2
  {
    seq(goal, j requires 0 <= j < goal => Opens(j) + 2)
  }

  lemma TurnAt(m: Model, acts: seq<Action>, run: seq<State>, req: Request, i: nat, j: nat, k: nat, b: nat)
    requires InTurn(m, acts, run, req, i, j) && k == i + 1 && b == i + 2
    ensures Turn(run, k, b) && b + 1 < |run| && run[b + 1].loop.phase != Building
    ensures run[k].loop.turnNo == j && run[k].loop.runnable == [0] && run[b].active == [0]
    ensures CouldServe(Cfg(m), acts, run, k, b, 0)
  {
  }

  lemma TurnsAlone(m: Model, acts: seq<Action>, run: seq<State>, req: Request, ks: seq<nat>, ms: seq<nat>)
    requires ks == Prepares(|ks|) && ms == Builds(|ks|) && IsRun(Cfg(m), 1, acts, run)
    requires forall j :: 0 <= j < |ks| ==> InTurn(m, acts, run, req, Opens(j), j)
    ensures Turns(run, ks, ms) && ServableWhileActive(Cfg(m), acts, run, ks, ms, [0], 0)
    ensures forall j :: 0 <= j < |ks| ==> ms[j] < |run| && run[ms[j]].active == [0]
  {
    forall j | 0 <= j < |ks|
      ensures Turn(run, ks[j], ms[j]) && ms[j] + 1 < |run| && run[ms[j] + 1].loop.phase != Building
      ensures run[ks[j]].loop.turnNo == j && run[ks[j]].loop.runnable == [0] && run[ms[j]].active == [0]
      ensures CouldServe(Cfg(m), acts, run, ks[j], ms[j], 0)
    {
      TurnAt(m, acts, run, req, Opens(j), j, ks[j], ms[j]);
    }
    AloneInSuccession(m, acts, run, req, ks);
  }

  lemma AloneInSuccession(m: Model, acts: seq<Action>, run: seq<State>, req: Request, ks: seq<nat>)
    requires ks == Prepares(|ks|) && IsRun(Cfg(m), 1, acts, run)
    requires forall j :: 0 <= j < |ks| ==> InTurn(m, acts, run, req, Opens(j), j)
    ensures InSuccession(run, ks)
  {
    forall j | 0 <= j < |ks|
      ensures ks[0] <= ks[j] < |run| && run[ks[j]].loop.phase != Dead && run[ks[j]].loop.turnNo == j
    {
      TurnAt(m, acts, run, req, Opens(j), j, ks[j], Opens(j) + 2);
    }
    NumberedTurns(Cfg(m), 1, acts, run, ks);
  }

  /** For every prompt, token limit and model that never stops there is a run that meets all that ServedTasksComplete asks
      for, with exactly as many turns as it says are enough, and in which the task is still active in the last of them. */
  lemma BoundIsAttained(m: Model, prompt: seq<Token>, maxTokens: int)
    returns (acts: seq<Action>, run: seq<State>, ks: seq<nat>, ms: seq<nat>)
    requires NeverStops(m) && prompt != []
    ensures IsRun(Cfg(m), 1, acts, run) && run[|acts|].loop.phase == Top
    ensures Turns(run, ks, ms) && |ks| == Goal(Ask(prompt, maxTokens)) == |prompt| + Limit(maxTokens) - 1
    ensures ServableWhileActive(Cfg(m), acts, run, ks, ms, [0], 0)
    ensures forall j :: 0 <= j < |ks| ==> ms[j] < |run| && run[ms[j]].active == [0]
    ensures Over(Cfg(m), run[|acts|], 0, Ask(prompt, maxTokens))
  {
    var req := Ask(prompt, maxTokens);
    var goal := Goal(req);
    acts := Acts(req, 4 * goal);
    run := States(Cfg(m), 1, acts);
    ks, ms := Prepares(goal), Builds(goal);
    AllReached(m, acts, run, req);
    TurnsAlone(m, acts, run, req, ks, ms);
    EndOfRun(m, acts, run, req);
    ServedTasksComplete(Cfg(m), 1, acts, run, ks, ms, [0], 0, req);
  }

  lemma AllReached(m: Model, acts: seq<Action>, run: seq<State>, req: Request)
    requires IsRun(Cfg(m), 1, acts, run) && acts == Acts(req, 4 * Goal(req)) && NeverStops(m)
    requires req.slot == 0 && req.stops == {} && req.prompt != []
    ensures forall j :: 0 <= j < Goal(req) ==> InTurn(m, acts, run, req, Opens(j), j)
  {
    forall j | 0 <= j < Goal(req) ensures InTurn(m, acts, run, req, Opens(j), j) {
      TurnReached(m, acts, run, req, j);
    }
  }

  lemma EndOfRun(m: Model, acts: seq<Action>, run: seq<State>, req: Request)
    requires IsRun(Cfg(m), 1, acts, run) && acts == Acts(req, 4 * Goal(req)) && Goal(req) > 0
    requires forall j :: 0 <= j < Goal(req) ==> InTurn(m, acts, run, req, Opens(j), j)
    ensures run[|acts|].loop.phase == Top
    ensures Builds(Goal(req))[0] < |run| && Get(run[Builds(Goal(req))[0]].tasks, 0).req == req
  {
    assert InTurn(m, acts, run, req, Opens(0), 0);
    FirstBuild(m, acts, run, req, Opens(0), Builds(Goal(req))[0]);
    assert InTurn(m, acts, run, req, Opens(Goal(req) - 1), Goal(req) - 1);
    TurnEnds(m, acts, run, req, Opens(Goal(req) - 1), Goal(req) - 1, |acts|);
  }

  lemma FirstBuild(m: Model, acts: seq<Action>, run: seq<State>, req: Request, i: nat, b: nat)
    requires InTurn(m, acts, run, req, i, 0) && b == i + 2
    ensures b < |run| && Get(run[b].tasks, 0).req == req
  {
  }

  lemma TurnEnds(m: Model, acts: seq<Action>, run: seq<State>, req: Request, i: nat, j: nat, end: nat)
    requires InTurn(m, acts, run, req, i, j) && end == i + 4
    ensures end < |run| && run[end].loop.phase == Top
  {
  }
}
