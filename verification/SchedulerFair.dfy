/** What every turn of every run gives to whom, whoever comes between its steps. */
module SchedulerFair {
  import opened Generation
  import opened BatchOrder
  import opened SlotTask
  import opened SlotTaskProofs
  import opened Scheduler
  import opened SchedulerInv
  import opened SchedulerTurn
  import opened SchedulerLoops
  import opened SchedulerRun
  import opened SchedulerBatchLoop
  import opened SchedulerPlan

  // ---- a turn: it is prepared, callers come, its batch is built ----

  /** Between p and s only callers acted: tasks were cancelled, stopped, submitted and released. */
  ghost predicate Raised(p: State, s: State) {
    && s.loop == p.loop
    && forall id :: id in p.tasks ==>
         && id in s.tasks && s.tasks[id] == p.tasks[id].(flags := s.tasks[id].flags)
         && (Flagged(p.tasks[id]) ==> Flagged(s.tasks[id]))
  }

  lemma CallerRaises(cfg: Config, p: State, s: State, a: Action)
    requires Raised(p, s) && Enabled(cfg, s, a) && !a.Stepped?
    ensures Raised(p, Next(cfg, s, a))
  {
  }

  /** The states of a run: run[i] is the state after i actions. */
  ghost predicate IsRun(cfg: Config, n: nat, acts: seq<Action>, run: seq<State>) {
    |run| == |acts| + 1 && forall i {:trigger Exec(cfg, n, acts[..i])} :: 0 <= i <= |acts| ==> run[i] == Exec(cfg, n, acts[..i])
  }

  lemma States(cfg: Config, n: nat, acts: seq<Action>) returns (run: seq<State>)
    ensures IsRun(cfg, n, acts, run) && run[|acts|] == Exec(cfg, n, acts)
  {
    run := seq(|acts| + 1, i requires 0 <= i <= |acts| => Exec(cfg, n, acts[..i]));
    assert acts[..|acts|] == acts;
  }

  /** The turn prepared by action k, whose batch is not yet built after m actions. */
  ghost predicate Turn(run: seq<State>, k: nat, m: nat) {
    k < m < |run| && run[k].loop.phase == Prepare && forall i :: k < i <= m ==> run[i].loop.phase == Building
  }

  function Prepared(cfg: Config, s: State, e: Env): State { PrepareTurn(cfg, s, e.init, e.mtp, e.drafts) }

  lemma RunStep(cfg: Config, n: nat, acts: seq<Action>, run: seq<State>, i: nat)
    requires IsRun(cfg, n, acts, run) && i < |acts|
    ensures run[i + 1] == if Enabled(cfg, run[i], acts[i]) then Next(cfg, run[i], acts[i]) else run[i]
  {
    assert acts[..i + 1][..i] == acts[..i];
    assert run[i + 1] == Exec(cfg, n, acts[..i + 1]) && run[i] == Exec(cfg, n, acts[..i]);
  }

  lemma CallerKeepsLoop(cfg: Config, s: State, a: Action)
    requires Enabled(cfg, s, a) && !a.Stepped?
    ensures Next(cfg, s, a).loop == s.loop
  {
  }

  /** Only a preparation step leads to building, and building ends with the next step. */
  lemma StepPhases(cfg: Config, s: State, e: Env)
    requires SchedulerStep(cfg, s, e).loop.phase == Building
    ensures s.loop.phase == Prepare && SchedulerStep(cfg, s, e) == Prepared(cfg, s, e)
  {
  }

  /** How a run comes to a state in which a batch is to be built. */
  lemma BuildingFrom(cfg: Config, s: State, a: Action, s1: State, p: State)
    requires s1 == (if Enabled(cfg, s, a) then Next(cfg, s, a) else s) && s1.loop.phase == Building
    ensures s.loop.phase == Building || (s.loop.phase == Prepare && a.Stepped? && s1 == Prepared(cfg, s, a.env))
    ensures s.loop.phase == Building && Raised(p, s) ==> Raised(p, s1)
  {
    if Enabled(cfg, s, a) {
      if a.Stepped? {
        StepPhases(cfg, s, a.env);
      } else {
        CallerKeepsLoop(cfg, s, a);
        if Raised(p, s) {
          CallerRaises(cfg, p, s, a);
        }
      }
    }
  }

  lemma BuildingAt(cfg: Config, n: nat, acts: seq<Action>, run: seq<State>, m: nat, p: State)
    requires IsRun(cfg, n, acts, run) && 0 < m < |run| && run[m].loop.phase == Building
    ensures var s, a, s1 := run[m - 1], acts[m - 1], run[m];
            && (s.loop.phase == Building || (s.loop.phase == Prepare && a.Stepped? && s1 == Prepared(cfg, s, a.env)))
            && (s.loop.phase == Building && Raised(p, s) ==> Raised(p, s1))
  {
    RunStep(cfg, n, acts, run, m - 1);
    BuildingFrom(cfg, run[m - 1], acts[m - 1], run[m], p);
  }

  lemma {:induction false} StaysRaised(cfg: Config, n: nat, acts: seq<Action>, run: seq<State>, k: nat, m: nat, p: State)
    requires IsRun(cfg, n, acts, run) && k <= m < |run| && Raised(p, run[k])
    requires forall i :: k <= i <= m ==> run[i].loop.phase == Building
    ensures Raised(p, run[m])
    decreases m
  {
    if k == m {
    } else {
      StaysRaised(cfg, n, acts, run, k, m - 1, p);
      BuildingAt(cfg, n, acts, run, m, p);
    }
  }

  lemma RaisedSelf(s: State)
    ensures Raised(s, s)
  {
  }

  lemma TurnPrepared(cfg: Config, n: nat, acts: seq<Action>, run: seq<State>, k: nat)
    requires IsRun(cfg, n, acts, run) && k < |acts| && run[k].loop.phase == Prepare && run[k + 1].loop.phase == Building
    ensures acts[k].Stepped? && run[k + 1] == Prepared(cfg, run[k], acts[k].env)
  {
    BuildingAt(cfg, n, acts, run, k + 1, run[k]);
  }

  lemma TurnRaised(cfg: Config, n: nat, acts: seq<Action>, run: seq<State>, k: nat, m: nat)
    requires IsRun(cfg, n, acts, run) && Turn(run, k, m)
    ensures Raised(run[k + 1], run[m])
  {
    RaisedSelf(run[k + 1]);
    StaysRaised(cfg, n, acts, run, k + 1, m, run[k + 1]);
  }

  lemma PhaseBefore(cfg: Config, n: nat, acts: seq<Action>, run: seq<State>, m: nat)
    requires IsRun(cfg, n, acts, run) && m < |run| && run[m].loop.phase == Building
    ensures m > 0 && (run[m - 1].loop.phase == Building || run[m - 1].loop.phase == Prepare)
  {
    assert run[0] == Exec(cfg, n, acts[..0]);
    BuildingAt(cfg, n, acts, run, m, Start(n));
  }

  /** Every state in which a batch is to be built belongs to a turn. */
  lemma {:induction false} TurnStart(cfg: Config, n: nat, acts: seq<Action>, run: seq<State>, m: nat) returns (k: nat)
    requires IsRun(cfg, n, acts, run) && m < |run| && run[m].loop.phase == Building
    ensures Turn(run, k, m)
  {
    PhaseBefore(cfg, n, acts, run, m);
    if run[m - 1].loop.phase == Building {
      k := TurnStart(cfg, n, acts, run, m - 1);
    } else {
      k := m - 1;
    }
  }

  lemma RaisedPlan(cfg: Config, p: State, s: State)
    requires Planned(cfg, p) && Raised(p, s)
    ensures Planned(cfg, s) && LessLive(Plan(cfg, s), Plan(cfg, p))
  {
    forall i | 0 <= i < |p.loop.turn|
      ensures p.loop.turn[i] in p.tasks && p.loop.turn[i] in s.tasks
    {
      assert p.loop.turn[i] in p.loop.turn;
    }
    forall i | 0 <= i < |p.loop.runnable|
      ensures Plan(cfg, s)[i] == Plan(cfg, p)[i] || Plan(cfg, s)[i] == Plan(cfg, p)[i].(flagged := true)
    {
      assert p.loop.runnable[i] == p.loop.turn[i];
      RaisedView(cfg, p.loop.turn[i], p.tasks[p.loop.turn[i]], s.tasks[p.loop.turn[i]]);
    }
  }

  lemma RaisedView(cfg: Config, id: nat, t: Task, t1: Task)
    requires t1 == t.(flags := t1.flags) && (Flagged(t) ==> Flagged(t1))
    ensures View(cfg, id, t1) == View(cfg, id, t) || View(cfg, id, t1) == View(cfg, id, t).(flagged := true)
  {
  }

  /** What the ordering of the turn saw. */
  function Seen(cfg: Config, s: State, e: Env): seq<Item> { Views(cfg, Prepared(cfg, s, e).tasks, s.loop.runnable) }

  lemma SoundAt(cfg: Config, n: nat, acts: seq<Action>, run: seq<State>, i: nat)
    requires IsRun(cfg, n, acts, run) && i < |run| && cfg.capacity >= 0
    ensures Inv(cfg, run[i])
  {
    RunSound(cfg, n, acts[..i]);
  }

  /** At the batch step the plan is the order made in preparation, less what was flagged since. */
  lemma TurnPlan(cfg: Config, n: nat, acts: seq<Action>, run: seq<State>, k: nat, m: nat)
    requires IsRun(cfg, n, acts, run) && cfg.capacity >= 0 && Turn(run, k, m)
    ensures acts[k].Stepped?
    ensures var s, e, b := run[k], acts[k].env, run[m];
            var o := Order(Seen(cfg, s, e), cfg.nBatch, s.loop.turnNo);
            Raised(Prepared(cfg, s, e), b) && Planned(cfg, b) && LessLive(Plan(cfg, b), o.0) && b.loop.limit == o.1
  {
    var s := run[k];
    SoundAt(cfg, n, acts, run, k);
    TurnPrepared(cfg, n, acts, run, k);
    TurnRaised(cfg, n, acts, run, k, m);
    PreparedIsPlanned(cfg, s, acts[k].env);
    RaisedPlan(cfg, Prepared(cfg, s, acts[k].env), run[m]);
  }

  // ---- the budget of a turn ----

  /** Budget of every turn of every run, whoever was cancelled or stopped since its order was made: at most nBatch
      rows; all rows of every live decoder if together they fit; beside live decoders at most max(1024, #prompts)
      prompt rows. */
  lemma TurnBudget(cfg: Config, n: nat, acts: seq<Action>)
    requires cfg.capacity >= 0 && cfg.nBatch >= 0 && Exec(cfg, n, acts).loop.phase == Building
    ensures var s := Exec(cfg, n, acts);
            var v, limit := Plan(cfg, s), s.loop.limit;
            && Planned(cfg, s)
            && |BuildTurn(cfg, s).loop.batch| <= cfg.nBatch
            && (DecodeTokens(v) <= cfg.nBatch ==>
                  forall i :: 0 <= i < |v| && v[i].done && !v[i].flagged ==>
                    RowsOf(cfg, s.loop.turn, i, s.tasks, limit) == Demand(v[i]))
            && (DecodeTokens(v) > 0 ==> PromptUsed(v, cfg.nBatch, limit) <= Max(MIXED_PREFILL_BUDGET, Prompts(v)))
  {
    var run := States(cfg, n, acts);
    var k := TurnStart(cfg, n, acts, run, |acts|);
    TurnPlan(cfg, n, acts, run, k, |acts|);
    BatchIsPlan(cfg, Exec(cfg, n, acts));
    BatchBudget(Seen(cfg, run[k], acts[k].env), cfg.nBatch, run[k].loop.turnNo, Plan(cfg, Exec(cfg, n, acts)));
  }

  // ---- whose turn it is ----

  /** The task has rows in the batch whose logits will be sampled or verified. */
  predicate Expects(place: Place) { place.iBatch >= 0 || place.specRows != [] }

  /** The batch step moves the task on: its prompt position grows, or its last token is put into the batch for its
      next token to be sampled. */
  ghost predicate Advances(s: State, s1: State, id: nat) {
    && id in s.tasks && id in s1.tasks
    && var t := s.tasks[id];
       if t.run.promptDone then
         Row(t.req.slot, t.run.nPos, t.run.lastToken, true) in s1.loop.batch && Expects(s1.tasks[id].place)
       else s1.tasks[id].run.promptPos > t.run.promptPos
  }

  lemma BlockAdvances(cfg: Config, t: Task, used: nat, limit: nat)
    requires Build(cfg, t, used, limit).rows != []
    ensures var c := Build(cfg, t, used, limit);
            if t.run.promptDone then c.rows[0] == Row(t.req.slot, t.run.nPos, t.run.lastToken, true) && Expects(c.place)
            else c.run.promptPos > t.run.promptPos
  {
  }

  /** A task that had its turn stays as it is, and rows stay in the batch. */
  lemma {:induction false} Later(cfg: Config, turn: seq<nat>, k: nat, j: nat, tasks: Tasks, limit: nat, id: nat)
    requires k <= j <= |turn| && id !in turn[k..j]
    ensures var b, b1 := BatchAll(cfg, turn, k, tasks, limit), BatchAll(cfg, turn, j, tasks, limit);
            && (id in b.tasks ==> id in b1.tasks && b1.tasks[id] == b.tasks[id])
            && forall r :: r in b.batch ==> r in b1.batch
    decreases j
  {
    if k == j {
    } else {
      assert turn[k..j] == turn[k..j - 1] + [turn[j - 1]];
      Later(cfg, turn, k, j - 1, tasks, limit, id);
    }
  }

  lemma NotBehind(turn: seq<nat>, k: nat)
    requires Distinct(turn) && k < |turn|
    ensures turn[k] !in turn[k + 1..]
  {
  }

  lemma TakenRows(cfg: Config, turn: seq<nat>, k: nat, tasks: Tasks, limit: nat)
    requires Known(turn, tasks) && k < |turn| && RowsOf(cfg, turn, k, tasks, limit) >= 1
    ensures var b, b1, id := BatchAll(cfg, turn, k, tasks, limit), BatchAll(cfg, turn, k + 1, tasks, limit), turn[k];
            && id in tasks && id in b1.tasks
            && Build(cfg, tasks[id], |b.batch|, limit).rows != []
            && b1.tasks[id] == BuildTask(cfg, tasks[id], |b.batch|, limit)
            && b1.batch == b.batch + Build(cfg, tasks[id], |b.batch|, limit).rows
  {
    NotBefore(turn, k);
    NotYet(cfg, turn, k, tasks, limit, turn[k]);
    BatchKeys(cfg, turn, k, tasks, limit);
  }

  predicate SameRun(t: Task, t1: Task) { t.run == t1.run && t.place == t1.place }

  lemma RetiredRun(tasks: Tasks, ids: set<nat>, why: Outcome, id: nat)
    requires id in tasks
    ensures id in RetireAll(tasks, ids, why) && SameRun(RetireAll(tasks, ids, why)[id], tasks[id])
  {
  }

  lemma BuiltRun(cfg: Config, s: State, id: nat)
    requires id in BatchAll(cfg, s.loop.turn, |s.loop.turn|, s.tasks, s.loop.limit).tasks
    ensures var b := BatchAll(cfg, s.loop.turn, |s.loop.turn|, s.tasks, s.loop.limit);
            var s1 := BuildTurn(cfg, s);
            s1.loop.batch == b.batch && id in s1.tasks && SameRun(s1.tasks[id], b.tasks[id])
  {
    var b := BatchAll(cfg, s.loop.turn, |s.loop.turn|, s.tasks, s.loop.limit);
    RetiredRun(b.tasks, b.cancelled, Cancelled, id);
    RetiredRun(RetireAll(b.tasks, b.cancelled, Cancelled), b.stopped, Stopped, id);
  }

  lemma LaterAll(cfg: Config, turn: seq<nat>, k: nat, tasks: Tasks, limit: nat)
    requires Distinct(turn) && k < |turn|
    ensures var b, b1 := BatchAll(cfg, turn, k + 1, tasks, limit), BatchAll(cfg, turn, |turn|, tasks, limit);
            && (turn[k] in b.tasks ==> turn[k] in b1.tasks && b1.tasks[turn[k]] == b.tasks[turn[k]])
            && forall r :: r in b.batch ==> r in b1.batch
  {
    NotBehind(turn, k);
    assert turn[k + 1..|turn|] == turn[k + 1..];
    Later(cfg, turn, k + 1, |turn|, tasks, limit, turn[k]);
  }

  lemma TakenStays(cfg: Config, turn: seq<nat>, k: nat, tasks: Tasks, limit: nat)
    requires Known(turn, tasks) && k < |turn| && RowsOf(cfg, turn, k, tasks, limit) >= 1
    ensures var b, b1, id := BatchAll(cfg, turn, k, tasks, limit), BatchAll(cfg, turn, |turn|, tasks, limit), turn[k];
            && id in tasks && id in b1.tasks
            && var c := Build(cfg, tasks[id], |b.batch|, limit);
               c.rows != [] && c.rows[0] in b1.batch && b1.tasks[id].run == c.run && b1.tasks[id].place == c.place
  {
    TakenRows(cfg, turn, k, tasks, limit);
    LaterAll(cfg, turn, k, tasks, limit);
    var b := BatchAll(cfg, turn, k, tasks, limit);
    var rows := Build(cfg, tasks[turn[k]], |b.batch|, limit).rows;
    assert rows[0] in b.batch + rows;
  }

  /** What a task puts into the batch is in it when it is built. */
  lemma RowsStay(cfg: Config, s: State, k: nat, used: nat)
    requires Known(s.loop.turn, s.tasks) && k < |s.loop.turn| && RowsOf(cfg, s.loop.turn, k, s.tasks, s.loop.limit) >= 1
    requires used == |BatchAll(cfg, s.loop.turn, k, s.tasks, s.loop.limit).batch|
    ensures var id, s1 := s.loop.turn[k], BuildTurn(cfg, s);
            && id in s.tasks && id in s1.tasks
            && var c := Build(cfg, s.tasks[id], used, s.loop.limit);
               c.rows != [] && c.rows[0] in s1.loop.batch && s1.tasks[id].run == c.run && s1.tasks[id].place == c.place
  {
    TakenStays(cfg, s.loop.turn, k, s.tasks, s.loop.limit);
    BuiltRun(cfg, s, s.loop.turn[k]);
  }

  /** A task that puts a row into the batch advances. */
  lemma RowsAdvance(cfg: Config, s: State, k: nat)
    requires Known(s.loop.turn, s.tasks) && k < |s.loop.turn| && RowsOf(cfg, s.loop.turn, k, s.tasks, s.loop.limit) >= 1
    ensures Advances(s, BuildTurn(cfg, s), s.loop.turn[k])
  {
    var used := |BatchAll(cfg, s.loop.turn, k, s.tasks, s.loop.limit).batch|;
    RowsStay(cfg, s, k, used);
    BlockAdvances(cfg, s.tasks[s.loop.turn[k]], used, s.loop.limit);
  }

  /** Nothing but its turn keeps the task from the batch: it is live, and it fits a batch of its own if it decodes,
      or has prompt left, and room beside the decoders that the ordering saw, if it does not. */
  predicate Eager(cfg: Config, b: State, seen: seq<Item>, id: nat) {
    && id in b.tasks && !Flagged(b.tasks[id])
    && var t := b.tasks[id];
       if t.run.promptDone then 1 + |t.place.draft| <= cfg.nBatch
       else t.run.promptPos < |t.req.prompt| && DecodeTokens(seen) < cfg.nBatch
  }

  /** The head of the rotation, as the ordering saw it. */
  lemma HeadRuns(seen: seq<Item>, capacity: int, turn: nat, r: seq<Item>) returns (k: nat)
    requires seen != [] && LessLive(r, Order(seen, capacity, turn).0)
    requires var x := seen[turn % |seen|];
             !x.flagged && if x.done then Demand(x) <= capacity else x.want > 0 && DecodeTokens(seen) < capacity
    ensures var (o, limit) := Order(seen, capacity, turn);
            k < |o| && o[k] == seen[turn % |seen|] && (!r[k].flagged ==> Share(r, k, capacity, limit) >= 1)
  {
    if seen[turn % |seen|].done {
      k := HeadDecoderRuns(seen, capacity, turn, r);
    } else {
      k := HeadPromptAdvances(seen, capacity, turn, r);
    }
  }

  lemma HeadSeen(cfg: Config, p: State, b: State, runnable: seq<nat>, i: nat, seen: seq<Item>)
    requires Raised(p, b) && i < |runnable| && runnable[i] in p.tasks && seen == Views(cfg, p.tasks, runnable)
    requires Eager(cfg, b, seen, runnable[i])
    ensures var x := seen[i];
            !x.flagged && if x.done then Demand(x) <= cfg.nBatch else x.want > 0 && DecodeTokens(seen) < cfg.nBatch
  {
  }

  lemma HeadShares(cfg: Config, b: State, k: nat, id: nat)
    requires Planned(cfg, b) && k < |b.loop.runnable| && b.loop.runnable[k] == id
    requires Share(Plan(cfg, b), k, cfg.nBatch, b.loop.limit) >= 1
    ensures Advances(b, BuildTurn(cfg, b), id)
  {
    BatchIsPlan(cfg, b);
    assert b.loop.turn[..|b.loop.runnable|][k] == b.loop.turn[k];
    RowsAdvance(cfg, b, k);
  }

  lemma LiveInPlan(cfg: Config, b: State, k: nat, id: nat)
    requires k < |b.loop.runnable| && b.loop.runnable[k] == id && id in b.tasks && !Flagged(b.tasks[id])
    ensures !Plan(cfg, b)[k].flagged
  {
  }

  lemma RunnableKnown(cfg: Config, s: State, i: nat)
    requires Inv(cfg, s) && s.loop.phase == Prepare && i < |s.loop.runnable|
    ensures s.loop.runnable[i] in s.tasks
  {
    assert s.loop.runnable[i] in s.loop.runnable;
  }

  /** Turn (k, m) could serve the task. */
  ghost predicate CouldServe(cfg: Config, acts: seq<Action>, run: seq<State>, k: nat, m: nat, id: nat) {
    && Turn(run, k, m) && k < |acts| && acts[k].Stepped?
    && Eager(cfg, run[m], Seen(cfg, run[k], acts[k].env), id)
  }

  ghost predicate AllServable(cfg: Config, acts: seq<Action>, run: seq<State>, ks: seq<nat>, ms: seq<nat>, id: nat) {
    && |ks| == |ms|
    && forall j {:trigger CouldServe(cfg, acts, run, ks[j], ms[j], id)} :: 0 <= j < |ks| ==>
         CouldServe(cfg, acts, run, ks[j], ms[j], id)
  }

  ghost predicate Serves(cfg: Config, run: seq<State>, m: nat, id: nat) {
    m < |run| && var b := run[m]; Advances(b, BuildTurn(cfg, b), id)
  }

  /** The task whose turn it is -- number turnNo modulo |runnable| of the runnable ones -- advances. */
  lemma HeadOfTurnAdvances(cfg: Config, n: nat, acts: seq<Action>, run: seq<State>, k: nat, m: nat, id: nat)
    requires IsRun(cfg, n, acts, run) && cfg.capacity >= 0 && CouldServe(cfg, acts, run, k, m, id)
    requires var loop := run[k].loop; loop.runnable != [] && id == loop.runnable[loop.turnNo % |loop.runnable|]
    ensures Serves(cfg, run, m, id)
  {
    SoundAt(cfg, n, acts, run, k);
    TurnPlan(cfg, n, acts, run, k, m);
    HeadAdvances(cfg, run[k], acts[k].env, run[m]);
  }

  lemma HeadAdvances(cfg: Config, s: State, e: Env, b: State)
    requires Inv(cfg, s) && s.loop.phase == Prepare && s.loop.runnable != []
    requires Raised(Prepared(cfg, s, e), b) && Planned(cfg, b)
    requires LessLive(Plan(cfg, b), Order(Seen(cfg, s, e), cfg.nBatch, s.loop.turnNo).0)
    requires b.loop.limit == Order(Seen(cfg, s, e), cfg.nBatch, s.loop.turnNo).1
    requires Eager(cfg, b, Seen(cfg, s, e), s.loop.runnable[s.loop.turnNo % |s.loop.runnable|])
    ensures Advances(b, BuildTurn(cfg, b), s.loop.runnable[s.loop.turnNo % |s.loop.runnable|])
  {
    var i := s.loop.turnNo % |s.loop.runnable|;
    var id, seen, v := s.loop.runnable[i], Seen(cfg, s, e), Plan(cfg, b);
    RunnableKnown(cfg, s, i);
    PreparedFrame(cfg, s, e);
    HeadSeen(cfg, Prepared(cfg, s, e), b, s.loop.runnable, i, seen);
    var k := HeadRuns(seen, cfg.nBatch, s.loop.turnNo, v);
    assert b.loop.runnable[k] == v[k].id == seen[i].id == id;
    LiveInPlan(cfg, b, k, id);
    HeadShares(cfg, b, k, id);
  }

  /** Action i prepares a turn whose batch is then built. */
  predicate OpensTurn(run: seq<State>, i: nat)
    requires i + 1 < |run|
  {
    run[i].loop.phase == Prepare && run[i + 1].loop.phase == Building
  }

  /** How many turns are prepared by the actions from a on, before b. */
  function TurnsBetween(run: seq<State>, a: nat, b: nat): nat
    requires a <= b < |run|
  {
    if a == b then 0 else TurnsBetween(run, a, b - 1) + if OpensTurn(run, b - 1) then 1 else 0
  }

  /** The turns prepared by the actions ks follow one another, with no turn left out. */
  ghost predicate InSuccession(run: seq<State>, ks: seq<nat>) {
    forall j :: 0 <= j < |ks| ==> ks[0] <= ks[j] < |run| && TurnsBetween(run, ks[0], ks[j]) == j
  }

  /** The turn counter counts the turns that are prepared. */
  lemma TurnCounted(cfg: Config, n: nat, acts: seq<Action>, run: seq<State>, i: nat)
    requires IsRun(cfg, n, acts, run) && i < |acts| && run[i + 1].loop.phase != Dead
    ensures run[i].loop.phase != Dead
    ensures run[i + 1].loop.turnNo == run[i].loop.turnNo + if OpensTurn(run, i) then 1 else 0
  {
    RunStep(cfg, n, acts, run, i);
    if Enabled(cfg, run[i], acts[i]) {
      if acts[i].Stepped? {
        StepCounts(cfg, run[i], acts[i].env);
      } else {
        CallerKeepsLoop(cfg, run[i], acts[i]);
      }
    }
  }

  lemma StepCounts(cfg: Config, s: State, e: Env)
    requires SchedulerStep(cfg, s, e).loop.phase != Dead
    ensures var s1 := SchedulerStep(cfg, s, e);
            s.loop.phase != Dead &&
            s1.loop.turnNo == s.loop.turnNo + if s.loop.phase == Prepare && s1.loop.phase == Building then 1 else 0
  {
  }

  lemma {:induction false} TurnNumber(cfg: Config, n: nat, acts: seq<Action>, run: seq<State>, a: nat, b: nat)
    requires IsRun(cfg, n, acts, run) && a <= b < |run| && run[b].loop.phase != Dead
    ensures run[b].loop.turnNo == run[a].loop.turnNo + TurnsBetween(run, a, b)
  {
    if a < b {
      TurnCounted(cfg, n, acts, run, b - 1);
      TurnNumber(cfg, n, acts, run, a, b - 1);
    }
  }

  lemma {:induction false} TurnsAdd(run: seq<State>, a: nat, b: nat, c: nat)
    requires a <= b <= c < |run|
    ensures TurnsBetween(run, a, c) == TurnsBetween(run, a, b) + TurnsBetween(run, b, c)
  {
    if b < c {
      TurnsAdd(run, a, b, c - 1);
    }
  }

  lemma SuccessionPart(run: seq<State>, ks: seq<nat>, a: nat, b: nat)
    requires InSuccession(run, ks) && a <= b <= |ks| && forall i, j :: 0 <= i < j < |ks| ==> ks[i] <= ks[j]
    ensures InSuccession(run, ks[a..b])
  {
    var part := ks[a..b];
    forall j | 0 <= j < |part|
      ensures part[0] <= part[j] < |run| && TurnsBetween(run, part[0], part[j]) == j
    {
      assert part[j] == ks[a + j] && part[0] == ks[a];
      TurnsAdd(run, ks[0], ks[a], ks[a + j]);
    }
  }

  /** Turns whose numbers follow one another. */
  lemma NumberedTurns(cfg: Config, n: nat, acts: seq<Action>, run: seq<State>, ks: seq<nat>)
    requires IsRun(cfg, n, acts, run) && forall j :: 0 <= j < |ks| ==>
               ks[0] <= ks[j] < |run| && run[ks[j]].loop.phase != Dead && run[ks[j]].loop.turnNo == run[ks[0]].loop.turnNo + j
    ensures InSuccession(run, ks)
  {
    forall j | 0 <= j < |ks| ensures TurnsBetween(run, ks[0], ks[j]) == j {
      TurnNumber(cfg, n, acts, run, ks[0], ks[j]);
    }
  }

  /** Consecutive turns, prepared by the actions ks, with this list of runnable tasks. */
  ghost predicate OneRound(run: seq<State>, ks: seq<nat>, runnable: seq<nat>) {
    |ks| == |runnable| && InSuccession(run, ks) && forall j :: 0 <= j < |ks| ==> run[ks[j]].loop.runnable == runnable
  }

  /** Each task is once in a round the head of the rotation. */
  lemma OnceHead(cfg: Config, n: nat, acts: seq<Action>, run: seq<State>, ks: seq<nat>, runnable: seq<nat>, x: nat)
    returns (j: nat)
    requires IsRun(cfg, n, acts, run) && cfg.capacity >= 0 && OneRound(run, ks, runnable) && x < |runnable|
    ensures j < |ks| && ks[j] < |run| && run[ks[j]].loop.runnable == runnable && run[ks[j]].loop.turnNo % |runnable| == x
  {
    j := HeadTurn(x, run[ks[0]].loop.turnNo, |runnable|);
    SoundAt(cfg, n, acts, run, ks[j]);
    TurnNumber(cfg, n, acts, run, ks[0], ks[j]);
  }

  /** Rotation fairness: in as many consecutive turns as there are runnable tasks, the same in each, a task that could
      be served in each of them advances in one, whatever callers and foreign calls did in, before and between those
      turns.  Turn j is prepared by action ks[j] and about to be built after ms[j] actions. */
  lemma EveryoneAdvances(
    cfg: Config, n: nat, acts: seq<Action>, run: seq<State>, ks: seq<nat>, ms: seq<nat>, runnable: seq<nat>, id: nat)
    returns (j: nat)
    requires IsRun(cfg, n, acts, run) && cfg.capacity >= 0
    requires OneRound(run, ks, runnable) && id in runnable && AllServable(cfg, acts, run, ks, ms, id)
    ensures j < |ks| && Serves(cfg, run, ms[j], id)
  {
    var x :| 0 <= x < |runnable| && runnable[x] == id;
    j := OnceHead(cfg, n, acts, run, ks, runnable, x);
    assert CouldServe(cfg, acts, run, ks[j], ms[j], id);
    HeadOfTurnAdvances(cfg, n, acts, run, ks[j], ms[j], id);
  }
}
