/** What submitting, cancelling, failing and releasing come to. */
module SchedulerOutcome {
  import opened Generation
  import opened BatchOrder
  import opened SlotTask
  import opened SlotTaskProofs
  import opened Scheduler
  import opened SchedulerInv
  import opened SchedulerSteps
  import opened SchedulerTurn
  import opened SchedulerBuild
  import opened SchedulerFinish
  import opened SchedulerRun
  import opened SchedulerFair
  import opened SchedulerProgress

  // ---- submitting ----

  /** A submitted task waits at the end of the line, with the past of its slot, as long as the scheduler lives and is not
      told to stop; otherwise it fails at once.  Its slot is held, and nothing else changes. */
  lemma SubmitEffect(s: State, id: nat, req: Request)
    requires id !in s.tasks && req.slot < |s.slots|
    ensures var s1, slot := Submit(s, id, req), s.slots[req.slot];
            && s1.tasks.Keys == s.tasks.Keys + {id} && (forall j :: j in s.tasks ==> s1.tasks[j] == s.tasks[j])
            && s1.active == (if s.terminal || s.stopping then s.active else s.active + [id])
            && s1.tasks[id].events == (if s.terminal || s.stopping then [Done(Failed)] else [])
            && s1.tasks[id].req == req && s1.tasks[id].last == slot.last && s1.tasks[id].ckpt == slot.ckpt
            && !Flagged(s1.tasks[id]) && !s1.tasks[id].run.initialized && !s1.tasks[id].pool.admitted
            && s1.slots == s.slots[req.slot := slot.(owner := Held(id))] && s1.caches == s.caches && s1.loop == s.loop
  {
  }

  // ---- cancelling and stopping ----

  /** The last event of a flagged task. */
  function Farewell(t: Task): Event { Done(if t.flags.cancel then Cancelled else Stopped) }

  /** The batch step of every run lets go of exactly the flagged tasks of the turn.  Each is told once, cancelled before
      stopped; the sequence of a cancelled one is emptied, and that of any other task is kept. */
  lemma FlaggedLeave(cfg: Config, n: nat, acts: seq<Action>, id: nat)
    requires cfg.capacity >= 0
    requires var s := Exec(cfg, n, acts); s.loop.phase == Building && id in s.loop.turn
    ensures var s := Exec(cfg, n, acts);
            LetGo(s, BuildTurn(cfg, s), id)
  {
    RunSound(cfg, n, acts);
    BuiltOutcome(cfg, Exec(cfg, n, acts), id);
  }

  /** The batch step lets go of this task exactly if it is flagged, tells it, and empties its sequence if it is cancelled. */
  predicate LetGo(s: State, s1: State, id: nat) {
    && id in s.tasks && id in s1.tasks && (id in s1.active <==> !Flagged(s.tasks[id]))
    && s1.tasks[id].events == s.tasks[id].events + (if Flagged(s.tasks[id]) then [Farewell(s.tasks[id])] else [])
    && CacheOf(s1.caches, s.tasks[id].req.slot)
       == if s.tasks[id].flags.cancel then [] else CacheOf(s.caches, s.tasks[id].req.slot)
  }

  lemma BuiltOutcome(cfg: Config, s: State, id: nat)
    requires AtBuilding(cfg, s) && id in s.loop.turn
    ensures LetGo(s, BuildTurn(cfg, s), id)
  {
    BatchIsDone(cfg, s);
    var b := BatchAll(cfg, s.loop.turn, |s.loop.turn|, s.tasks, s.loop.limit);
    AfterOutcome(cfg, s, b, ClearSlots(s.caches, SlotsOf(b.tasks, b.cancelled)), id);
  }

  lemma AfterOutcome(cfg: Config, s: State, b: Batching, caches: Caches, id: nat)
    requires BatchDone(cfg, s, b, caches) && id in s.loop.turn
    ensures LetGo(s, AfterBuilding(s, b, caches), id)
  {
    BatchTells(cfg, s, b, caches, id);
    ClearedIs(cfg, s, b, caches, id);
    ToldOnce(s, b, caches, id);
  }

  lemma ToldOnce(s: State, b: Batching, caches: Caches, id: nat)
    requires id in s.active && id in s.tasks && id in b.tasks && b.tasks[id].events == s.tasks[id].events
    requires (id in b.cancelled <==> s.tasks[id].flags.cancel) && (id in b.stopped <==> s.tasks[id].flags.stop && !s.tasks[id].flags.cancel)
    requires CacheOf(caches, s.tasks[id].req.slot) == if id in b.cancelled then [] else CacheOf(s.caches, s.tasks[id].req.slot)
    ensures LetGo(s, AfterBuilding(s, b, caches), id)
  {
  }

  /** The lists of the batch step hold exactly the flagged tasks, and its loop pushes no events. */
  lemma BatchTells(cfg: Config, s: State, b: Batching, caches: Caches, id: nat)
    requires BatchDone(cfg, s, b, caches) && id in s.loop.turn
    ensures id in s.active && id in s.tasks && id in b.tasks && b.tasks[id].events == s.tasks[id].events
    ensures (id in b.cancelled <==> s.tasks[id].flags.cancel) && (id in b.stopped <==> s.tasks[id].flags.stop && !s.tasks[id].flags.cancel)
  {
    assert s.loop.turn[..|s.loop.turn|] == s.loop.turn;
    assert Visited(cfg, s.tasks, caches, b, DecodeRows(caches, b.batch).caches, id in s.loop.turn[..|s.loop.turn|], id);
  }

  lemma ClearedIs(cfg: Config, s: State, b: Batching, caches: Caches, id: nat)
    requires BatchDone(cfg, s, b, caches) && id in s.loop.turn
    ensures id in s.tasks
    ensures CacheOf(caches, s.tasks[id].req.slot) == if id in b.cancelled then [] else CacheOf(s.caches, s.tasks[id].req.slot)
  {
  }

  /** Raised flags stay raised. */
  lemma {:induction false} FlagsStay(cfg: Config, n: nat, acts: seq<Action>, run: seq<State>, i: nat, j: nat, id: nat)
    requires IsRun(cfg, n, acts, run) && cfg.capacity >= 0 && i <= j < |run| && id in run[i].tasks
    ensures id in run[j].tasks
    ensures run[i].tasks[id].flags.cancel ==> run[j].tasks[id].flags.cancel
    ensures run[i].tasks[id].flags.stop ==> run[j].tasks[id].flags.stop
    decreases j - i
  {
    if i == j {
    } else {
      RunAccounts(cfg, n, acts, run, i, id);
      FlagsStay(cfg, n, acts, run, i + 1, j, id);
    }
  }

  lemma RaisedNow(cfg: Config, n: nat, acts: seq<Action>, run: seq<State>, i: nat, id: nat)
    requires IsRun(cfg, n, acts, run) && i < |acts| && id in run[i].tasks && (acts[i] == CancelRaised(id) || acts[i] == StopRaised(id))
    ensures id in run[i + 1].tasks
    ensures if acts[i].CancelRaised? then run[i + 1].tasks[id].flags.cancel else run[i + 1].tasks[id].flags.stop
  {
    RunStep(cfg, n, acts, run, i);
  }

  /** A request to cancel or to stop takes effect by the next batch step: a task of a turn for which one was made, at any
      time before the batch is built, is not active behind it; it has been told, and a cancelled one leaves no cache. */
  lemma RequestsTakeEffect(cfg: Config, n: nat, acts: seq<Action>, run: seq<State>, i: nat, m: nat, id: nat)
    requires IsRun(cfg, n, acts, run) && cfg.capacity >= 0 && i < m < |acts| && id in run[i].tasks
    requires acts[i] == CancelRaised(id) || acts[i] == StopRaised(id)
    requires run[m].loop.phase == Building && run[m + 1].loop.phase != Building && id in run[m].loop.turn
    ensures id !in run[m + 1].active && id in run[m + 1].tasks
    ensures var es := run[m + 1].tasks[id].events;
            es != [] && (es[|es| - 1] == Done(Cancelled) || (acts[i].StopRaised? && es[|es| - 1] == Done(Stopped)))
    ensures acts[i].CancelRaised? ==> CacheOf(run[m + 1].caches, run[m + 1].tasks[id].req.slot) == []
  {
    RaisedNow(cfg, n, acts, run, i, id);
    FlagsStay(cfg, n, acts, run, i + 1, m, id);
    BuiltLetsGo(cfg, n, acts, run, m, id);
    RunAccounts(cfg, n, acts, run, m, id);
  }

  lemma BuiltLetsGo(cfg: Config, n: nat, acts: seq<Action>, run: seq<State>, m: nat, id: nat)
    requires IsRun(cfg, n, acts, run) && cfg.capacity >= 0 && m < |acts|
    requires run[m].loop.phase == Building && run[m + 1].loop.phase != Building && id in run[m].loop.turn
    ensures LetGo(run[m], run[m + 1], id)
  {
    BuiltNext(cfg, n, acts, run, m);
    SoundAt(cfg, n, acts, run, m);
    BuiltOutcome(cfg, run[m], id);
  }

  /** Whoever is active after admission takes part in the turn, and preparation drops nobody from it. */
  lemma AllTakePart(cfg: Config, n: nat, acts: seq<Action>, e: Env)
    requires cfg.capacity >= 0
    ensures var s := Exec(cfg, n, acts);
            var s1 := SchedulerStep(cfg, s, e);
            && (s.loop.phase == Top && s1.loop.phase == Prepare ==> s1.loop.turn == s1.active)
            && (s.loop.phase == Prepare && s1.loop.phase == Building ==>
                  s1.active == s.active && forall id :: id in s1.loop.turn <==> id in s.loop.turn)
  {
    RunSound(cfg, n, acts);
    var s := Exec(cfg, n, acts);
    if s.loop.phase == Prepare { TurnKept(cfg, s, e); }
  }

  /** Exactly those that are live, and in a bounded pool admitted, are prepared: initialised, drafted for and ordered. */
  lemma LiveAreRunnable(cfg: Config, n: nat, acts: seq<Action>, ev: nat -> Eviction, id: nat)
    requires cfg.capacity >= 0 && Exec(cfg, n, acts).loop.phase == Top
    ensures var s1 := Begin(cfg, Exec(cfg, n, acts), ev);
            id in s1.loop.runnable <==>
              id in s1.active && id in s1.tasks && !Flagged(s1.tasks[id]) && (cfg.bounded ==> s1.tasks[id].pool.admitted)
  {
    RunSound(cfg, n, acts);
    if cfg.bounded {
      BegunRunnable(cfg, Exec(cfg, n, acts), ev, id);
    } else {
      OpenRunnable(cfg, Exec(cfg, n, acts), ev, id);
    }
  }

  lemma OpenRunnable(cfg: Config, s: State, ev: nat -> Eviction, id: nat)
    requires Wired(s.active, s.tasks, s.caches, s.slots) && !cfg.bounded
    ensures var s1 := Begin(cfg, s, ev);
            id in s1.loop.runnable <==> id in s1.active && id in s1.tasks && !Flagged(s1.tasks[id])
  {
  }

  lemma BegunRunnable(cfg: Config, s: State, ev: nat -> Eviction, id: nat)
    requires Wired(s.active, s.tasks, s.caches, s.slots) && cfg.bounded
    ensures var s1 := Begin(cfg, s, ev);
            id in s1.loop.runnable <==> id in s1.active && id in s1.tasks && !Flagged(s1.tasks[id]) && s1.tasks[id].pool.admitted
  {
    AdmitBegun(cfg, s, ev);
    AfterRunnable(s, Admit(cfg, s.active, |s.active|, ClearDrafts(s.tasks, s.active), s.caches, ev), id);
  }

  lemma AfterRunnable(s: State, a: Admission, id: nat)
    requires Begun(s, a.tasks, a.caches, a.rejected) && (id in s.active ==> id in s.tasks)
    requires id in a.runnable <==> id in s.active && a.tasks[id].pool.admitted && !Flagged(s.tasks[id])
    requires id in a.rejected ==> !a.tasks[id].pool.admitted
    ensures var s1 := AfterAdmission(s, a);
            id in s1.loop.runnable <==> id in s1.active && id in s1.tasks && !Flagged(s1.tasks[id]) && s1.tasks[id].pool.admitted
  {
  }

  lemma TurnKept(cfg: Config, s: State, e: Env)
    requires Inv(cfg, s) && s.loop.phase == Prepare
    ensures forall id :: id in PrepareTurn(cfg, s, e.init, e.mtp, e.drafts).loop.turn <==> id in s.loop.turn
  {
    var p := PrepareTurn(cfg, s, e.init, e.mtp, e.drafts);
    OrderIds(cfg, p.tasks, s.loop.runnable, cfg.nBatch, s.loop.turnNo);
    ReorderedTurn(s.loop.turn, p.loop.runnable);
  }

  // ---- failing ----

  /** Every active task is told that it failed, and nobody is active any more. */
  predicate AllFailed(s: State, s1: State) {
    && s1.loop.phase == Dead && s1.terminal && s1.active == []
    && forall id :: id in s.active && id in s1.tasks ==>
         s1.tasks[id].events != [] && s1.tasks[id].events[|s1.tasks[id].events| - 1] == Done(Failed)
  }

  lemma FailAllTells(s: State, s0: State)
    requires s0.active == s.active
    ensures AllFailed(s, FailAll(s0))
  {
  }

  lemma {:induction false} FaultIff(tasks: Tasks, turn: seq<nat>, rollback: nat -> bool)
    ensures FirstFault(tasks, turn, rollback) < |turn| <==> exists id :: id in turn && Verifies(Get(tasks, id)) && !rollback(id)
  {
    if turn == [] {
    } else {
      FaultIff(tasks, turn[1..], rollback);
      assert forall id :: id in turn <==> id == turn[0] || id in turn[1..];
    }
  }

  lemma CaptureVerifies(s: State, caches: Caches, capture: nat -> bool, id: nat)
    ensures Verifies(Get(CaptureAll(s.tasks, s.loop.turn, caches, capture), id)) == Verifies(Get(s.tasks, id))
  {
  }

  /** The step cannot go on: told to stop at the top of a turn, or drafting, decoding or a rollback fails. */
  predicate Fails(s: State, e: Env) {
    match s.loop.phase
    case Top => s.stopping
    case Prepare => !e.drafting
    case Building => false
    case Finish => !e.decode || CannotRollBack(s, e)
    case Dead => false
  }

  /** Some task of the turn has a draft to verify and cannot roll back what is refused. */
  predicate CannotRollBack(s: State, e: Env) {
    exists id :: id in s.loop.turn && Verifies(Get(s.tasks, id)) && !e.rollback(id)
  }

  lemma FaultFound(s: State, caches: Caches, e: Env)
    ensures FirstFault(CaptureAll(s.tasks, s.loop.turn, caches, e.capture), s.loop.turn, e.rollback) < |s.loop.turn|
            <==> CannotRollBack(s, e)
  {
    var tasks := CaptureAll(s.tasks, s.loop.turn, caches, e.capture);
    FaultIff(tasks, s.loop.turn, e.rollback);
    forall id ensures Verifies(Get(tasks, id)) == Verifies(Get(s.tasks, id)) {
      CaptureVerifies(s, caches, e.capture, id);
    }
  }

  lemma SamplingFails(cfg: Config, s: State, caches: Caches, e: Env)
    ensures var s1 := Sampling(cfg, s, caches, e.capture, e.rollback);
            if CannotRollBack(s, e) then AllFailed(s, s1)
            else s1.loop.phase == Top
  {
    FaultFound(s, caches, e);
  }

  /** In every run a thread step ends the scheduler exactly if it cannot go on, and then tells every active task. */
  lemma FailsIff(cfg: Config, n: nat, acts: seq<Action>, e: Env)
    requires cfg.capacity >= 0 && Exec(cfg, n, acts).loop.phase != Dead
    ensures var s := Exec(cfg, n, acts);
            var s1 := SchedulerStep(cfg, s, e);
            (s1.loop.phase == Dead <==> Fails(s, e)) && (Fails(s, e) ==> AllFailed(s, s1))
  {
    var s := Exec(cfg, n, acts);
    RunSound(cfg, n, acts);
    StepFails(cfg, s, e);
  }

  lemma StepFails(cfg: Config, s: State, e: Env)
    requires Inv(cfg, s) && s.loop.phase != Dead
    ensures var s1 := SchedulerStep(cfg, s, e);
            (s1.loop.phase == Dead <==> Fails(s, e)) && (Fails(s, e) ==> AllFailed(s, s1))
  {
    match s.loop.phase
    case Top => FailAllTells(s, s);
    case Prepare => FailAllTells(s, PrepareTurn(cfg, s, e.init, e.mtp, e.drafts));
    case Building =>
    case Finish =>
      FailAllTells(s, s);
      SamplingFails(cfg, s, DecodeRows(s.caches, s.loop.batch).caches, e);
  }

  // ---- shutting down ----

  /** A request to stop the scheduler stays, and a scheduler that has ended has ended for good, without active tasks. */
  lemma EndStays(cfg: Config, s: State, a: Action)
    requires Enabled(cfg, s, a)
    ensures s.stopping ==> Next(cfg, s, a).stopping
    ensures s.loop.phase == Dead && s.terminal && s.active == [] ==>
              Next(cfg, s, a).loop.phase == Dead && Next(cfg, s, a).terminal && Next(cfg, s, a).active == []
  {
  }

  lemma {:induction false} EndedForGood(cfg: Config, n: nat, acts: seq<Action>, run: seq<State>, i: nat, j: nat)
    requires IsRun(cfg, n, acts, run) && cfg.capacity >= 0 && i <= j < |run|
    ensures run[i].stopping ==> run[j].stopping
    ensures run[i].loop.phase == Dead ==> run[j].loop.phase == Dead && run[j].active == []
    decreases j - i
  {
    SoundAt(cfg, n, acts, run, i);
    if i < j {
      RunStep(cfg, n, acts, run, i);
      if Enabled(cfg, run[i], acts[i]) {
        EndStays(cfg, run[i], acts[i]);
      }
      EndedForGood(cfg, n, acts, run, i + 1, j);
    }
  }

  /** After a request to stop the scheduler, the next thread step at the top of a turn fails every active task, and from
      then on nobody is active. */
  lemma ShutdownEnds(cfg: Config, n: nat, acts: seq<Action>, run: seq<State>, i: nat, m: nat, j: nat)
    requires IsRun(cfg, n, acts, run) && cfg.capacity >= 0 && i < m < j < |run| && acts[i] == ShutdownRaised
    requires acts[m].Stepped? && Enabled(cfg, run[m], acts[m]) && run[m].loop.phase == Top
    ensures AllFailed(run[m], run[m + 1]) && run[j].loop.phase == Dead && run[j].active == []
  {
    RunStep(cfg, n, acts, run, i);
    EndedForGood(cfg, n, acts, run, i + 1, m);
    RunStep(cfg, n, acts, run, m);
    FailAllTells(run[m], run[m]);
    EndedForGood(cfg, n, acts, run, m + 1, j);
  }

  // ---- drafts and checkpoints ----

  /** In every run a task that generates goes into the batch step with the draft that the drafter proposes, and one that
      reads its prompt with none; flags, request and events are as before. */
  lemma DraftsTaken(cfg: Config, n: nat, acts: seq<Action>, e: Env, id: nat)
    requires cfg.capacity >= 0
    requires var s := Exec(cfg, n, acts); s.loop.phase == Prepare && id in s.loop.runnable
    ensures var s := Exec(cfg, n, acts);
            var p := PrepareTurn(cfg, s, e.init, e.mtp, e.drafts);
            && id in s.tasks && id in p.tasks && p.tasks[id].place.mtp == e.mtp(id)
            && p.tasks[id].place.draft == (if p.tasks[id].run.promptDone then e.drafts(id) else [])
            && p.tasks[id].run.promptDone == s.tasks[id].run.promptDone && p.tasks[id].events == s.tasks[id].events
            && (Flagged(s.tasks[id]) || p.tasks[id].run.initialized)
  {
    RunSound(cfg, n, acts);
    DraftTaken(cfg, Exec(cfg, n, acts), e, id);
  }

  lemma DraftTaken(cfg: Config, s: State, e: Env, id: nat)
    requires Inv(cfg, s) && s.loop.phase == Prepare && id in s.loop.runnable
    ensures var p := PrepareTurn(cfg, s, e.init, e.mtp, e.drafts);
            && id in s.tasks && id in p.tasks && p.tasks[id].place.mtp == e.mtp(id)
            && p.tasks[id].place.draft == (if p.tasks[id].run.promptDone then e.drafts(id) else [])
            && p.tasks[id].run.promptDone == s.tasks[id].run.promptDone && p.tasks[id].events == s.tasks[id].events
            && (Flagged(s.tasks[id]) || p.tasks[id].run.initialized)
  {
    assert id in s.active && TaskOk(cfg, Prepare, s.loop.batch, s.tasks[id], s.caches);
  }

  /** In every run, when a batch is decoded, a task whose checkpoint is due keeps what its sequence holds at that point, if
      it can be captured: the prompt as far as it has been read.  No other checkpoint changes. */
  lemma CheckpointKept(cfg: Config, n: nat, acts: seq<Action>, e: Env, id: nat)
    requires cfg.capacity >= 0 && e.decode
    requires var s := Exec(cfg, n, acts); s.loop.phase == Finish && id in s.loop.turn
    ensures var s := Exec(cfg, n, acts);
            var s1 := SchedulerStep(cfg, s, e);
            && id in s.tasks && id in s1.tasks
            && var t := s.tasks[id];
               if t.place.capturing && e.capture(id) then
                 && s1.tasks[id].outCkpt == CacheOf(Phys(s), t.req.slot)
                 && (!t.run.promptDone && t.run.initialized ==>
                       t.run.promptPos <= |t.req.prompt| && s1.tasks[id].outCkpt == t.req.prompt[..t.run.promptPos])
               else s1.tasks[id].outCkpt == t.outCkpt
  {
    var s := Exec(cfg, n, acts);
    RunSound(cfg, n, acts);
    assert id in s.active && TaskOk(cfg, Finish, s.loop.batch, s.tasks[id], DecodeRows(s.caches, s.loop.batch).caches);
    CaptureStays(cfg, s, DecodeRows(s.caches, s.loop.batch).caches, e, id);
  }

  lemma CaptureStays(cfg: Config, s: State, caches: Caches, e: Env, id: nat)
    requires id in s.tasks && id in s.loop.turn
    ensures id in Sampling(cfg, s, caches, e.capture, e.rollback).tasks
    ensures Sampling(cfg, s, caches, e.capture, e.rollback).tasks[id].outCkpt
         == CaptureTask(s.tasks[id], CacheOf(caches, s.tasks[id].req.slot), e.capture(id)).outCkpt
  {
    var tasks := CaptureAll(s.tasks, s.loop.turn, caches, e.capture);
    FinishKeepsCkpts(cfg, tasks, caches, s.loop.batch, id);
  }

  lemma FinishKeepsCkpts(cfg: Config, tasks: Tasks, caches: Caches, batch: seq<Row>, id: nat)
    requires id in tasks
    ensures forall ids :: id in FinishTasks(cfg, tasks, ids, caches, batch) &&
              FinishTasks(cfg, tasks, ids, caches, batch)[id].outCkpt == tasks[id].outCkpt
  {
  }

  // ---- releasing ----

  /** What a slot keeps of a task whose events were drained: nothing of one that was cancelled; of one that was never begun
      or failed, what it had before; of any other, the prompt, the tokens that the caller kept, and the checkpoint.  The
      slot is free again, and nothing else changes. */
  lemma ReleasedKeeps(cfg: Config, s: State, id: nat, g: seq<Token>, why: Outcome, k: nat)
    requires id in s.tasks && RetiredWith(cfg, s.tasks[id], g, why) && k <= |g| && s.tasks[id].req.slot < |s.slots|
    ensures k < |s.tasks[id].events|
    ensures var t := s.tasks[id];
            var q, s1 := t.req.slot, Release(s, id, k);
            && |s1.slots| == |s.slots| && s1 == s.(slots := s1.slots) && (forall j :: 0 <= j < |s.slots| && j != q ==> s1.slots[j] == s.slots[j])
            && s1.slots[q].owner == Unowned
            && if !t.run.initialized || IsError(why) then s1.slots[q].last == s.slots[q].last && s1.slots[q].ckpt == s.slots[q].ckpt
               else if t.flags.cancel then s1.slots[q].last == [] && s1.slots[q].ckpt == []
               else s1.slots[q].last == t.req.prompt + g[..k] && s1.slots[q].ckpt == t.outCkpt
  {
    var t := s.tasks[id];
    assert t.events[..k] == Toks(g)[..k];
    TokenIdsOfToks(g, k);
  }
}
