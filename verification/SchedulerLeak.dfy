/** A run of the scheduler, action by action,
    that carries a load above the capacity of its pool. */
module SchedulerLeak {
  import opened Generation
  import opened BatchOrder
  import opened SlotTask
  import opened SlotTaskProofs
  import opened Scheduler
  import opened SchedulerInv
  import opened SchedulerTurn
  import opened SchedulerBuild
  import opened SchedulerPool
  import opened SchedulerWindow
  import opened SchedulerRun

  function Cfg(m: Model): Config { Config(m, 8, true, 5, 0, false) }

  /** No foreign call fails, nothing is drafted, no checkpoint is captured. */
  function Calm(): Env {
    Env(_ => Eviction(_ => true, _ => 0), _ => InitEnv(false, false, false, 0, true, true, false, false, [], false),
        _ => false, _ => [], true, true, _ => false, _ => true)
  }

  // Request 0 leaves four positions in sequence 0; request 1 reuses the sequence for a short prompt, request 2 takes
  // sequence 1; together they reserve the whole pool.

  const FIRST := Request(0, [1, 2, 3, 4], 1, {}, 0)
  const SECOND := Request(0, [9], 1, {}, 0)
  const THIRD := Request(1, [9, 9], 1, {}, 0)

  lemma ExecOn(cfg: Config, n: nat, acts: seq<Action>, s: State, a: Action)
    requires Exec(cfg, n, acts) == s && Enabled(cfg, s, a)
    ensures Exec(cfg, n, acts + [a]) == Next(cfg, s, a)
  {
    assert (acts + [a])[..|acts|] == acts;
  }

  lemma CalmIsOk(m: Model, s: State)
    ensures EnvOk(Cfg(m), s, Calm())
  {
  }

  /** A state before request 0 is sampled: it is the only task. */
  function One(t: Task, cache: seq<Token>, loop: Loop): State {
    State([0], map[0 := t], [cache, []], [Slot([], [], Held(0)), Slot([], [], Unowned)], false, false, 0, loop)
  }

  const T1 := NewTask(FIRST, [], [])
  const S1 := One(T1, [], Loop(Top, 0, [], [], 0, []))

  lemma Submits(m: Model)
    ensures Exec(Cfg(m), 2, [Submitted(0, FIRST)]) == S1
  {
    ExecOn(Cfg(m), 2, [], Start(2), Submitted(0, FIRST));
    assert [] + [Submitted(0, FIRST)] == [Submitted(0, FIRST)];
    assert [] + [0] == [0];
    assert map[][0 := T1] == map[0 := T1];
    assert Start(2).caches == [[], []];
    assert Start(2).slots[0 := Slot([], [], Held(0))] == [Slot([], [], Held(0)), Slot([], [], Unowned)];
  }

  const T2 := T1.(pool := Pool(true, 5))
  const S2 := One(T2, [], Loop(Prepare, 0, [0], [0], 0, []))

  lemma IdleNone(prot: set<nat>)
    ensures Idle([[], []], prot) == 0
  {
    var one: Caches := [[]];
    var two: Caches := [[], []];
    assert two[..1] == one && one[..0] == [];
    assert Idle(one, prot) == 0;
  }

  /** A candidate that fits without any eviction. */
  lemma Fits(cfg: Config, all: seq<nat>, a: Admission, id: nat, e: Eviction, t: Task, required: int)
    requires !a.halted && id in a.tasks && a.tasks[id] == t && !t.pool.admitted && !Flagged(t)
    requires required == Reservation(cfg, t.req) && CanAdmit(a.reserved, required, cfg.capacity)
    requires CanAdmit(a.reserved + Max(Idle(a.caches, Protected(a.tasks, all) + {t.req.slot}), e.draftIdle(0)), required, cfg.capacity)
    ensures AdmitOne(cfg, all, a, id, e)
         == Admission(a.tasks[id := t.(pool := Pool(true, required))], a.caches, a.reserved + required, a.runnable + [id], a.rejected, false)
  {
  }

  lemma NothingAdmitted(tasks: Tasks, ids: seq<nat>)
    requires forall id :: id in ids ==> !Get(tasks, id).pool.admitted
    ensures SumReserved(tasks, ids) == 0 && AdmittedLive(tasks, ids) == [] && Protected(tasks, ids) == {}
    decreases |ids|
  {
    if ids == [] {
    } else {
      NothingAdmitted(tasks, ids[..|ids| - 1]);
    }
  }

  lemma NothingGone(ids: seq<nat>, tasks: Tasks)
    ensures Without(ids, {}) == ids && RetireAll(tasks, {}, Rejected) == tasks
  {
    if ids == [] {
    } else {
      NothingGone(ids[1..], tasks);
    }
  }

  /** Admission of request 0. */
  lemma Begins(m: Model)
    ensures Begin(Cfg(m), S1, Calm().evictions) == S2
  {
    var cfg := Cfg(m);
    var tasks := ClearDrafts(S1.tasks, [0]);
    assert tasks == map[0 := T1];
    NothingAdmitted(tasks, [0]);
    var a := Admission(tasks, [[], []], 0, [], {}, false);
    assert Admit(cfg, [0], 0, tasks, [[], []], Calm().evictions) == a;
    IdleNone({} + {0});
    Fits(cfg, [0], a, 0, Calm().evictions(0), T1, 5);
    assert map[0 := T1][0 := T2] == map[0 := T2] && [] + [0] == [0];
    assert Admit(cfg, [0], 1, tasks, [[], []], Calm().evictions) == Admission(map[0 := T2], [[], []], 5, [0], {}, false);
    NothingGone([0], map[0 := T2]);
  }

  const T3 := T2.(run := T2.run.(initialized := true))
  const S3 := One(T3, [], Loop(Building, 1, [0], [0], 8, []))

  lemma FreshStart(cfg: Config, t: Task, cache: seq<Token>, e: InitEnv)
    requires t.last == [] && !e.eligible
    ensures InitReuse(cfg, t, cache, e) == Reuse(0, [], [])
  {
  }

  lemma Singleton(ids: seq<nat>, x: nat)
    requires Distinct(ids) && forall y :: y in ids <==> y == x
    ensures ids == [x]
  {
    assert x in ids;
    var i :| 0 <= i < |ids| && ids[i] == x;
    assert forall j :: 0 <= j < |ids| ==> ids[j] in ids;
    if |ids| > 1 {
      TwoDiffer(ids);
    }
  }

  lemma TwoDiffer(ids: seq<nat>)
    requires Distinct(ids) && |ids| > 1
    ensures ids[0] != ids[1]
  {
  }

  /** The order of one prompt alone. */
  lemma OrderOfOne(cfg: Config, tasks: Tasks, t: Task)
    requires cfg.nBatch == 8 && 0 in tasks && tasks[0] == t && !t.run.promptDone && !Flagged(t)
    ensures Ids(Order(Views(cfg, tasks, [0]), 8, 0).0) == [0] && Order(Views(cfg, tasks, [0]), 8, 0).1 == 8
  {
    var v := Views(cfg, tasks, [0]);
    OrderIds(cfg, tasks, [0], 8, 0);
    assert forall y :: y in [0] <==> y == 0;
    Singleton(Ids(Order(v, 8, 0).0), 0);
    var d, p := OrderShape(v, 8, 0);
    assert v[..0] == [];
    assert DecodeTokens(v) == 0 && Prompts(v) == 1;
    assert Available(8, 0, 1) == 8 && PrefillLimit(8, 1) == 8;
  }

  /** A preparation step that keeps the turn as it is. */
  lemma PreparesAs(cfg: Config, s: State, e: Env, ids: seq<nat>, begun: Tasks, tasks: Tasks, caches: Caches, limit: nat)
    requires s.loop.runnable == ids == s.loop.turn && ids + Without(ids, ToSet(ids)) == ids
    requires InitTasks(cfg, s, e.init) == begun && InitCaches(cfg, s, e.init) == caches
    requires DraftTasks(begun, ids, e.mtp, e.drafts) == tasks
    requires Ids(Order(Views(cfg, tasks, ids), cfg.nBatch, s.loop.turnNo).0) == ids
    requires Order(Views(cfg, tasks, ids), cfg.nBatch, s.loop.turnNo).1 == limit
    ensures PrepareTurn(cfg, s, e.init, e.mtp, e.drafts)
         == s.(tasks := tasks, caches := caches, loop := s.loop.(phase := Building, turnNo := s.loop.turnNo + 1, limit := limit))
  {
  }

  /** Initialisation of request 0. */
  lemma Prepares(m: Model)
    ensures PrepareTurn(Cfg(m), S2, Calm().init, Calm().mtp, Calm().drafts) == S3
  {
    Inits(m);
    Drafts();
    OrderOfOne(Cfg(m), map[0 := T3], T3);
    AllRunnable();
    PreparesAs(Cfg(m), S2, Calm(), [0], map[0 := T3], map[0 := T3], [[], []], 8);
  }

  lemma AllRunnable()
    ensures [0] + Without([0], ToSet([0])) == [0]
  {
    assert [0][1..] == [];
  }

  lemma Drafts()
    ensures DraftTasks(map[0 := T3], [0], Calm().mtp, Calm().drafts) == map[0 := T3]
  {
  }

  lemma Inits(m: Model)
    ensures InitTasks(Cfg(m), S2, Calm().init) == map[0 := T3] && InitCaches(Cfg(m), S2, Calm().init) == [[], []]
  {
    FreshStart(Cfg(m), T2, [], Calm().init(0));
  }

  const ROWS := RowsFor(0, 0, [1, 2, 3, 4], 3)
  const T4 := T3.(run := T3.run.(promptPos := 4, nPos := 4), place := T3.place.(iBatch := 3))
  const S4 := One(T4, [], Loop(Finish, 1, [0], [], 8, ROWS))

  lemma BuildsOne(m: Model)
    ensures Build(Cfg(m), T3, 0, 8) == Contribution(T4.run, T4.place, ROWS)
  {
    assert Chunk(Cfg(m), T3, 0, 8) == 4;
    assert [1, 2, 3, 4][0..4] == [1, 2, 3, 4];
  }

  /** The batch of request 0: its four prompt tokens. */
  lemma Builds(m: Model)
    ensures BuildTurn(Cfg(m), S3) == S4
  {
    var cfg := Cfg(m);
    BuildsOne(m);
    var b0 := BatchAll(cfg, [0], 0, S3.tasks, 8);
    assert b0 == Batching(map[0 := T3], [], {}, {});
    var b := BatchAll(cfg, [0], 1, S3.tasks, 8);
    assert [] + ROWS == ROWS && map[0 := T3][0 := T4] == map[0 := T4];
    assert b == BatchOne(cfg, b0, 0, 8);
    assert b == Batching(map[0 := T4], ROWS, {}, {});
    assert RetireAll(RetireAll(b.tasks, {}, Cancelled), {}, Stopped) == b.tasks;
    assert SlotsOf(b.tasks, {}) == {} && ClearSlots([[], []], {}) == [[], []];
    NothingGone([0], b.tasks);
    assert b.cancelled + b.stopped == {};
  }

  // ---- request 0 is decoded and completes ----

  lemma Decodes()
    ensures DecodeRows([[], []], ROWS) == Kv([[1, 2, 3, 4], []])
  {
    var none: Caches := [[], []];
    DecodesTo(none, ROWS, [1, 2, 3, 4]);
    assert none[0 := [1, 2, 3, 4]] == [[1, 2, 3, 4], []];
  }

  lemma DecodesTo(caches: Caches, rows: seq<Row>, toks: seq<Token>)
    requires caches != [] && caches[0] == [] && toks != [] && rows == RowsFor(0, 0, toks, |toks| - 1)
    ensures DecodeRows(caches, rows) == Kv(caches[0 := toks])
  {
    DecodeBlock(caches, [], rows, 0, toks);
    assert [] + rows == rows;
    assert caches[0] + toks == toks;
  }

  /** Request 0 when it is done; which token it ends with is the model's choice. */
  predicate Ended(z: Task) {
    && z.req == FIRST && z.run.initialized && z.flags == Flags(false, false) && z.outCkpt == []
    && z.events != [] && z.events[|z.events| - 1] == Done(Completed)
  }

  function T5(m: Model): Task { Retire(SampleTask(m, T4, [1, 2, 3, 4]).task, Completed) }

  lemma AcceptFrame(m: Model, t: Task, id: Token)
    ensures var u := Accept(m, t, id).task;
            u.req == t.req && u.flags == t.flags && u.outCkpt == t.outCkpt && u.run.initialized == t.run.initialized
  {
  }

  lemma RetiredEnds(t: Task)
    requires t.req == FIRST && t.run.initialized && t.flags == Flags(false, false) && t.outCkpt == []
    ensures Ended(Retire(t, Completed))
  {
  }

  lemma T5Ended(m: Model)
    ensures Ended(T5(m))
  {
    AcceptFrame(m, T4, m.next([1, 2, 3, 4], T4.run.accepted));
    RetiredEnds(SampleTask(m, T4, [1, 2, 3, 4]).task);
  }

  const FULL: Caches := [[1, 2, 3, 4], []]

  function S5(z: Task): State {
    State([], map[0 := z], FULL, [Slot([], [], Held(0)), Slot([], [], Unowned)], false, false, 0, Loop(Top, 1, [], [], 8, []))
  }

  lemma Samples(m: Model)
    ensures FinishTask(Cfg(m), T4, [1, 2, 3, 4], ROWS) == Finished(SampleTask(m, T4, [1, 2, 3, 4]).task, [1, 2, 3, 4], true)
  {
    assert ROWS[3].pos == 3;
    assert [1, 2, 3, 4][..4] == [1, 2, 3, 4];
  }

  lemma Captures(t: Task, capture: nat -> bool)
    requires t.req.slot == 0 && !t.place.capturing
    ensures CaptureAll(map[0 := t], [0], FULL, capture) == map[0 := t]
  {
  }

  lemma NoFault(t: Task, rollback: nat -> bool)
    requires !Verifies(t)
    ensures FirstFault(map[0 := t], [0], rollback) == 1
  {
    assert [0][1..] == [];
  }

  lemma FinishesAll(cfg: Config, t: Task, done: Task, batch: seq<Row>)
    requires t.req.slot == 0 && FinishTask(cfg, t, [1, 2, 3, 4], batch) == Finished(done, [1, 2, 3, 4], true)
    ensures CompletedOf(cfg, map[0 := t], [0], FULL, batch) == {0}
    ensures FinishTasks(cfg, map[0 := t], ToSet([0]), FULL, batch) == map[0 := done]
    ensures RetireAll(map[0 := done], {0}, Completed) == map[0 := Retire(done, Completed)]
  {
  }

  lemma KeepsCaches(cfg: Config, s: State, t: Task, done: Task)
    requires s.slots == [Slot([], [], Held(0)), Slot([], [], Unowned)]
    requires FinishTask(cfg, t, [1, 2, 3, 4], s.loop.batch) == Finished(done, [1, 2, 3, 4], true)
    ensures FinishCaches(cfg, s, map[0 := t], ToSet([0]), FULL) == FULL
  {
  }

  lemma LastGone()
    ensures Without([0], {0}) == []
  {
    assert [0][1..] == [];
  }

  lemma Completes(m: Model)
    ensures Sampling(Cfg(m), S4, FULL, Calm().capture, Calm().rollback) == S5(T5(m))
  {
    var done := SampleTask(m, T4, [1, 2, 3, 4]).task;
    Samples(m);
    CompletesWith(Cfg(m), S4, T4, done, Calm().capture, Calm().rollback);
  }

  lemma CompletesWith(cfg: Config, s: State, t: Task, done: Task, capture: nat -> bool, rollback: nat -> bool)
    requires s == One(t, [], s.loop) && s.loop == Loop(Finish, 1, [0], [], 8, s.loop.batch)
    requires t.req.slot == 0 && !t.place.capturing && !Verifies(t)
    requires FinishTask(cfg, t, [1, 2, 3, 4], s.loop.batch) == Finished(done, [1, 2, 3, 4], true)
    ensures Sampling(cfg, s, FULL, capture, rollback) == S5(Retire(done, Completed))
  {
    Captures(t, capture);
    NoFault(t, rollback);
    FinishesAll(cfg, t, done, s.loop.batch);
    KeepsCaches(cfg, s, t, done);
    LastGone();
  }

  // ---- its slot is released, and requests 1 and 2 come ----

  function S6(z: Task): State {
    S5(z).(slots := [Slot([1, 2, 3, 4], [], Unowned), Slot([], [], Unowned)])
  }

  lemma Releases(m: Model, z: Task)
    requires Ended(z)
    ensures Enabled(Cfg(m), S5(z), Released(0, 0)) && Next(Cfg(m), S5(z), Released(0, 0)) == S6(z)
  {
    assert z.events[..0] == [];
    assert [1, 2, 3, 4] + [] == [1, 2, 3, 4];
    assert S5(z).slots[0 := Slot([1, 2, 3, 4], [], Unowned)] == S6(z).slots;
  }

  const U1 := NewTask(SECOND, [1, 2, 3, 4], [])
  const V1 := NewTask(THIRD, [], [])

  function S7(z: Task): State {
    S6(z).(active := [1], tasks := map[0 := z, 1 := U1], slots := [Slot([1, 2, 3, 4], [], Held(1)), Slot([], [], Unowned)])
  }

  function S8(z: Task): State {
    S7(z).(active := [1, 2], tasks := map[0 := z, 1 := U1, 2 := V1],
           slots := [Slot([1, 2, 3, 4], [], Held(1)), Slot([], [], Held(2))])
  }

  lemma SubmitsSecond(m: Model, z: Task)
    ensures Enabled(Cfg(m), S6(z), Submitted(1, SECOND)) && Submit(S6(z), 1, SECOND) == S7(z)
  {
    assert [] + [1] == [1];
    assert map[0 := z][1 := U1] == map[0 := z, 1 := U1];
    assert S6(z).slots[0 := Slot([1, 2, 3, 4], [], Held(1))] == S7(z).slots;
  }

  lemma SubmitsThird(m: Model, z: Task)
    ensures Enabled(Cfg(m), S7(z), Submitted(2, THIRD)) && Submit(S7(z), 2, THIRD) == S8(z)
  {
    assert [1] + [2] == [1, 2];
    assert map[0 := z, 1 := U1][2 := V1] == map[0 := z, 1 := U1, 2 := V1];
    assert S7(z).slots[1 := Slot([], [], Held(2))] == S8(z).slots;
  }

  // ---- both are admitted ----

  const U2 := U1.(pool := Pool(true, 2))
  const V2 := V1.(pool := Pool(true, 3))

  function S9(z: Task): State {
    S8(z).(tasks := map[0 := z, 1 := U2, 2 := V2], loop := Loop(Prepare, 1, [1, 2], [1, 2], 8, []))
  }

  lemma IdleFull(prot: set<nat>)
    requires 0 in prot
    ensures Idle(FULL, prot) == 0
  {
    var one: Caches := [[1, 2, 3, 4]];
    assert FULL[..1] == one && one[..0] == [];
    assert Idle(one, prot) == 0;
  }

  /** Three tasks, of which the second and third are active. */
  function Three(z: Task, u: Task, v: Task): Tasks { map[0 := z, 1 := u, 2 := v] }

  lemma ClearsNothing(z: Task, u: Task, v: Task)
    requires u.place.draft == [] && u.place.specRows == [] && v.place.draft == [] && v.place.specRows == []
    ensures ClearDrafts(Three(z, u, v), [1, 2]) == Three(z, u, v)
  {
    var c := ClearDrafts(Three(z, u, v), [1, 2]);
    assert c[0] == z && c[1] == u && c[2] == v;
  }

  lemma ProtectsFirst(z: Task, u: Task, v: Task)
    requires u.pool.admitted && u.req.slot == 0
    ensures 0 in Protected(Three(z, u, v), [1, 2])
  {
    assert Get(Three(z, u, v), 1) == u;
  }

  lemma AdmitsFirst(cfg: Config, z: Task, u: Task, v: Task, e: Eviction)
    requires cfg.bounded && cfg.capacity == 5 && Reservation(cfg, u.req) == 2 && u.req.slot == 0 && e.draftIdle(0) == 0
    requires !u.pool.admitted && !v.pool.admitted && !Flagged(u)
    ensures AdmitOne(cfg, [1, 2], Admission(Three(z, u, v), FULL, 0, [], {}, false), 1, e)
         == Admission(Three(z, u.(pool := Pool(true, 2)), v), FULL, 2, [1], {}, false)
  {
    var a := Admission(Three(z, u, v), FULL, 0, [], {}, false);
    IdleFull(Protected(a.tasks, [1, 2]) + {0});
    Fits(cfg, [1, 2], a, 1, e, u, 2);
    assert Three(z, u, v)[1 := u.(pool := Pool(true, 2))] == Three(z, u.(pool := Pool(true, 2)), v);
    assert [] + [1] == [1];
  }

  lemma AdmitsSecond(cfg: Config, z: Task, u: Task, v: Task, e: Eviction)
    requires cfg.bounded && cfg.capacity == 5 && Reservation(cfg, v.req) == 3 && v.req.slot == 1 && e.draftIdle(0) == 0
    requires u.pool.admitted && u.req.slot == 0 && !v.pool.admitted && !Flagged(v)
    ensures AdmitOne(cfg, [1, 2], Admission(Three(z, u, v), FULL, 2, [1], {}, false), 2, e)
         == Admission(Three(z, u, v.(pool := Pool(true, 3))), FULL, 5, [1, 2], {}, false)
  {
    var a := Admission(Three(z, u, v), FULL, 2, [1], {}, false);
    ProtectsFirst(z, u, v);
    IdleFull(Protected(a.tasks, [1, 2]) + {1});
    Fits(cfg, [1, 2], a, 2, e, v, 3);
    assert Three(z, u, v)[2 := v.(pool := Pool(true, 3))] == Three(z, u, v.(pool := Pool(true, 3)));
    assert [1] + [2] == [1, 2];
  }

  lemma AdmitTwoSteps(cfg: Config, tasks: Tasks, caches: Caches, ev: nat -> Eviction)
    ensures Admit(cfg, [1, 2], 2, tasks, caches, ev)
         == AdmitOne(cfg, [1, 2], AdmitOne(cfg, [1, 2], Admit(cfg, [1, 2], 0, tasks, caches, ev), 1, ev(1)), 2, ev(2))
  {
    var a1 := Admit(cfg, [1, 2], 1, tasks, caches, ev);
    assert a1 == AdmitOne(cfg, [1, 2], Admit(cfg, [1, 2], 0, tasks, caches, ev), [1, 2][0], ev([1, 2][0]));
  }

  lemma NoneAdmitted(z: Task, u: Task, v: Task)
    requires !u.pool.admitted && !v.pool.admitted
    ensures SumReserved(Three(z, u, v), [1, 2]) == 0 && AdmittedLive(Three(z, u, v), [1, 2]) == []
  {
    NothingAdmitted(Three(z, u, v), [1, 2]);
  }

  lemma AdmitsTwo(m: Model, z: Task)
    ensures Admit(Cfg(m), [1, 2], 2, Three(z, U1, V1), FULL, Calm().evictions) == Admission(Three(z, U2, V2), FULL, 5, [1, 2], {}, false)
  {
    NoneAdmitted(z, U1, V1);
    AdmitTwoSteps(Cfg(m), Three(z, U1, V1), FULL, Calm().evictions);
    AdmitsFirst(Cfg(m), z, U1, V1, Calm().evictions(1));
    AdmitsSecond(Cfg(m), z, U2, V1, Calm().evictions(2));
  }

  lemma BeginsTwo(m: Model, z: Task)
    ensures Begin(Cfg(m), S8(z), Calm().evictions) == S9(z)
  {
    ClearsNothing(z, U1, V1);
    AdmitsTwo(m, z);
    NothingGone([1, 2], Three(z, U2, V2));
  }

  // ---- request 1 is stopped, and the turn goes on ----

  const U3 := U2.(flags := Flags(false, true))

  function S10(z: Task): State { S9(z).(tasks := Three(z, U3, V2)) }

  lemma Stops(m: Model, z: Task)
    ensures Enabled(Cfg(m), S9(z), StopRaised(1)) && Next(Cfg(m), S9(z), StopRaised(1)) == S10(z)
  {
    assert Three(z, U2, V2)[1 := U3] == Three(z, U3, V2);
  }

  /** What matters of a state before the batch step: who holds what, and that request 1 is stopped. */
  ghost predicate AtLeak(s: State) {
    && s.leaked == 0 && s.active == [1, 2] && 1 in s.loop.turn && |s.caches| == 2 && s.caches[0] == [1, 2, 3, 4]
    && s.slots == [Slot([1, 2, 3, 4], [], Held(1)), Slot([], [], Held(2))]
    && Get(s.tasks, 1).flags == Flags(false, true) && Get(s.tasks, 1).pool == Pool(true, 2) && !Get(s.tasks, 1).run.initialized
    && Get(s.tasks, 2).flags == Flags(false, false) && Get(s.tasks, 2).pool == Pool(true, 3)
  }

  lemma PreparesTwo(m: Model, z: Task, e: Env)
    requires Inv(Cfg(m), S10(z))
    ensures AtLeak(PrepareTurn(Cfg(m), S10(z), e.init, e.mtp, e.drafts))
  {
    var cfg, s := Cfg(m), S10(z);
    var p := PrepareTurn(cfg, s, e.init, e.mtp, e.drafts);
    PreparedFrame(cfg, s, e);
    OrderIds(cfg, p.tasks, [1, 2], cfg.nBatch, 1);
    ReorderedTurn([1, 2], p.loop.runnable);
    assert InitCaches(cfg, s, e.init)[0] == InitCache(cfg, s, 0, e.init);
    assert 1 in s.tasks && 2 in s.tasks && s.tasks[1] == U3 && s.tasks[2] == V2;
  }

  lemma SumTwo(w: seq<int>)
    requires |w| == 2
    ensures Sum(w) == w[0] + w[1]
  {
    assert w[..1] == [w[0]] && [w[0]][..0] == [];
    assert Sum([w[0]]) == w[0];
  }

  lemma LoadBefore(s: State)
    requires AtLeak(s)
    ensures |s.slots| == |s.caches| && Load(s.tasks, s.active, s.slots, s.caches) == 5
    ensures Sum(AllReturned(s)) == 2 + Returned(s, 1) && Sum(AllStays(s)) == 4 + Stays(s, 1)
    ensures Returned(s, 1) == 0 && Stays(s, 1) == 0
  {
    SumTwo(Weights(s.tasks, s.active, s.slots, s.caches));
    SumTwo(AllReturned(s));
    SumTwo(AllStays(s));
  }

  lemma LeakOfTwo(s: State)
    requires AtLeak(s)
    ensures Leaks(s, 2) == 2
  {
    assert LeakAt(s, 0) == 2 && LeakAt(s, 1) == 0;
    assert Leaks(s, 1) == Leaks(s, 0) + LeakAt(s, 0);
  }

  /** The batch step takes the load from five to seven. */
  lemma LeakStep(m: Model, s: State)
    requires AtLeak(s) && AtBuilding(Cfg(m), s)
    ensures var s1 := BuildTurn(Cfg(m), s);
            s1.leaked == 2 && |Phys(s1)| == |s1.slots| && Load(s1.tasks, s1.active, s1.slots, Phys(s1)) == 7
  {
    LoadBefore(s);
    LeakOfTwo(s);
    TurnLoad(Cfg(m), s);
  }

  // ---- the run ----

  function Acts(k: nat): seq<Action> {
    if k == 0 then []
    else if k == 1 then Acts(0) + [Submitted(0, FIRST)]
    else if k <= 5 then Acts(k - 1) + [Stepped(Calm())]
    else if k == 6 then Acts(5) + [Released(0, 0)]
    else if k == 7 then Acts(6) + [Submitted(1, SECOND)]
    else if k == 8 then Acts(7) + [Submitted(2, THIRD)]
    else if k == 9 then Acts(8) + [Stepped(Calm())]
    else if k == 10 then Acts(9) + [StopRaised(1)]
    else Acts(k - 1) + [Stepped(Calm())]
  }

  lemma StepsTo(m: Model, k: nat, s: State)
    requires Exec(Cfg(m), 2, Acts(k)) == s && Acts(k + 1) == Acts(k) + [Stepped(Calm())]
    ensures Exec(Cfg(m), 2, Acts(k + 1)) == SchedulerStep(Cfg(m), s, Calm())
  {
    CalmIsOk(m, s);
    ExecOn(Cfg(m), 2, Acts(k), s, Stepped(Calm()));
  }

  /** One thread step of the run, from a state known by its value. */
  lemma StepsOn(m: Model, k: nat, s: State, s1: State)
    requires Exec(Cfg(m), 2, Acts(k)) == s && Acts(k + 1) == Acts(k) + [Stepped(Calm())] && SchedulerStep(Cfg(m), s, Calm()) == s1
    ensures Exec(Cfg(m), 2, Acts(k + 1)) == s1
  {
    StepsTo(m, k, s);
  }

  lemma BeginStep(m: Model)
    ensures SchedulerStep(Cfg(m), S1, Calm()) == S2
  {
    Begins(m);
  }

  lemma PrepareStep(m: Model)
    ensures SchedulerStep(Cfg(m), S2, Calm()) == S3
  {
    Prepares(m);
  }

  lemma BuildStep(m: Model)
    ensures SchedulerStep(Cfg(m), S3, Calm()) == S4
  {
    Builds(m);
  }

  lemma StepSamples(cfg: Config, s: State, e: Env, caches: Caches)
    requires s.loop.phase == Finish && e.decode && DecodeRows(s.caches, s.loop.batch) == Kv(caches)
    ensures SchedulerStep(cfg, s, e) == Sampling(cfg, s, caches, e.capture, e.rollback)
  {
  }

  lemma SampleStep(m: Model)
    ensures SchedulerStep(Cfg(m), S4, Calm()) == S5(T5(m))
  {
    Decodes();
    StepSamples(Cfg(m), S4, Calm(), FULL);
    Completes(m);
  }

  lemma StepActs(k: nat)
    requires 1 <= k < 5 || k == 8 || k >= 10
    ensures Acts(k + 1) == Acts(k) + [Stepped(Calm())]
  {
  }

  /** Four thread steps of the run. */
  lemma FourSteps(m: Model, k: nat, s1: State, s2: State, s3: State, s4: State, s5: State)
    requires k == 1 && Exec(Cfg(m), 2, Acts(k)) == s1
    requires SchedulerStep(Cfg(m), s1, Calm()) == s2 && SchedulerStep(Cfg(m), s2, Calm()) == s3
    requires SchedulerStep(Cfg(m), s3, Calm()) == s4 && SchedulerStep(Cfg(m), s4, Calm()) == s5
    ensures Exec(Cfg(m), 2, Acts(k + 4)) == s5
  {
    StepActs(k);
    StepsOn(m, k, s1, s2);
    StepActs(k + 1);
    StepsOn(m, k + 1, s2, s3);
    StepActs(k + 2);
    StepsOn(m, k + 2, s3, s4);
    StepActs(k + 3);
    StepsOn(m, k + 3, s4, s5);
  }

  lemma FirstHalf(m: Model)
    ensures Exec(Cfg(m), 2, Acts(5)) == S5(T5(m))
  {
    Submits(m);
    FirstActs();
    BeginStep(m);
    PrepareStep(m);
    BuildStep(m);
    SampleStep(m);
    FourSteps(m, 1, S1, S2, S3, S4, S5(T5(m)));
  }

  lemma FirstActs()
    ensures Acts(1) == [Submitted(0, FIRST)]
  {
  }

  lemma ActsOn(m: Model, k: nat, s: State, a: Action, s1: State)
    requires Exec(Cfg(m), 2, Acts(k)) == s && Acts(k + 1) == Acts(k) + [a] && Enabled(Cfg(m), s, a) && Next(Cfg(m), s, a) == s1
    ensures Exec(Cfg(m), 2, Acts(k + 1)) == s1
  {
    ExecOn(Cfg(m), 2, Acts(k), s, a);
  }

  lemma BothSubmitted(m: Model, z: Task)
    requires Ended(z) && Exec(Cfg(m), 2, Acts(5)) == S5(z)
    ensures Exec(Cfg(m), 2, Acts(8)) == S8(z)
  {
    Releases(m, z);
    ActsOn(m, 5, S5(z), Released(0, 0), S6(z));
    SubmitsSecond(m, z);
    ActsOn(m, 6, S6(z), Submitted(1, SECOND), S7(z));
    SubmitsThird(m, z);
    ActsOn(m, 7, S7(z), Submitted(2, THIRD), S8(z));
  }

  lemma StepBegins(cfg: Config, s: State, e: Env)
    requires s.loop.phase == Top && !s.stopping && s.active != []
    ensures SchedulerStep(cfg, s, e) == Begin(cfg, s, e.evictions)
  {
  }

  lemma AdmitStep(m: Model, z: Task)
    ensures SchedulerStep(Cfg(m), S8(z), Calm()) == S9(z)
  {
    StepBegins(Cfg(m), S8(z), Calm());
    BeginsTwo(m, z);
  }

  /** Two actions of the run. */
  lemma StepThenStop(m: Model, k: nat, s: State, s1: State, s2: State)
    requires k == 8 && Exec(Cfg(m), 2, Acts(k)) == s && SchedulerStep(Cfg(m), s, Calm()) == s1
    requires Enabled(Cfg(m), s1, StopRaised(1)) && Next(Cfg(m), s1, StopRaised(1)) == s2
    ensures Exec(Cfg(m), 2, Acts(k + 2)) == s2
  {
    StepActs(k);
    StepsOn(m, k, s, s1);
    ActsOn(m, k + 1, s1, StopRaised(1), s2);
  }

  lemma SecondHalf(m: Model, z: Task)
    requires Exec(Cfg(m), 2, Acts(8)) == S8(z)
    ensures Exec(Cfg(m), 2, Acts(10)) == S10(z)
  {
    AdmitStep(m, z);
    Stops(m, z);
    StepThenStop(m, 8, S8(z), S9(z), S10(z));
  }

  /** The state of the run before its last step. */
  function BeforeLast(m: Model): State { PrepareTurn(Cfg(m), S10(T5(m)), Calm().init, Calm().mtp, Calm().drafts) }

  lemma ElevenSteps(m: Model)
    ensures Exec(Cfg(m), 2, Acts(11)) == BeforeLast(m) && AtLeak(BeforeLast(m))
  {
    FirstHalf(m);
    T5Ended(m);
    BothSubmitted(m, T5(m));
    SecondHalf(m, T5(m));
    RunSound(Cfg(m), 2, Acts(10));
    PreparesTwo(m, T5(m), Calm());
    StepActs(10);
    StepsTo(m, 10, S10(T5(m)));
  }

  lemma LastStep(m: Model, s: State)
    requires s.loop.phase == Building
    ensures SchedulerStep(Cfg(m), s, Calm()) == BuildTurn(Cfg(m), s)
  {
  }

  /** A run of twelve actions after which a pool of five positions carries a load of seven: what leaked is exactly
      what is too much. */
  lemma PoolLeaks(m: Model)
    ensures var s := Exec(Cfg(m), 2, Acts(12));
            && Cfg(m).bounded && |Phys(s)| == |s.slots|
            && Load(s.tasks, s.active, s.slots, Phys(s)) == 7 == Cfg(m).capacity + s.leaked && s.leaked == 2
  {
    var s := BeforeLast(m);
    ElevenSteps(m);
    RunSound(Cfg(m), 2, Acts(11));
    LeakStep(m, s);
    LastStep(m, s);
    StepActs(11);
    StepsOn(m, 11, s, BuildTurn(Cfg(m), s));
  }
}
