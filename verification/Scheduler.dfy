/** The continuous-batching scheduler as a state machine. */
module Scheduler {
  // A turn of run_loop is four steps -- admission, preparation, batch building, decode/sample/retire -- and
  // callers may submit, cancel, stop, release slots or shut the scheduler down between any two of them.
  // Foreign calls are inputs of the step that makes them.

  import opened Generation
  import opened BatchOrder
  import opened SlotTask
  import opened SlotTaskProofs

  datatype Owner = Unowned | Held(id: nat)

  /** Per-sequence bookkeeping of the model: the tokens the cache is believed to hold, the tokens
      of the recurrent checkpoint, and the request currently using the sequence. */
  datatype Slot = Slot(last: seq<Token>, ckpt: seq<Token>, owner: Owner)

  datatype Phase = Top | Prepare | Building | Finish | Dead

  type Tasks = map<nat, Task>
  type Caches = seq<seq<Token>>

  /** Local variables of run_loop. */
  datatype Loop = Loop(phase: Phase, turnNo: nat, turn: seq<nat>, runnable: seq<nat>, limit: nat, batch: seq<Row>)

  /** leaked counts the positions that turns left behind, beyond the reservation, when they retired a stopped task
      that had been admitted but not initialised, since a task was last admitted. */
  datatype State = State(
    active: seq<nat>, tasks: Tasks, caches: Caches, slots: seq<Slot>,
    terminal: bool, stopping: bool, leaked: nat, loop: Loop)

  function Start(n: nat): State {
    State([], map[], seq(n, _ => []), seq(n, _ => Slot([], [], Unowned)), false, false, 0,
          Loop(Top, 0, [], [], 0, []))
  }

  function Get(tasks: Tasks, id: nat): Task {
    if id in tasks then tasks[id] else NewTask(Request(0, [], 0, {}, 0), [], [])
  }

  function CacheOf(caches: Caches, slot: nat): seq<Token> {
    if slot < |caches| then caches[slot] else []
  }

  function ToSet(ids: seq<nat>): set<nat> { set id | id in ids }

  /** std::remove + erase. */
  function Without(ids: seq<nat>, gone: set<nat>): (r: seq<nat>)
    ensures forall x :: x in r <==> x in ids && x !in gone
  {
    if ids == [] then []
    else if ids[0] in gone then Without(ids[1..], gone)
    else [ids[0]] + Without(ids[1..], gone)
  }

  function RetireAll(tasks: Tasks, ids: set<nat>, why: Outcome): Tasks {
    map id | id in tasks :: if id in ids then Retire(tasks[id], why) else tasks[id]
  }

  /** fail_all, reached by a failed decode, an exception or shutdown. */
  function FailAll(s: State): State {
    s.(active := [], tasks := RetireAll(s.tasks, ToSet(s.active), Failed), terminal := true,
       loop := s.loop.(phase := Dead, turn := [], runnable := [], batch := []))
  }

  // ---- callers ----

  function Submit(s: State, id: nat, req: Request): State
    requires req.slot < |s.slots|
  {
    var slot := s.slots[req.slot];
    var t := NewTask(req, slot.last, slot.ckpt);
    var s1 := s.(slots := s.slots[req.slot := slot.(owner := Held(id))]);
    if s.terminal || s.stopping then s1.(tasks := s.tasks[id := Retire(t, Failed)])
    else s1.(tasks := s.tasks[id := t], active := s.active + [id])
  }

  predicate IsError(why: Outcome) { why == Rejected || why == Failed }

  /** The caller's update of its slot after draining the task; it kept the first k tokens. */
  function ReleasedSlot(t: Task, slot: Slot, k: nat): Slot
    requires t.events != [] && k < |t.events|
  {
    var done := t.events[|t.events| - 1];
    if !t.run.initialized || (done.Done? && IsError(done.why)) then slot.(owner := Unowned)
    else if t.flags.cancel then Slot([], [], Unowned)
    else Slot(t.req.prompt + TokenIds(t.events[..k]), t.outCkpt, Unowned)
  }

  function TokenIds(es: seq<Event>): seq<Token> {
    if es == [] then [] else
      var e := es[|es| - 1];
      TokenIds(es[..|es| - 1]) + (if e.Tok? then [e.id] else [])
  }

  function Release(s: State, id: nat, k: nat): State
    requires id in s.tasks && k < |s.tasks[id].events| && s.tasks[id].req.slot < |s.slots|
  {
    var q := s.tasks[id].req.slot;
    s.(slots := s.slots[q := ReleasedSlot(s.tasks[id], s.slots[q], k)])
  }

  function Cancel(s: State, id: nat): State
    requires id in s.tasks
  {
    var t := s.tasks[id];
    s.(tasks := s.tasks[id := t.(flags := t.flags.(cancel := true))])
  }

  function StopTask(s: State, id: nat): State
    requires id in s.tasks
  {
    var t := s.tasks[id];
    s.(tasks := s.tasks[id := t.(flags := t.flags.(stop := true))])
  }

  // ---- admission ----

  function CanAdmit(reserved: int, required: int, capacity: int): bool {
    reserved >= 0 && required >= 0 && capacity > 0 && reserved <= capacity - required
  }

  /** Sequences of admitted tasks. */
  function Protected(tasks: Tasks, ids: seq<nat>): set<nat> {
    set id | id in ids && Get(tasks, id).pool.admitted :: Get(tasks, id).req.slot
  }

  /** Positions held by unprotected sequences. */
  function Idle(caches: Caches, prot: set<nat>): nat {
    if caches == [] then 0
    else Idle(caches[..|caches| - 1], prot) +
         (if |caches| - 1 in prot then 0 else |caches[|caches| - 1]|)
  }

  /** Results of the eviction calls for one candidate: whether clearing a sequence worked, and how
      many idle positions the draft context reports at each look. */
  datatype Eviction = Eviction(works: nat -> bool, draftIdle: nat -> nat)

  datatype Reclaimed = Reclaimed(caches: Caches, ok: bool)

  /** reclaim_bounded_pool_capacity: clear idle sequences in order until the candidate fits. */
  function Reclaim(caches: Caches, prot: set<nat>, k: nat, reserved: int, required: int, capacity: int, e: Eviction): Reclaimed
    requires k <= |caches|
    decreases |caches| - k
  {
    if CanAdmit(reserved + Max(Idle(caches, prot), e.draftIdle(k)), required, capacity) then Reclaimed(caches, true)
    else if k == |caches| then Reclaimed(caches, false)
    else if k in prot || caches[k] == [] || !e.works(k) then
      Reclaim(caches, prot, k + 1, reserved, required, capacity, e)
    else Reclaim(caches[k := []], prot, k + 1, reserved, required, capacity, e)
  }

  function SumReserved(tasks: Tasks, ids: seq<nat>): int {
    if ids == [] then 0
    else
      var t := Get(tasks, ids[|ids| - 1]);
      SumReserved(tasks, ids[..|ids| - 1]) + (if t.pool.admitted then t.pool.reserved else 0)
  }

  function AdmittedLive(tasks: Tasks, ids: seq<nat>): (r: seq<nat>)
    ensures forall x :: x in r <==> x in ids && Get(tasks, x).pool.admitted && !Flagged(Get(tasks, x))
  {
    if ids == [] then []
    else
      var n := |ids| - 1;
      AdmittedLive(tasks, ids[..n]) +
        (if Get(tasks, ids[n]).pool.admitted && !Flagged(Get(tasks, ids[n])) then [ids[n]] else [])
  }

  function LiveOf(tasks: Tasks, ids: seq<nat>): (r: seq<nat>)
    ensures forall x :: x in r <==> x in ids && !Flagged(Get(tasks, x))
  {
    if ids == [] then []
    else
      var n := |ids| - 1;
      LiveOf(tasks, ids[..n]) + (if !Flagged(Get(tasks, ids[n])) then [ids[n]] else [])
  }

  datatype Admission = Admission(
    tasks: Tasks, caches: Caches, reserved: int, runnable: seq<nat>, rejected: set<nat>, halted: bool)

  function AdmitOne(cfg: Config, all: seq<nat>, a: Admission, id: nat, e: Eviction): Admission {
    var t := Get(a.tasks, id);
    var required := Reservation(cfg, t.req);
    if a.halted || t.pool.admitted || Flagged(t) then a
    else if required > cfg.capacity then a.(rejected := a.rejected + {id})
    else if !CanAdmit(a.reserved, required, cfg.capacity) then a.(halted := true)
    else
      var r := Reclaim(a.caches, Protected(a.tasks, all) + {t.req.slot}, 0, a.reserved, required, cfg.capacity, e);
      if !r.ok then a.(caches := r.caches, rejected := a.rejected + {id})
      else
        Admission(a.tasks[id := t.(pool := Pool(true, required))], r.caches, a.reserved + required,
                  a.runnable + [id], a.rejected, false)
  }

  /** admit_bounded_pool_tasks after the first k candidates. */
  function Admit(cfg: Config, all: seq<nat>, k: nat, tasks: Tasks, caches: Caches, evictions: nat -> Eviction): Admission
    requires k <= |all|
  {
    if k == 0 then Admission(tasks, caches, SumReserved(tasks, all), AdmittedLive(tasks, all), {}, false)
    else
      AdmitOne(cfg, all, Admit(cfg, all, k - 1, tasks, caches, evictions), all[k - 1], evictions(all[k - 1]))
  }

  function ClearDrafts(tasks: Tasks, ids: seq<nat>): Tasks {
    map id | id in tasks ::
      if id in ids then tasks[id].(place := tasks[id].place.(draft := [], specRows := [])) else tasks[id]
  }

  /** An admission makes room for all that is cached: nothing counts as leaked any more. */
  function StillLeaked(leaked: nat, tasks: Tasks, a: Admission): nat { if a.tasks == tasks then leaked else 0 }

  /** Top of a turn: snapshot the active list, admit to the pool, reject what can never fit. */
  function Begin(cfg: Config, s: State, evictions: nat -> Eviction): State {
    var tasks := ClearDrafts(s.tasks, s.active);
    if !cfg.bounded then
      s.(tasks := tasks,
         loop := s.loop.(phase := Prepare, turn := s.active, runnable := LiveOf(tasks, s.active), batch := []))
    else
      var a := Admit(cfg, s.active, |s.active|, tasks, s.caches, evictions);
      var left := Without(s.active, a.rejected);
      s.(active := left, leaked := StillLeaked(s.leaked, tasks, a), tasks := RetireAll(a.tasks, a.rejected, Rejected), caches := a.caches,
         loop := s.loop.(phase := Prepare, turn := left, runnable := a.runnable, batch := []))
  }

  // ---- preparation ----

  predicate NeedsInit(tasks: Tasks, runnable: seq<nat>, id: nat) {
    id in tasks && id in runnable && !Flagged(tasks[id]) && !tasks[id].run.initialized
  }

  function InitTasks(cfg: Config, s: State, init: nat -> InitEnv): Tasks {
    map id | id in s.tasks ::
      if NeedsInit(s.tasks, s.loop.runnable, id)
      then InitTask(cfg, s.tasks[id], CacheOf(s.caches, s.tasks[id].req.slot), init(id))
      else s.tasks[id]
  }

  function InitCache(cfg: Config, s: State, q: nat, init: nat -> InitEnv): seq<Token>
    requires q < |s.caches|
  {
    if q < |s.slots| && s.slots[q].owner.Held? && NeedsInit(s.tasks, s.loop.runnable, s.slots[q].owner.id)
    then InitReuse(cfg, s.tasks[s.slots[q].owner.id], s.caches[q], init(s.slots[q].owner.id)).cache
    else s.caches[q]
  }

  function InitCaches(cfg: Config, s: State, init: nat -> InitEnv): Caches {
    seq(|s.caches|, q requires 0 <= q < |s.caches| => InitCache(cfg, s, q, init))
  }

  /** MTP eligibility and drafting; only tasks that are generating get a draft. */
  function DraftTasks(tasks: Tasks, runnable: seq<nat>, mtp: nat -> bool, drafts: nat -> seq<Token>): Tasks {
    map id | id in tasks ::
      if id in runnable
      then tasks[id].(place := tasks[id].place.(mtp := mtp(id),
                        draft := if tasks[id].run.promptDone then drafts(id) else tasks[id].place.draft))
      else tasks[id]
  }

  function Views(cfg: Config, tasks: Tasks, ids: seq<nat>): (v: seq<Item>)
    ensures |v| == |ids|
    ensures forall i :: 0 <= i < |ids| ==> v[i].id == ids[i]
  {
    seq(|ids|, i requires 0 <= i < |ids| => View(cfg, ids[i], Get(tasks, ids[i])))
  }

  function Ids(items: seq<Item>): (r: seq<nat>)
    ensures |r| == |items|
    ensures forall i :: 0 <= i < |items| ==> r[i] == items[i].id
  {
    seq(|items|, i requires 0 <= i < |items| => items[i].id)
  }

  /** Initialise newly runnable tasks, draft, and fix the batch order. */
  function PrepareTurn(cfg: Config, s: State, init: nat -> InitEnv, mtp: nat -> bool, drafts: nat -> seq<Token>): State {
    var tasks := DraftTasks(InitTasks(cfg, s, init), s.loop.runnable, mtp, drafts);
    var order := Order(Views(cfg, tasks, s.loop.runnable), cfg.nBatch, s.loop.turnNo);
    var runnable := Ids(order.0);
    s.(tasks := tasks, caches := InitCaches(cfg, s, init),
       loop := s.loop.(phase := Building, turnNo := s.loop.turnNo + 1, runnable := runnable, limit := order.1,
                       turn := runnable + Without(s.loop.turn, ToSet(runnable))))
  }

  // ---- batch building ----

  datatype Batching = Batching(tasks: Tasks, batch: seq<Row>, cancelled: set<nat>, stopped: set<nat>)

  function BatchOne(cfg: Config, b: Batching, id: nat, limit: nat): Batching {
    var t := Get(b.tasks, id);
    if t.flags.cancel then b.(cancelled := b.cancelled + {id})
    else if t.flags.stop then b.(stopped := b.stopped + {id})
    else if cfg.bounded && !t.pool.admitted then b
    else
      b.(tasks := b.tasks[id := BuildTask(cfg, t, |b.batch|, limit)],
         batch := b.batch + Build(cfg, t, |b.batch|, limit).rows)
  }

  /** The batch-building loop after the first k tasks of the turn. */
  function BatchAll(cfg: Config, turn: seq<nat>, k: nat, tasks: Tasks, limit: nat): Batching
    requires k <= |turn|
  {
    if k == 0 then Batching(tasks, [], {}, {})
    else BatchOne(cfg, BatchAll(cfg, turn, k - 1, tasks, limit), turn[k - 1], limit)
  }

  function SlotsOf(tasks: Tasks, ids: set<nat>): set<nat> {
    set id | id in ids :: Get(tasks, id).req.slot
  }

  function ClearSlots(caches: Caches, qs: set<nat>): (r: Caches)
    ensures |r| == |caches|
    ensures forall q :: 0 <= q < |caches| ==> r[q] == if q in qs then [] else caches[q]
  {
    seq(|caches|, q requires 0 <= q < |caches| => if q in qs then [] else caches[q])
  }

  /** Retiring this task leaves more stale positions than its reservation covered: it was stopped, not cancelled,
      between its admission and its initialisation. */
  predicate Leaky(t: Task, cache: seq<Token>) {
    t.flags.stop && !t.flags.cancel && t.pool.admitted && !t.run.initialized && |cache| > t.pool.reserved
  }

  /** What the task that holds sequence q leaks in this turn. */
  function LeakAt(s: State, q: nat): nat {
    if q < |s.slots| && s.slots[q].owner.Held? && s.slots[q].owner.id in s.loop.turn then
      var t, cache := Get(s.tasks, s.slots[q].owner.id), CacheOf(s.caches, q);
      if Leaky(t, cache) then |cache| - t.pool.reserved else 0
    else 0
  }

  /** What the turn leaks in the first k sequences. */
  function Leaks(s: State, k: nat): nat {
    if k == 0 then 0 else Leaks(s, k - 1) + LeakAt(s, k - 1)
  }

  /** Build the batch, then retire the cancelled (clearing their sequences) and the stopped. */
  function BuildTurn(cfg: Config, s: State): State {
    var b := BatchAll(cfg, s.loop.turn, |s.loop.turn|, s.tasks, s.loop.limit);
    var gone := b.cancelled + b.stopped;
    s.(tasks := RetireAll(RetireAll(b.tasks, b.cancelled, Cancelled), b.stopped, Stopped),
       caches := ClearSlots(s.caches, SlotsOf(b.tasks, b.cancelled)),
       active := Without(s.active, gone), leaked := s.leaked + Leaks(s, |s.slots|),
       loop := s.loop.(phase := if b.batch == [] then Top else Finish, turn := Without(s.loop.turn, gone),
                       runnable := [], batch := b.batch))
  }

  // ---- decode, sample, verify, complete ----

  function CaptureAll(tasks: Tasks, turn: seq<nat>, caches: Caches, ok: nat -> bool): Tasks {
    map id | id in tasks ::
      if id in turn then CaptureTask(tasks[id], CacheOf(caches, tasks[id].req.slot), ok(id)) else tasks[id]
  }

  datatype Finished = Finished(task: Task, cache: seq<Token>, completed: bool)

  predicate Verifies(t: Task) { t.place.iBatch < 0 && t.place.specRows != [] }

  /** Sample a plain row, or verify a drafted stretch and roll back what was rejected. */
  function FinishTask(cfg: Config, t: Task, cache: seq<Token>, batch: seq<Row>): Finished {
    if 0 <= t.place.iBatch < |batch| then
      var s := SampleTask(cfg.model, t, RowPrefix(cache, batch[t.place.iBatch]));
      Finished(s.task, cache, s.completed)
    else if Verifies(t) && t.run.nPos + |t.place.draft| < |cache| then
      var s := VerifyTask(cfg.model, t, cache);
      Finished(s.task, if s.task.run.nPos <= |cache| then cache[..s.task.run.nPos] else cache, s.completed)
    else Finished(t, cache, false)
  }

  /** Index of the first verification whose rollback fails, or |turn|. */
  function FirstFault(tasks: Tasks, turn: seq<nat>, rollback: nat -> bool): (k: nat)
    ensures k <= |turn|
  {
    if turn == [] then 0
    else if Verifies(Get(tasks, turn[0])) && !rollback(turn[0]) then 0
    else 1 + FirstFault(tasks, turn[1..], rollback)
  }

  function FinishTasks(cfg: Config, tasks: Tasks, ids: set<nat>, caches: Caches, batch: seq<Row>): Tasks {
    map id | id in tasks ::
      if id in ids then FinishTask(cfg, tasks[id], CacheOf(caches, tasks[id].req.slot), batch).task else tasks[id]
  }

  function CompletedOf(cfg: Config, tasks: Tasks, turn: seq<nat>, caches: Caches, batch: seq<Row>): set<nat> {
    set id | id in turn && id in tasks && FinishTask(cfg, tasks[id], CacheOf(caches, tasks[id].req.slot), batch).completed
  }

  /** A cache once the tasks in done are finished. */
  function FinishCache(cfg: Config, s: State, tasks: Tasks, done: set<nat>, caches: Caches, q: nat): seq<Token>
    requires q < |caches|
  {
    if q < |s.slots| && s.slots[q].owner.Held? && s.slots[q].owner.id in done && s.slots[q].owner.id in tasks
    then FinishTask(cfg, tasks[s.slots[q].owner.id], caches[q], s.loop.batch).cache
    else caches[q]
  }

  function FinishCaches(cfg: Config, s: State, tasks: Tasks, done: set<nat>, caches: Caches): (r: Caches)
    ensures |r| == |caches|
    ensures forall q :: 0 <= q < |caches| ==> r[q] == FinishCache(cfg, s, tasks, done, caches, q)
  {
    seq(|caches|, q requires 0 <= q < |caches| => FinishCache(cfg, s, tasks, done, caches, q))
  }

  /** After a successful decode: capture checkpoints, sample, verify, complete.  A failed rollback
      leaves the turn half done and fails every task. */
  function Sampling(cfg: Config, s: State, caches: Caches, capture: nat -> bool, rollback: nat -> bool): State {
    var tasks := CaptureAll(s.tasks, s.loop.turn, caches, capture);
    var fault := FirstFault(tasks, s.loop.turn, rollback);
    if fault < |s.loop.turn| then
      var done := set id | id in s.loop.turn && (!Verifies(Get(tasks, id)) || id in s.loop.turn[..fault]);
      FailAll(s.(caches := FinishCaches(cfg, s, tasks, done, caches),
                 tasks := FinishTasks(cfg, tasks, done, caches, s.loop.batch)))
    else
      var completed := CompletedOf(cfg, tasks, s.loop.turn, caches, s.loop.batch);
      var after := FinishTasks(cfg, tasks, ToSet(s.loop.turn), caches, s.loop.batch);
      s.(tasks := RetireAll(after, completed, Completed),
         caches := FinishCaches(cfg, s, tasks, ToSet(s.loop.turn), caches),
         active := Without(s.active, completed),
         loop := s.loop.(phase := Top, turn := [], runnable := [], batch := []))
  }

  // ---- one step ----

  /** Results of the foreign calls of one scheduler step. */
  datatype Env = Env(
    evictions: nat -> Eviction, init: nat -> InitEnv, mtp: nat -> bool, drafts: nat -> seq<Token>,
    drafting: bool, decode: bool, capture: nat -> bool, rollback: nat -> bool)

  function SchedulerStep(cfg: Config, s: State, e: Env): State {
    match s.loop.phase
    case Top =>
      if s.stopping then FailAll(s)
      else if s.active == [] then s
      else Begin(cfg, s, e.evictions)
    case Prepare =>
      var s1 := PrepareTurn(cfg, s, e.init, e.mtp, e.drafts);
      if e.drafting then s1 else FailAll(s1)
    case Building => BuildTurn(cfg, s)
    case Finish =>
      var kv := DecodeRows(s.caches, s.loop.batch);
      if !e.decode || kv.Clash? then FailAll(s) else Sampling(cfg, s, kv.caches, e.capture, e.rollback)
    case Dead => s
  }

  datatype Action =
    | Submitted(id: nat, req: Request)
    | Released(id: nat, kept: nat)
    | CancelRaised(id: nat)
    | StopRaised(id: nat)
    | ShutdownRaised
    | Stepped(env: Env)

  /** Assumptions on the drafter and on the draft cache when a step initialises tasks. */
  ghost predicate EnvOk(cfg: Config, s: State, e: Env) {
    && (forall id :: |e.drafts(id)| <= cfg.margin)
    && forall id :: id in s.tasks && NeedsInit(s.tasks, s.loop.runnable, id) ==>
         !DraftLags(cfg, s.tasks[id], CacheOf(s.caches, s.tasks[id].req.slot), e.init(id))
  }

  /** What callers may do: a request takes a free slot under a fresh identity, and a slot is
      released once its task is done. */
  ghost predicate Enabled(cfg: Config, s: State, a: Action) {
    match a
    case Submitted(id, req) => id !in s.tasks && req.slot < |s.slots| && s.slots[req.slot].owner == Unowned
    case Released(id, k) =>
      && id in s.tasks && id !in s.active && k < |s.tasks[id].events|
      && s.tasks[id].req.slot < |s.slots| && s.slots[s.tasks[id].req.slot].owner == Held(id)
    case CancelRaised(id) => id in s.tasks
    case StopRaised(id) => id in s.tasks
    case ShutdownRaised => true
    case Stepped(e) => EnvOk(cfg, s, e)
  }

  ghost function Next(cfg: Config, s: State, a: Action): State
    requires Enabled(cfg, s, a)
  {
    match a
    case Submitted(id, req) => Submit(s, id, req)
    case Released(id, k) => Release(s, id, k)
    case CancelRaised(id) => Cancel(s, id)
    case StopRaised(id) => StopTask(s, id)
    case ShutdownRaised => s.(stopping := true)
    case Stepped(e) => SchedulerStep(cfg, s, e)
  }
}
