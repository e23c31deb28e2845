/** What holds in every run of the scheduler. */
module SchedulerRun {
  // Any interleaving of submissions, cancellations, stops, slot releases, shutdown and scheduler steps, with
  // any outcomes of foreign calls.

  import opened Generation
  import opened BatchOrder
  import opened SlotTask
  import opened SlotTaskProofs
  import opened Scheduler
  import opened SchedulerInv
  import opened SchedulerSteps
  import opened SchedulerTurn
  import opened SchedulerBuild
  import opened SchedulerFinish
  import opened SchedulerPool
  import opened SchedulerPoolSteps
  import opened SchedulerFifo

  /** Run from n empty sequences; an action that is not possible where it occurs is skipped. */
  ghost function Exec(cfg: Config, n: nat, acts: seq<Action>): State {
    if acts == [] then Start(n)
    else
      var s, a := Exec(cfg, n, acts[..|acts| - 1]), acts[|acts| - 1];
      if Enabled(cfg, s, a) then Next(cfg, s, a) else s
  }

  ghost predicate Sound(cfg: Config, s: State) {
    && Inv(cfg, s)
    && (cfg.bounded && s.loop.phase != Dead ==> PoolInv(cfg, s) && Fifo(s.tasks, s.active))
  }

  // ---- one action ----

  lemma CallerKeeps(cfg: Config, s: State, a: Action)
    requires Sound(cfg, s) && Enabled(cfg, s, a) && (a.Submitted? || a.Released? || a.ShutdownRaised?)
    ensures Sound(cfg, Next(cfg, s, a))
  {
    match a
    case Submitted(id, req) =>
      SubmitOk(cfg, s, id, req);
      if cfg.bounded && s.loop.phase != Dead {
        SubmitPool(cfg, s, id, req);
        SubmitFifo(s, id, req);
      }
    case Released(id, k) =>
      ReleaseOk(cfg, s, id, k);
      if cfg.bounded && s.loop.phase != Dead {
        ReleasePool(cfg, s, id, k);
      }
    case ShutdownRaised =>
      ShutdownKeeps(cfg, s);
  }

  lemma ShutdownKeeps(cfg: Config, s: State)
    requires Sound(cfg, s)
    ensures Sound(cfg, s.(stopping := true))
  {
    assert Phys(s.(stopping := true)) == Phys(s);
  }

  lemma FlagKeeps(cfg: Config, s: State, id: nat, flags: Flags)
    requires Sound(cfg, s) && id in s.tasks
    requires (s.tasks[id].flags.cancel ==> flags.cancel) && (s.tasks[id].flags.stop ==> flags.stop)
    ensures Sound(cfg, s.(tasks := s.tasks[id := s.tasks[id].(flags := flags)]))
  {
    FlagsOk(cfg, s, id, flags);
    if cfg.bounded && s.loop.phase != Dead {
      FlagsPool(cfg, s, id, flags);
      FifoFewer(s.tasks, s.tasks[id := s.tasks[id].(flags := flags)], s.active);
    }
  }

  lemma FlagActionKeeps(cfg: Config, s: State, a: Action)
    requires Sound(cfg, s) && Enabled(cfg, s, a) && (a.CancelRaised? || a.StopRaised?)
    ensures Sound(cfg, Next(cfg, s, a))
  {
    var flags := s.tasks[a.id].flags;
    FlagKeeps(cfg, s, a.id, if a.CancelRaised? then flags.(cancel := true) else flags.(stop := true));
  }

  lemma TopKeeps(cfg: Config, s: State, e: Env)
    requires Sound(cfg, s) && s.loop.phase == Top
    ensures Sound(cfg, SchedulerStep(cfg, s, e))
  {
    if s.stopping {
      InvSpeaks(cfg, s);
      FailAllOk(cfg, s);
    } else if s.active != [] {
      if cfg.bounded {
        BeginBoundedOk(cfg, s, e.evictions);
        BeginPool(cfg, s, e.evictions);
        BeginFifo(cfg, s, e.evictions);
      } else {
        BeginPlainOk(cfg, s, e.evictions);
      }
    }
  }

  lemma PrepareKeeps(cfg: Config, s: State, e: Env)
    requires Sound(cfg, s) && s.loop.phase == Prepare && EnvOk(cfg, s, e)
    ensures Sound(cfg, SchedulerStep(cfg, s, e))
  {
    var s1 := PrepareTurn(cfg, s, e.init, e.mtp, e.drafts);
    PrepareOk(cfg, s, e);
    if e.drafting {
      if cfg.bounded {
        PreparePool(cfg, s, e);
        PrepareFifo(cfg, s, e);
      }
    } else {
      InvSpeaks(cfg, s1);
      FailAllOk(cfg, s1);
    }
  }

  lemma BuildKeepsSound(cfg: Config, s: State)
    requires Sound(cfg, s) && s.loop.phase == Building
    ensures Sound(cfg, BuildTurn(cfg, s))
  {
    var b := BatchAll(cfg, s.loop.turn, |s.loop.turn|, s.tasks, s.loop.limit);
    BuildOk(cfg, s);
    if cfg.bounded {
      BuildPool(cfg, s);
      BatchIsDone(cfg, s);
      BuildFifo(cfg, s, b, ClearSlots(s.caches, SlotsOf(b.tasks, b.cancelled)));
    }
  }

  lemma FinishKeeps(cfg: Config, s: State, e: Env)
    requires Sound(cfg, s) && s.loop.phase == Finish
    ensures Sound(cfg, SchedulerStep(cfg, s, e))
  {
    FinishOk(cfg, s, e);
    var kv := DecodeRows(s.caches, s.loop.batch);
    if cfg.bounded && e.decode {
      FinishPool(cfg, s, kv.caches, e.capture);
      FinishFifo(cfg, s, kv.caches, e.capture);
    }
  }

  lemma ActionKeeps(cfg: Config, s: State, a: Action)
    requires Sound(cfg, s) && Enabled(cfg, s, a)
    ensures Sound(cfg, Next(cfg, s, a))
  {
    if a.Stepped? {
      match s.loop.phase
      case Top => TopKeeps(cfg, s, a.env);
      case Prepare => PrepareKeeps(cfg, s, a.env);
      case Building => BuildKeepsSound(cfg, s);
      case Finish => FinishKeeps(cfg, s, a.env);
      case Dead =>
    } else if a.CancelRaised? || a.StopRaised? {
      FlagActionKeeps(cfg, s, a);
    } else {
      CallerKeeps(cfg, s, a);
    }
  }

  lemma StartSound(cfg: Config, n: nat)
    requires cfg.capacity >= 0
    ensures Sound(cfg, Start(n))
  {
    StartOk(cfg, n);
    var s := Start(n);
    SumZero(Weights(s.tasks, s.active, s.slots, s.caches));
  }

  /** The invariant holds after every run. */
  lemma {:induction false} RunSound(cfg: Config, n: nat, acts: seq<Action>)
    requires cfg.capacity >= 0
    ensures Sound(cfg, Exec(cfg, n, acts))
  {
    if acts == [] {
      StartSound(cfg, n);
    } else {
      var s, a := Exec(cfg, n, acts[..|acts| - 1]), acts[|acts| - 1];
      RunSound(cfg, n, acts[..|acts| - 1]);
      if Enabled(cfg, s, a) {
        ActionKeeps(cfg, s, a);
      }
    }
  }

  // ---- theorems ----

  function Dones(es: seq<Event>): nat {
    if es == [] then 0 else Dones(es[..|es| - 1]) + (if es[|es| - 1].Done? then 1 else 0)
  }

  lemma {:induction false} NoDones(es: seq<Event>)
    requires forall i :: 0 <= i < |es| ==> es[i].Tok?
    ensures Dones(es) == 0
  {
    if es == [] {
    } else {
      NoDones(es[..|es| - 1]);
    }
  }

  lemma OneDone(g: seq<Token>, why: Outcome)
    ensures Dones(Toks(g)) == 0 && Dones(Toks(g) + [Done(why)]) == 1
  {
    NoDones(Toks(g));
    assert (Toks(g) + [Done(why)])[..|g|] == Toks(g);
  }

  lemma IdsOfEvents(g: seq<Token>, why: Outcome)
    ensures TokenIds(Toks(g)) == g && TokenIds(Toks(g) + [Done(why)]) == g
  {
    TokenIdsOfToks(g, |g|);
    assert Toks(g)[..|g|] == Toks(g) && g[..|g|] == g;
    assert (Toks(g) + [Done(why)])[..|g|] == Toks(g);
  }

  /** Speculative decoding and cache reuse preserve meaning: in every run, whatever the drafter
      proposed and whatever was cached, evicted or restored, each task's token events are plain
      decoding of its own prompt, and a completed task's are exactly the plain answer. */
  lemma EveryAnswerIsPlain(cfg: Config, n: nat, acts: seq<Action>, id: nat)
    requires cfg.capacity >= 0 && id in Exec(cfg, n, acts).tasks
    ensures var t := Exec(cfg, n, acts).tasks[id];
            && Tokens(cfg, t.req, TokenIds(t.events))
            && (t.events != [] && t.events[|t.events| - 1] == Done(Completed) ==> Answer(cfg, t.req, TokenIds(t.events)))
  {
    RunSound(cfg, n, acts);
    var s := Exec(cfg, n, acts);
    var t := s.tasks[id];
    if id in s.active {
      InvSpeaks(cfg, s);
      var g :| Tokens(cfg, t.req, g) && t.events == Toks(g);
      IdsOfEvents(g, Failed);
      assert t.events != [] ==> t.events[|t.events| - 1].Tok?;
    } else {
      var g, why :| RetiredWith(cfg, t, g, why);
      IdsOfEvents(g, why);
    }
  }

  /** Exactly-once termination: an active task has had no done event and still owns its sampler or
      has freed it once; every other task has had exactly one done event, as its last event, and its
      sampler was freed exactly once.  When the scheduler has died no task is left active. */
  lemma ExactlyOnce(cfg: Config, n: nat, acts: seq<Action>, id: nat)
    requires cfg.capacity >= 0 && id in Exec(cfg, n, acts).tasks
    ensures var s := Exec(cfg, n, acts);
            var t := s.tasks[id];
            && Dones(t.events) == (if id in s.active then 0 else 1)
            && (id !in s.active ==> t.events != [] && t.events[|t.events| - 1].Done? && t.sampler.live == 0)
            && t.sampler.freed + t.sampler.live == 1
            && (s.loop.phase == Dead ==> id !in s.active)
  {
    RunSound(cfg, n, acts);
    var s := Exec(cfg, n, acts);
    var t := s.tasks[id];
    if id in s.active {
      InvSpeaks(cfg, s);
      var g :| Tokens(cfg, t.req, g) && t.events == Toks(g);
      OneDone(g, Failed);
    } else {
      var g, why :| RetiredWith(cfg, t, g, why);
      OneDone(g, why);
    }
  }

  /** The KV invariant at loop boundaries: an initialised task's cache holds the first nPos tokens
      of prompt ++ emitted, with nPos = |prompt| + nGenerated - 1 while generating. */
  lemma KvAtBoundary(cfg: Config, n: nat, acts: seq<Action>, id: nat)
    requires cfg.capacity >= 0
    requires var s := Exec(cfg, n, acts); s.loop.phase == Top && id in s.active && id in s.tasks && s.tasks[id].run.initialized
    ensures var s := Exec(cfg, n, acts);
            var t := s.tasks[id];
            && t.req.slot < |s.caches|
            && t.events == Toks(t.run.accepted)
            && t.run.nPos <= |t.req.prompt + t.run.accepted|
            && s.caches[t.req.slot] == (t.req.prompt + t.run.accepted)[..t.run.nPos]
            && (t.run.promptDone ==> t.run.nPos == |t.req.prompt| + t.run.nGenerated - 1)
  {
    RunSound(cfg, n, acts);
    var s := Exec(cfg, n, acts);
    var t := s.tasks[id];
    assert TaskOk(cfg, Top, s.loop.batch, t, s.caches);
    BoundaryCache(cfg, t, s.caches[t.req.slot]);
  }

  lemma BoundaryCache(cfg: Config, t: Task, cache: seq<Token>)
    requires Ready(cfg, t, cache) && t.run.initialized
    ensures t.run.nPos <= |t.req.prompt + t.run.accepted| && cache == (t.req.prompt + t.run.accepted)[..t.run.nPos]
    ensures t.events == Toks(t.run.accepted)
  {
    if t.run.promptDone {
      assert (t.req.prompt + t.run.accepted)[..t.run.nPos] == t.req.prompt + t.run.accepted[..t.run.nGenerated - 1];
    } else {
      assert t.req.prompt + t.run.accepted == t.req.prompt;
    }
  }

  /** A batch handed to the decoder continues every sequence it touches, and never holds the same
      sequence position twice, even after rejected drafts were rolled back. */
  lemma BatchWellFormed(cfg: Config, n: nat, acts: seq<Action>)
    requires cfg.capacity >= 0 && Exec(cfg, n, acts).loop.phase == Finish
    ensures var s := Exec(cfg, n, acts);
            && DecodeRows(s.caches, s.loop.batch).Kv?
            && forall i, j :: 0 <= i < j < |s.loop.batch| ==>
                 s.loop.batch[i].slot != s.loop.batch[j].slot || s.loop.batch[i].pos != s.loop.batch[j].pos
  {
    RunSound(cfg, n, acts);
    var s := Exec(cfg, n, acts);
    NoClashNoDuplicates(s.caches, s.loop.batch);
  }

  function Sizes(caches: Caches): (w: seq<int>)
    ensures |w| == |caches| && forall q :: 0 <= q < |caches| ==> w[q] == |caches[q]|
  {
    seq(|caches|, q requires 0 <= q < |caches| => |caches[q]|)
  }

  /** Bounded-pool safety: the reservations of the admitted tasks plus the positions held by idle sequences never
      exceed the capacity by more than what turns have leaked since a task was last admitted, and at decode time neither
      do all positions of all sequences, drafts included. */
  lemma PoolNeverOverflows(cfg: Config, n: nat, acts: seq<Action>)
    requires cfg.capacity >= 0 && cfg.bounded
    requires var s := Exec(cfg, n, acts); s.loop.phase != Dead
    ensures var s := Exec(cfg, n, acts);
            && SumReserved(s.tasks, s.active) + Idle(Phys(s), Protected(s.tasks, s.active)) <= cfg.capacity + s.leaked
            && (s.loop.phase == Top || s.loop.phase == Finish ==> Sum(Sizes(Phys(s))) <= cfg.capacity + s.leaked)
  {
    RunSound(cfg, n, acts);
    var s := Exec(cfg, n, acts);
    WiredHeld(s.active, s.tasks, s.caches, s.slots);
    LoadIsComputed(s.tasks, s.active, s.slots, Phys(s));
    if s.loop.phase == Top || s.loop.phase == Finish {
      forall q | 0 <= q < |s.slots| ensures |Phys(s)[q]| <= Weight(s.tasks, s.active, s.slots[q], Phys(s)[q]) {
        WeightCovers(cfg, s, q);
      }
      SumMono(Sizes(Phys(s)), Weights(s.tasks, s.active, s.slots, Phys(s)));
    }
  }

  /** A turn that admits a task brings the pool back within its capacity, whatever had leaked before. */
  lemma AdmittingTurnFits(cfg: Config, n: nat, acts: seq<Action>, ev: nat -> Eviction, id: nat)
    requires cfg.capacity >= 0 && cfg.bounded
    requires var s := Exec(cfg, n, acts);
             s.loop.phase == Top && id in s.tasks && !s.tasks[id].pool.admitted && Get(Begin(cfg, s, ev).tasks, id).pool.admitted
    ensures var s := Begin(cfg, Exec(cfg, n, acts), ev);
            s.leaked == 0 && SumReserved(s.tasks, s.active) + Idle(s.caches, Protected(s.tasks, s.active)) <= cfg.capacity
  {
    var s := Exec(cfg, n, acts);
    RunSound(cfg, n, acts);
    BeginBoundedOk(cfg, s, ev);
    BeginPool(cfg, s, ev);
    AdmittedClears(cfg, s, ev, id);
    var s1 := Begin(cfg, s, ev);
    WiredHeld(s1.active, s1.tasks, s1.caches, s1.slots);
    LoadIsComputed(s1.tasks, s1.active, s1.slots, s1.caches);
  }

  lemma AdmittedClears(cfg: Config, s: State, ev: nat -> Eviction, id: nat)
    requires cfg.bounded && id in s.tasks && !s.tasks[id].pool.admitted && Get(Begin(cfg, s, ev).tasks, id).pool.admitted
    ensures Begin(cfg, s, ev).leaked == 0
  {
    var tasks := ClearDrafts(s.tasks, s.active);
    assert !tasks[id].pool.admitted;
  }

  lemma WeightCovers(cfg: Config, s: State, q: nat)
    requires Inv(cfg, s) && PoolInv(cfg, s) && (s.loop.phase == Top || s.loop.phase == Finish)
    requires q < |s.slots| && |Phys(s)| == |s.slots|
    ensures |Phys(s)[q]| <= Weight(s.tasks, s.active, s.slots[q], Phys(s)[q])
  {
    if Occupies(s.tasks, s.active, s.slots[q]) {
      ReservationCovers(cfg, s, s.slots[q].owner.id);
    }
  }

  /** Every row of a batch lies inside its task's reservation. */
  lemma RowsWithinReservation(cfg: Config, n: nat, acts: seq<Action>, id: nat, i: nat)
    requires cfg.capacity >= 0 && cfg.bounded
    requires var s := Exec(cfg, n, acts);
             s.loop.phase == Finish && i < |s.loop.batch| && id in s.active && id in s.tasks &&
             s.tasks[id].pool.admitted && s.loop.batch[i].slot == s.tasks[id].req.slot
    ensures var s := Exec(cfg, n, acts); s.loop.batch[i].pos < s.tasks[id].pool.reserved
  {
    RunSound(cfg, n, acts);
    var s := Exec(cfg, n, acts);
    NoClashNoDuplicates(s.caches, s.loop.batch);
    ReservationCovers(cfg, s, id);
  }

  /** FIFO admission without overtaking, in every reachable state. */
  lemma NoOvertaking(cfg: Config, n: nat, acts: seq<Action>, i: nat, j: nat)
    requires cfg.capacity >= 0 && cfg.bounded
    requires var s := Exec(cfg, n, acts);
             && s.loop.phase != Dead && i < j < |s.active|
             && !Flagged(Get(s.tasks, s.active[i])) && !Flagged(Get(s.tasks, s.active[j]))
             && Get(s.tasks, s.active[j]).pool.admitted
    ensures var s := Exec(cfg, n, acts); Get(s.tasks, s.active[i]).pool.admitted
  {
    RunSound(cfg, n, acts);
  }
}
