/** The loop that builds the batch, and the loops that retire cancelled and stopped tasks. */
module SchedulerBatchLoop {
  import opened Generation
  import opened BatchOrder
  import opened SlotTask
  import opened SlotTaskProofs
  import opened Scheduler
  import opened SchedulerInv
  import opened SchedulerLoops

  method AppendRows(before: seq<Row>, slot: nat, pos: nat, ids: seq<Token>, logitsFrom: nat) returns (batch: seq<Row>)
    ensures batch == before + RowsFor(slot, pos, ids, logitsFrom)
  {
    batch := before;
    var i := 0;
    while i < |ids|
      invariant i <= |ids| && batch == before + RowsFor(slot, pos, ids, logitsFrom)[..i]
    {
      var rows := RowsFor(slot, pos, ids, logitsFrom);
      assert rows[..i + 1] == rows[..i] + [rows[i]];
      batch := batch + [Row(slot, pos + i, ids[i], i >= logitsFrom)];
      i := i + 1;
    }
    var all := RowsFor(slot, pos, ids, logitsFrom);
    assert all[..i] == all;
  }

  /** A prompt puts in the next chunk of its tokens. */
  method AddPrompt(cfg: Config, t: Task, before: seq<Row>, limit: nat) returns (u: Task, batch: seq<Row>)
    requires !t.run.promptDone
    ensures u == BuildTask(cfg, t, |before|, limit) && batch == before + Build(cfg, t, |before|, limit).rows
  {
    var remaining, space := |t.req.prompt| - t.run.promptPos, cfg.nBatch - |before|;
    if remaining <= 0 || space <= 0 {
      return t, before;
    }
    var chunk := Min(remaining, Min(space, limit));
    if chunk <= 0 {
      return t, before;
    }
    var toCapture := t.req.capturePos - t.run.promptPos;
    if cfg.separateDraft && t.place.mtp && toCapture - 1 > 0 {
      chunk := Min(chunk, toCapture - 1);
    }
    if toCapture > 0 {
      chunk := Min(chunk, toCapture);
    }
    assert chunk == Chunk(cfg, t, |before|, limit);
    var pos := t.run.promptPos + chunk;
    var isLast := pos >= |t.req.prompt|;
    batch := AppendRows(before, t.req.slot, t.run.nPos, t.req.prompt[t.run.promptPos..pos], if isLast then chunk - 1 else chunk);
    var place := t.place.(capturing := pos == t.req.capturePos);
    if isLast {
      place := place.(iBatch := |batch| - 1);
    }
    u := t.(run := t.run.(promptPos := pos, nPos := t.run.nPos + chunk), place := place);
  }

  /** A generating task puts in its last token and its draft, if there is room for all of them. */
  method AddDecode(cfg: Config, t: Task, before: seq<Row>, limit: nat) returns (u: Task, batch: seq<Row>)
    requires t.run.promptDone
    ensures u == BuildTask(cfg, t, |before|, limit) && batch == before + Build(cfg, t, |before|, limit).rows
  {
    var required := 1 + |t.place.draft|;
    if |before| + required > cfg.nBatch {
      return t, before;
    }
    if t.place.draft != [] {
      batch := AppendRows(before, t.req.slot, t.run.nPos, [t.run.lastToken] + t.place.draft, 0);
      var rows := SpecRows(|before|, required);
      u := t.(place := t.place.(iBatch := -1, specRows := rows));
    } else {
      batch := AppendRows(before, t.req.slot, t.run.nPos, [t.run.lastToken], 0);
      u := t.(run := t.run.(nPos := t.run.nPos + 1), place := t.place.(iBatch := |before|));
    }
  }

  method SpecRows(used: nat, n: nat) returns (rows: seq<int>)
    ensures rows == seq(n, i => used + i)
  {
    rows := [];
    var i := 0;
    while i < n
      invariant i <= n && rows == seq(i, j => used + j)
    {
      rows := rows + [used + i];
      i := i + 1;
    }
  }

  lemma BatchStepIs(cfg: Config, turn: seq<nat>, i: nat, tasks: Tasks, limit: nat)
    requires i < |turn|
    ensures BatchAll(cfg, turn, i + 1, tasks, limit) == BatchOne(cfg, BatchAll(cfg, turn, i, tasks, limit), turn[i], limit)
  {
  }

  lemma {:induction false} BatchKeys(cfg: Config, turn: seq<nat>, k: nat, tasks: Tasks, limit: nat)
    requires k <= |turn| && forall id :: id in turn ==> id in tasks
    ensures BatchAll(cfg, turn, k, tasks, limit).tasks.Keys == tasks.Keys
  {
    if k == 0 {
    } else {
      BatchKeys(cfg, turn, k - 1, tasks, limit);
      assert turn[k - 1] in turn;
    }
  }

  /** What a task's turn in the loop leads to. */
  datatype Visit = Cancels | Stops | Continues

  method VisitTask(cfg: Config, b: Batching, id: nat, limit: nat) returns (v: Visit, tasks: Tasks, batch: seq<Row>)
    requires id in b.tasks
    ensures var c := BatchOne(cfg, b, id, limit);
            && tasks == c.tasks && batch == c.batch
            && c.cancelled == (if v == Cancels then b.cancelled + {id} else b.cancelled)
            && c.stopped == (if v == Stops then b.stopped + {id} else b.stopped)
  {
    var t := b.tasks[id];
    if t.flags.cancel {
      return Cancels, b.tasks, b.batch;
    }
    if t.flags.stop {
      return Stops, b.tasks, b.batch;
    }
    if cfg.bounded && !t.pool.admitted {
      return Continues, b.tasks, b.batch;
    }
    var u;
    if !t.run.promptDone {
      u, batch := AddPrompt(cfg, t, b.batch, limit);
    } else {
      u, batch := AddDecode(cfg, t, b.batch, limit);
    }
    return Continues, b.tasks[id := u], batch;
  }

  /** The lists hold what the sets of the specification hold, in the order of the turn. */
  ghost predicate Lists(b: Batching, cancelled: seq<nat>, stopped: seq<nat>, upto: seq<nat>) {
    && ToSet(cancelled) == b.cancelled && ToSet(stopped) == b.stopped && Distinct(cancelled) && Distinct(stopped)
    && (forall id :: id in cancelled ==> id in upto) && (forall id :: id in stopped ==> id in upto)
  }

  lemma PushDistinct(ids: seq<nat>, id: nat)
    requires Distinct(ids) && id !in ids
    ensures Distinct(ids + [id]) && ToSet(ids + [id]) == ToSet(ids) + {id}
  {
  }

  lemma VisitLists(b: Batching, c: Batching, v: Visit, cancelled: seq<nat>, stopped: seq<nat>, turn: seq<nat>, i: nat)
    requires Distinct(turn) && i < |turn| && Lists(b, cancelled, stopped, turn[..i])
    requires c.cancelled == (if v == Cancels then b.cancelled + {turn[i]} else b.cancelled)
    requires c.stopped == (if v == Stops then b.stopped + {turn[i]} else b.stopped)
    ensures Lists(c, if v == Cancels then cancelled + [turn[i]] else cancelled,
                  if v == Stops then stopped + [turn[i]] else stopped, turn[..i + 1])
  {
    NotBefore(turn, i);
    Snoc(turn, i);
    PushDistinct(cancelled, turn[i]);
    PushDistinct(stopped, turn[i]);
  }

  /** The batch of a turn. */
  method BuildBatch(cfg: Config, turn: seq<nat>, before: Tasks, limit: nat)
    returns (tasks: Tasks, batch: seq<Row>, cancelled: seq<nat>, stopped: seq<nat>)
    requires Known(turn, before)
    ensures var b := BatchAll(cfg, turn, |turn|, before, limit);
            tasks == b.tasks && batch == b.batch && Lists(b, cancelled, stopped, turn)
  {
    tasks, batch, cancelled, stopped := before, [], [], [];
    var i := 0;
    while i < |turn|
      invariant i <= |turn|
      invariant tasks == BatchAll(cfg, turn, i, before, limit).tasks && batch == BatchAll(cfg, turn, i, before, limit).batch
      invariant Lists(BatchAll(cfg, turn, i, before, limit), cancelled, stopped, turn[..i])
    {
      ghost var b := BatchAll(cfg, turn, i, before, limit);
      BatchKeys(cfg, turn, i, before, limit);
      BatchStepIs(cfg, turn, i, before, limit);
      assert turn[i] in turn;
      var v, tasks1, batch1 := VisitTask(cfg, Batching(tasks, batch, ToSet(cancelled), ToSet(stopped)), turn[i], limit);
      VisitLists(b, BatchAll(cfg, turn, i + 1, before, limit), v, cancelled, stopped, turn, i);
      tasks, batch := tasks1, batch1;
      if v == Cancels {
        cancelled := cancelled + [turn[i]];
      }
      if v == Stops {
        stopped := stopped + [turn[i]];
      }
      i := i + 1;
    }
    Whole(turn);
  }

  /** Cancelled tasks leave nothing in their sequences. */
  method ClearCaches(before: Caches, tasks: Tasks, ids: seq<nat>) returns (caches: Caches)
    requires forall id :: id in ids ==> id in tasks && tasks[id].req.slot < |before|
    ensures caches == ClearSlots(before, SlotsOf(tasks, ToSet(ids)))
  {
    caches := before;
    assert ClearSlots(before, SlotsOf(tasks, ToSet(ids[..0]))) == before;
    var i := 0;
    while i < |ids|
      invariant i <= |ids| && caches == ClearSlots(before, SlotsOf(tasks, ToSet(ids[..i])))
    {
      Snoc(ids, i);
      assert ids[i] in ids;
      SlotsGrow(tasks, ToSet(ids[..i]), ids[i]);
      caches := caches[tasks[ids[i]].req.slot := []];
      i := i + 1;
    }
    Whole(ids);
  }

  lemma SlotsGrow(tasks: Tasks, ids: set<nat>, id: nat)
    requires id in tasks
    ensures SlotsOf(tasks, ids + {id}) == SlotsOf(tasks, ids) + {tasks[id].req.slot}
  {
    assert Get(tasks, id) == tasks[id];
  }
}
