/** Per-task invariants, and how each step of a turn leads from one to the next. */
module SlotTaskProofs {
  // What a task and the cache of its sequence look like at a loop boundary (Ready), once a batch has been
  // decoded (Built), when it stops producing (Answered), and after its done event (RetiredWith).

  import opened Generation
  import opened BatchOrder
  import opened SlotTask

  function Lim(req: Request): int { Limit(req.maxTokens) }

  ghost predicate Tokens(cfg: Config, req: Request, g: seq<Token>) {
    Running(cfg.model, req.prompt, req.stops, Lim(req), g)
  }

  ghost predicate Answer(cfg: Config, req: Request, g: seq<Token>) {
    IsOutput(cfg.model, req.prompt, req.stops, Lim(req), g)
  }

  const OWNED := Sampler(1, 0)
  const FREED := Sampler(0, 1)

  /** Not yet looked at by the scheduler thread. */
  predicate Untouched(t: Task) {
    t.run == NOT_STARTED && t.place.iBatch == -1 && t.place.specRows == [] && t.place.draft == [] &&
    !t.place.capturing && t.outCkpt == [] && t.events == []
  }

  predicate Prefilling(t: Task) {
    && t.run.initialized && !t.run.promptDone
    && t.run.nPos == t.run.promptPos <= |t.req.prompt|
    && t.run.nGenerated == 0 && t.run.accepted == [] && t.events == []
    && t.place.draft == [] && t.place.specRows == []
  }

  ghost predicate Generating(cfg: Config, t: Task) {
    && t.run.initialized && t.run.promptDone && t.run.promptPos == |t.req.prompt|
    && 1 <= t.run.nGenerated < Lim(t.req) && |t.run.accepted| == t.run.nGenerated
    && Tokens(cfg, t.req, t.run.accepted) && t.events == Toks(t.run.accepted)
    && t.run.lastToken == t.run.accepted[t.run.nGenerated - 1]
    && |t.place.draft| <= cfg.margin
  }

  /** Between batches a generating task's cache misses exactly the last emitted token. */
  predicate OneBehind(t: Task, cache: seq<Token>)
    requires 1 <= t.run.nGenerated == |t.run.accepted|
  {
    && t.run.nPos == |t.req.prompt| + t.run.nGenerated - 1
    && cache == t.req.prompt + t.run.accepted[..t.run.nGenerated - 1]
  }

  /** The KV invariant at a loop boundary: an initialised task's cache is the first nPos tokens
      of prompt ++ emitted, and nPos = |prompt| + nGenerated - 1 while generating. */
  ghost predicate Ready(cfg: Config, t: Task, cache: seq<Token>) {
    && t.sampler == OWNED && t.place.iBatch == -1 && t.place.specRows == [] && !t.place.capturing
    && t.outCkpt <= t.req.prompt
    && if !t.run.initialized then Untouched(t)
       else if !t.run.promptDone then
         && Prefilling(t) && (t.req.prompt != [] ==> t.run.promptPos < |t.req.prompt|)
         && cache == t.req.prompt[..t.run.promptPos]
       else Generating(cfg, t) && OneBehind(t, cache)
  }

  predicate RowAt(batch: seq<Row>, i: int, slot: nat, pos: int) {
    0 <= i < |batch| && batch[i].slot == slot && batch[i].pos == pos
  }

  predicate BuiltPrefill(t: Task, cache: seq<Token>, batch: seq<Row>) {
    && Prefilling(t) && cache == t.req.prompt[..t.run.promptPos]
    && if t.place.iBatch >= 0 then
         t.run.promptPos == |t.req.prompt| && RowAt(batch, t.place.iBatch, t.req.slot, t.run.nPos - 1)
       else t.place.iBatch == -1 && (t.req.prompt != [] ==> t.run.promptPos < |t.req.prompt|)
  }

  predicate BuiltPlain(t: Task, cache: seq<Token>, batch: seq<Row>) {
    && t.place.specRows == [] && t.place.draft == []
    && t.run.nPos == |t.req.prompt| + t.run.nGenerated
    && cache == t.req.prompt + t.run.accepted
    && RowAt(batch, t.place.iBatch, t.req.slot, t.run.nPos - 1)
  }

  predicate BuiltSpec(t: Task, cache: seq<Token>) {
    && t.place.iBatch == -1 && |t.place.specRows| == |t.place.draft| + 1
    && t.run.nPos == |t.req.prompt| + t.run.nGenerated - 1
    && cache == t.req.prompt + t.run.accepted + t.place.draft
  }

  /** After the batch is built: cache is what the sequence holds once that batch is decoded. */
  ghost predicate Built(cfg: Config, t: Task, cache: seq<Token>, batch: seq<Row>) {
    && t.sampler == OWNED && t.outCkpt <= t.req.prompt
    && (t.place.capturing ==> cache <= t.req.prompt)
    && if !t.run.initialized then Untouched(t)
       else if !t.run.promptDone then BuiltPrefill(t, cache, batch)
       else
         && Generating(cfg, t)
         && if t.place.iBatch >= 0 then BuiltPlain(t, cache, batch)
            else if t.place.specRows != [] then BuiltSpec(t, cache)
            else t.place.iBatch == -1 && OneBehind(t, cache)
  }

  /** The tokens pushed so far are a stretch of plain decoding and no done event was pushed. */
  ghost predicate Speaking(cfg: Config, t: Task) {
    && (t.sampler == OWNED || t.sampler == FREED)
    && exists g :: Tokens(cfg, t.req, g) && t.events == Toks(g)
  }

  /** Finished generating, sampler already freed, done event still to come. */
  ghost predicate Answered(cfg: Config, t: Task, cache: seq<Token>, g: seq<Token>) {
    && t.sampler == FREED && t.run.initialized && t.outCkpt <= t.req.prompt
    && Answer(cfg, t.req, g) && t.events == Toks(g) && Agrees(cache, t.req.prompt + g)
  }

  /** After the done event: it is the only one and the last event, the tokens before it are plain
      decoding, and a completed task's tokens are the whole answer. */
  ghost predicate RetiredWith(cfg: Config, t: Task, g: seq<Token>, why: Outcome) {
    && t.sampler == FREED
    && Tokens(cfg, t.req, g)
    && t.events == Toks(g) + [Done(why)]
    && (why == Completed ==> Answer(cfg, t.req, g))
  }

  // ---- decoding ----

  datatype Kv = Kv(caches: seq<seq<Token>>) | Clash

  /** A row must extend its sequence by one position. */
  function DecodeRow(r: Kv, row: Row): (q: Kv)
    ensures q.Kv? ==> r.Kv? && |q.caches| == |r.caches|
  {
    if r.Kv? && row.slot < |r.caches| && row.pos == |r.caches[row.slot]| then
      Kv(r.caches[row.slot := r.caches[row.slot] + [row.token]])
    else Clash
  }

  /** llama_decode on the per-sequence caches. */
  function DecodeRows(caches: seq<seq<Token>>, rows: seq<Row>): (r: Kv)
    ensures r.Kv? ==> |r.caches| == |caches|
  {
    if rows == [] then Kv(caches) else DecodeRow(DecodeRows(caches, rows[..|rows| - 1]), rows[|rows| - 1])
  }

  /** Rows for one sequence at consecutive positions from pos on. */
  predicate Consecutive(rows: seq<Row>, slot: nat, pos: nat, ids: seq<Token>) {
    && |rows| == |ids|
    && forall i :: 0 <= i < |rows| ==> rows[i].slot == slot && rows[i].pos == pos + i && rows[i].token == ids[i]
  }

  lemma DecodeSnoc(caches: seq<seq<Token>>, rows: seq<Row>, row: Row)
    ensures DecodeRows(caches, rows + [row]) == DecodeRow(DecodeRows(caches, rows), row)
  {
    assert (rows + [row])[..|rows|] == rows;
  }

  lemma RowExtends(c: seq<seq<Token>>, slot: nat, x: seq<Token>, row: Row)
    requires slot < |c| && row.slot == slot && row.pos == |c[slot]| + |x|
    ensures DecodeRow(Kv(c[slot := c[slot] + x]), row) == Kv(c[slot := c[slot] + (x + [row.token])])
  {
    assert (c[slot] + x) + [row.token] == c[slot] + (x + [row.token]);
  }

  /** Decoding a block that continues its sequence appends the block's tokens to it. */
  lemma {:induction false} DecodeBlock(caches: seq<seq<Token>>, batch: seq<Row>, rows: seq<Row>, slot: nat, ids: seq<Token>)
    requires DecodeRows(caches, batch).Kv? && slot < |caches|
    requires Consecutive(rows, slot, |DecodeRows(caches, batch).caches[slot]|, ids)
    ensures var c := DecodeRows(caches, batch).caches;
            DecodeRows(caches, batch + rows) == Kv(c[slot := c[slot] + ids])
    decreases |rows|
  {
    var c := DecodeRows(caches, batch).caches;
    if rows == [] {
      assert batch + rows == batch && c[slot] + ids == c[slot];
    } else {
      var n := |rows| - 1;
      DecodeBlock(caches, batch, rows[..n], slot, ids[..n]);
      assert batch + rows == (batch + rows[..n]) + [rows[n]];
      DecodeSnoc(caches, batch + rows[..n], rows[n]);
      RowExtends(c, slot, ids[..n], rows[n]);
      assert ids == ids[..n] + [ids[n]];
    }
  }

  /** Where the draft cache lags, init_task goes on from the draft's end with the whole target cache kept, and the
      next row of the task clashes with it. */
  lemma DraftLagClashes(cfg: Config, t: Task, cache: seq<Token>, e: InitEnv, caches: seq<seq<Token>>, row: Row)
    requires DraftLags(cfg, t, cache, e) && row.slot < |caches|
    requires caches[row.slot] == InitReuse(cfg, t, cache, e).cache && row.pos == InitTask(cfg, t, cache, e).run.nPos
    ensures InitReuse(cfg, t, cache, e).cache == cache && InitReuse(cfg, t, cache, e).pos == e.draftLen < |cache|
    ensures DecodeRows(caches, [row]).Clash?
  {
    assert [row][..0] == [];
    assert DecodeRows(caches, []) == Kv(caches);
  }

  lemma CommonExample()
    ensures Reusable([1, 2, 3], [1, 2, 4]) == 2
  {
    var a, b := [1, 2, 3], [1, 2, 4];
    var n := CommonLen(a, b);
    assert a[..n] == b[..n];
    assert a[0] == b[0] && a[1] == b[1];
  }

  /** For example: three tokens cached, of which two are common with the new prompt, and a draft cache of one. */
  lemma DraftLagExample(cfg: Config, t: Task, e: InitEnv)
    requires t.last == [1, 2, 3] && t.req.prompt == [1, 2, 4] && t.req.slot == 0
    requires e.eligible && e.synced && e.hasDraft && e.draftLen == 1
    ensures var r := InitReuse(cfg, t, [1, 2, 3], e);
            && r.pos == 1 && r.cache == [1, 2, 3] && r.cache != t.req.prompt[..r.pos]
            && DecodeRows([r.cache], [Row(0, r.pos, t.req.prompt[r.pos], false)]).Clash?
  {
    CommonExample();
    assert DraftLags(cfg, t, [1, 2, 3], e);
    var r := InitReuse(cfg, t, [1, 2, 3], e);
    DraftLagClashes(cfg, t, [1, 2, 3], e, [r.cache], Row(0, r.pos, t.req.prompt[r.pos], false));
  }

  lemma RowStays(r: Kv, row: Row, slot: nat)
    requires DecodeRow(r, row).Kv? && slot < |r.caches|
    ensures |r.caches[slot]| <= |DecodeRow(r, row).caches[slot]|
  {
  }

  lemma {:induction false} NoClashNoDuplicates(caches: seq<seq<Token>>, rows: seq<Row>)
    requires DecodeRows(caches, rows).Kv?
    ensures forall i, j :: 0 <= i < j < |rows| && rows[i].slot == rows[j].slot ==> rows[i].pos < rows[j].pos
    ensures forall i :: 0 <= i < |rows| ==> rows[i].slot < |caches|
    ensures var c := DecodeRows(caches, rows).caches;
            forall i :: 0 <= i < |rows| && rows[i].slot < |c| ==> rows[i].pos < |c[rows[i].slot]|
    decreases |rows|
  {
    if rows == [] {
    } else {
      var n := |rows| - 1;
      var r := DecodeRows(caches, rows[..n]);
      NoClashNoDuplicates(caches, rows[..n]);
      forall i | 0 <= i < |rows|
        ensures rows[i].slot < |caches| && rows[i].pos < |DecodeRow(r, rows[n]).caches[rows[i].slot]|
        ensures i < n && rows[i].slot == rows[n].slot ==> rows[i].pos < rows[n].pos
      {
        if i < n {
          assert rows[..n][i] == rows[i];
          RowStays(r, rows[n], rows[i].slot);
        }
      }
      forall i, j | 0 <= i < j < |rows| && rows[i].slot == rows[j].slot ensures rows[i].pos < rows[j].pos {
        if j < n {
          assert rows[..n][i] == rows[i] && rows[..n][j] == rows[j];
        }
      }
    }
  }

  lemma PrefillBuilds(cfg: Config, t: Task, cache: seq<Token>, batch: seq<Row>, limit: nat)
    requires Ready(cfg, t, cache) && t.run.initialized && !t.run.promptDone
    ensures var b := BuildPrefill(cfg, t, |batch|, limit);
            && t.run.promptPos <= b.run.promptPos <= |t.req.prompt|
            && var ids := t.req.prompt[t.run.promptPos..b.run.promptPos];
               && Consecutive(b.rows, t.req.slot, |cache|, ids)
               && Built(cfg, t.(run := b.run, place := b.place), cache + ids, batch + b.rows)
  {
    var chunk := Chunk(cfg, t, |batch|, limit);
    var pos := t.run.promptPos + chunk;
    assert t.req.prompt[..pos] == t.req.prompt[..t.run.promptPos] + t.req.prompt[t.run.promptPos..pos];
  }

  lemma DecodeBuilds(cfg: Config, t: Task, cache: seq<Token>, batch: seq<Row>)
    requires Ready(cfg, t, cache) && t.run.initialized && t.run.promptDone
    ensures var b := BuildDecode(cfg, t, |batch|);
            var ids := if b.rows == [] then [] else [t.run.lastToken] + t.place.draft;
            && Consecutive(b.rows, t.req.slot, |cache|, ids)
            && Built(cfg, t.(run := b.run, place := b.place), cache + ids, batch + b.rows)
  {
    assert t.run.accepted == t.run.accepted[..t.run.nGenerated - 1] + [t.run.lastToken];
    assert cache + [t.run.lastToken] == t.req.prompt + t.run.accepted;
    assert cache + ([t.run.lastToken] + t.place.draft) == t.req.prompt + t.run.accepted + t.place.draft;
    assert cache + [] == cache;
    assert [t.run.lastToken] + [] == [t.run.lastToken];
  }

  /** Building a ready task appends consecutive rows and leaves it Built for the decoded cache. */
  lemma BuildKeeps(cfg: Config, t: Task, cache: seq<Token>, batch: seq<Row>, limit: nat) returns (ids: seq<Token>)
    requires Ready(cfg, t, cache) && t.run.initialized
    ensures var b := Build(cfg, t, |batch|, limit);
            && Consecutive(b.rows, t.req.slot, |cache|, ids)
            && Built(cfg, BuildTask(cfg, t, |batch|, limit), cache + ids, batch + b.rows)
  {
    var b := Build(cfg, t, |batch|, limit);
    if !t.run.promptDone {
      PrefillBuilds(cfg, t, cache, batch, limit);
      ids := t.req.prompt[t.run.promptPos..b.run.promptPos];
    } else {
      DecodeBuilds(cfg, t, cache, batch);
      ids := if b.rows == [] then [] else [t.run.lastToken] + t.place.draft;
    }
  }

  lemma BuiltGrows(cfg: Config, t: Task, cache: seq<Token>, batch: seq<Row>, more: seq<Row>)
    requires Built(cfg, t, cache, batch)
    ensures Built(cfg, t, cache, batch + more)
  {
  }

  lemma ReadyIsBuilt(cfg: Config, t: Task, cache: seq<Token>, batch: seq<Row>)
    requires Ready(cfg, t, cache)
    ensures Built(cfg, t, cache, batch)
  {
  }

  // ---- Built -> Ready or Answered ----

  function CaptureTask(t: Task, cache: seq<Token>, ok: bool): Task {
    if t.place.capturing then
      t.(place := t.place.(capturing := false), outCkpt := if ok then cache else t.outCkpt)
    else t
  }

  lemma CaptureKeeps(cfg: Config, t: Task, cache: seq<Token>, batch: seq<Row>, ok: bool)
    requires Built(cfg, t, cache, batch)
    ensures Built(cfg, CaptureTask(t, cache, ok), cache, batch) && !CaptureTask(t, cache, ok).place.capturing
  {
  }

  lemma IdleIsReady(cfg: Config, t: Task, cache: seq<Token>, batch: seq<Row>)
    requires Built(cfg, t, cache, batch) && !t.place.capturing && t.place.iBatch < 0 && t.place.specRows == []
    ensures Ready(cfg, t, cache)
  {
  }

  /** The cache prefix whose logits a row holds. */
  function RowPrefix(cache: seq<Token>, row: Row): seq<Token> {
    if row.pos + 1 <= |cache| then cache[..row.pos + 1] else cache
  }

  /** About to sample: the whole of prompt ++ accepted is in the cache. */
  ghost predicate AtRow(cfg: Config, t: Task, cache: seq<Token>) {
    && t.sampler == OWNED && t.outCkpt <= t.req.prompt && !t.place.capturing
    && t.place.specRows == [] && t.place.draft == []
    && t.run.initialized && t.run.promptPos == |t.req.prompt|
    && t.run.nPos == |t.req.prompt| + |t.run.accepted| && |t.run.accepted| == t.run.nGenerated < Lim(t.req)
    && Tokens(cfg, t.req, t.run.accepted) && t.events == Toks(t.run.accepted)
    && cache == t.req.prompt + t.run.accepted
  }

  lemma BuiltAtRow(cfg: Config, t: Task, cache: seq<Token>, batch: seq<Row>)
    requires Built(cfg, t, cache, batch) && !t.place.capturing && t.place.iBatch >= 0
    ensures AtRow(cfg, t, cache)
    ensures t.place.iBatch < |batch|
    ensures RowPrefix(cache, batch[t.place.iBatch]) == t.req.prompt + t.run.accepted
  {
    assert cache[..|cache|] == cache;
    if !t.run.promptDone {
      assert t.req.prompt[..t.run.promptPos] == t.req.prompt + t.run.accepted;
    }
  }

  lemma ExtendRun(cfg: Config, req: Request, g: seq<Token>, id: Token)
    requires Tokens(cfg, req, g)
    requires id == cfg.model.next(req.prompt + g, g)
    ensures !StopsAt(cfg.model, req.stops, id) && |g| < Lim(req) ==> Tokens(cfg, req, g + [id])
    ensures StopsAt(cfg.model, req.stops, id) ==> Answer(cfg, req, g)
  {
    assert Gen(cfg.model, req.prompt, |g| + 1) == g + [id];
    assert (g + [id])[..|g|] == g;
  }

  lemma ToksSnoc(g: seq<Token>, id: Token)
    ensures Toks(g + [id]) == Toks(g) + [Tok(id)]
  {
    assert (g + [id])[..|g|] == g;
  }

  /** The sampled token ends the task. */
  lemma AcceptEnds(cfg: Config, t: Task, cache: seq<Token>, id: Token) returns (g: seq<Token>)
    requires AtRow(cfg, t, cache) && id == cfg.model.next(t.req.prompt + t.run.accepted, t.run.accepted)
    requires Accept(cfg.model, t, id).completed
    ensures Answered(cfg, Accept(cfg.model, t, id).task, cache, g)
  {
    var a := t.run.accepted;
    ExtendRun(cfg, t.req, a, id);
    ToksSnoc(a, id);
    g := if StopsAt(cfg.model, t.req.stops, id) then a else a + [id];
    assert t.req.prompt + (a + [id]) == cache + [id];
    assert cache <= cache + [id];
  }

  /** The task goes on behind the sampled token. */
  lemma AcceptGoesOn(cfg: Config, t: Task, cache: seq<Token>, id: Token)
    requires AtRow(cfg, t, cache) && id == cfg.model.next(t.req.prompt + t.run.accepted, t.run.accepted)
    requires !Accept(cfg.model, t, id).completed
    ensures Ready(cfg, Accept(cfg.model, t, id).task, cache)
  {
    var a := t.run.accepted;
    ExtendRun(cfg, t.req, a, id);
    ToksSnoc(a, id);
    assert (a + [id])[..|a|] == a;
  }

  /** A sampled token keeps the KV invariant, or completes the task with its whole answer. */
  lemma AcceptKeeps(cfg: Config, t: Task, cache: seq<Token>, id: Token) returns (g: seq<Token>)
    requires AtRow(cfg, t, cache)
    requires id == cfg.model.next(t.req.prompt + t.run.accepted, t.run.accepted)
    ensures var s := Accept(cfg.model, t, id);
            if s.completed then Answered(cfg, s.task, cache, g) else Ready(cfg, s.task, cache)
  {
    g := [];
    if Accept(cfg.model, t, id).completed {
      g := AcceptEnds(cfg, t, cache, id);
    } else {
      AcceptGoesOn(cfg, t, cache, id);
    }
  }

  lemma SampleKeeps(cfg: Config, t: Task, cache: seq<Token>, batch: seq<Row>) returns (g: seq<Token>)
    requires Built(cfg, t, cache, batch) && !t.place.capturing && t.place.iBatch >= 0
    ensures t.place.iBatch < |batch|
    ensures var s := SampleTask(cfg.model, t, RowPrefix(cache, batch[t.place.iBatch]));
            if s.completed then Answered(cfg, s.task, cache, g) else Ready(cfg, s.task, cache)
  {
    BuiltAtRow(cfg, t, cache, batch);
    g := AcceptKeeps(cfg, t, cache, cfg.model.next(t.req.prompt + t.run.accepted, t.run.accepted));
  }

  /** What has been said after emitting a prefix g of the plain answer. */
  ghost predicate Said(cfg: Config, req: Request, s: Speech, g: seq<Token>) {
    && Tokens(cfg, req, g) && s.events == Toks(g)
    && if s.completed then Answer(cfg, req, g)
       else s.nGenerated == |g| < Lim(req) && g != [] && s.lastToken == g[|g| - 1]
  }

  /** Emitting verified tokens: the events grow by a prefix of ids that either is all of them
      (and the task goes on) or ends the answer. */
  lemma {:induction false} EmitSays(cfg: Config, req: Request, s: Speech, g: seq<Token>, ids: seq<Token>)
    returns (k: nat)
    requires Said(cfg, req, s, g) && !s.completed && req.maxTokens > 0
    requires g + ids == Gen(cfg.model, req.prompt, |g| + |ids|)
    ensures k <= |ids| && Said(cfg, req, Emit(cfg.model, req, s, ids), g + ids[..k])
    ensures !Emit(cfg.model, req, s, ids).completed ==> k == |ids|
    decreases |ids|
  {
    if ids == [] {
      k := 0;
      assert g + ids[..0] == g;
    } else {
      k := EmitOne(cfg, req, s, g, ids);
      if Emits(cfg, req, s, ids) {
        var s1 := Speech(s.events + [Tok(ids[0])], s.nGenerated + 1, ids[0], s.completed);
        var j := EmitSays(cfg, req, s1, g + [ids[0]], ids[1..]);
        Shift(g, ids, j);
        k := j + 1;
      }
    }
  }

  /** The loop goes on after pushing the first token. */
  predicate Emits(cfg: Config, req: Request, s: Speech, ids: seq<Token>)
    requires ids != []
  {
    !StopsAt(cfg.model, req.stops, ids[0]) && s.nGenerated + 1 < req.maxTokens
  }

  lemma EmitOne(cfg: Config, req: Request, s: Speech, g: seq<Token>, ids: seq<Token>) returns (k: nat)
    requires Said(cfg, req, s, g) && !s.completed && req.maxTokens > 0
    requires ids != [] && g + ids == Gen(cfg.model, req.prompt, |g| + |ids|)
    ensures k <= |ids|
    ensures !Emits(cfg, req, s, ids) ==>
              && Said(cfg, req, Emit(cfg.model, req, s, ids), g + ids[..k])
              && Emit(cfg.model, req, s, ids).completed
    ensures Emits(cfg, req, s, ids) ==>
              && Said(cfg, req, Speech(s.events + [Tok(ids[0])], s.nGenerated + 1, ids[0], s.completed), g + [ids[0]])
              && (g + [ids[0]]) + ids[1..] == g + ids
  {
    NextPlain(cfg, req, g, ids);
    ToksSnoc(g, ids[0]);
    assert (g + [ids[0]]) + ids[1..] == g + ids;
    k := if StopsAt(cfg.model, req.stops, ids[0]) then 0 else 1;
    assert g + ids[..0] == g;
    assert g + ids[..1] == g + [ids[0]];
  }

  lemma Shift(g: seq<Token>, ids: seq<Token>, j: nat)
    requires ids != [] && j < |ids|
    ensures (g + [ids[0]]) + ids[1..][..j] == g + ids[..j + 1]
  {
  }

  lemma NextPlain(cfg: Config, req: Request, g: seq<Token>, ids: seq<Token>)
    requires Tokens(cfg, req, g) && ids != [] && g + ids == Gen(cfg.model, req.prompt, |g| + |ids|)
    ensures !StopsAt(cfg.model, req.stops, ids[0]) && |g| < Lim(req) ==> Tokens(cfg, req, g + [ids[0]])
    ensures StopsAt(cfg.model, req.stops, ids[0]) ==> Answer(cfg, req, g)
  {
    GenPrefix(cfg.model, req.prompt, |g| + 1, |g| + |ids|);
    assert (g + ids)[..|g| + 1] == g + [ids[0]];
  }

  /** Speculative decoding preserves meaning: verifying any draft and rolling the cache back
      keeps the KV invariant, or completes the task with its whole plain answer. */
  lemma VerifyKeeps(cfg: Config, t: Task, cache: seq<Token>, batch: seq<Row>) returns (g: seq<Token>)
    requires Built(cfg, t, cache, batch) && !t.place.capturing && t.place.iBatch < 0 && t.place.specRows != []
    ensures t.run.nPos + |t.place.draft| < |cache|
    ensures var s := VerifyTask(cfg.model, t, cache);
            && s.task.run.nPos <= |cache|
            && if s.completed then Answered(cfg, s.task, cache[..s.task.run.nPos], g)
               else Ready(cfg, s.task, cache[..s.task.run.nPos])
  {
    var ids := VerifySamples(cfg, t, cache);
    var e := Emit(cfg.model, t.req, Speech(t.events, t.run.nGenerated, t.run.lastToken, false), ids);
    var k := VerifySays(cfg, t, ids, e);
    g := t.run.accepted + ids[..k];
    VerifyIs(cfg.model, t, cache, ids, e);
    VerifyEnds(cfg, t, cache, ids, e, k);
  }

  /** The target's tokens for a drafted stretch are plain, and the draft tokens among them are in the cache. */
  lemma VerifySamples(cfg: Config, t: Task, cache: seq<Token>) returns (ids: seq<Token>)
    requires Generating(cfg, t) && BuiltSpec(t, cache)
    ensures t.run.nPos + |t.place.draft| < |cache| && 1 <= |ids| <= |t.place.draft| + 1
    ensures ids == SampleAndAcceptN(cfg.model, cache, t.run.nPos, t.run.accepted, t.place.draft)
    ensures t.run.accepted + ids == Gen(cfg.model, t.req.prompt, |t.run.accepted| + |ids|)
    ensures cache[..t.run.nPos + |ids|] == t.req.prompt + t.run.accepted + ids[..|ids| - 1]
  {
    var a := t.run.accepted;
    DraftRows(t.req.prompt, a, t.place.draft, cache, t.run.nPos);
    VerifiedDraftIsPlain(cfg.model, t.req.prompt, cache, t.run.nPos, a, t.place.draft);
    ids := SampleAndAcceptN(cfg.model, cache, t.run.nPos, a, t.place.draft);
  }

  lemma VerifySays(cfg: Config, t: Task, ids: seq<Token>, e: Speech) returns (k: nat)
    requires Generating(cfg, t) && t.run.accepted + ids == Gen(cfg.model, t.req.prompt, |t.run.accepted| + |ids|)
    requires e == Emit(cfg.model, t.req, Speech(t.events, t.run.nGenerated, t.run.lastToken, false), ids)
    ensures k <= |ids| && Said(cfg, t.req, e, t.run.accepted + ids[..k]) && (!e.completed ==> k == |ids|)
  {
    k := EmitSays(cfg, t.req, Speech(t.events, t.run.nGenerated, t.run.lastToken, false), t.run.accepted, ids);
  }

  lemma VerifyIs(m: Model, t: Task, cache: seq<Token>, ids: seq<Token>, e: Speech)
    requires t.run.nPos + |t.place.draft| < |cache|
    requires ids == SampleAndAcceptN(m, cache, t.run.nPos, t.run.accepted, t.place.draft)
    requires e == Emit(m, t.req, Speech(t.events, t.run.nGenerated, t.run.lastToken, false), ids)
    ensures VerifyTask(m, t, cache) == Sampled(Spoken(t, e, ids), e.completed)
  {
  }

  /** What the verified tokens, pushed as far as they go, leave of the task and its cache. */
  lemma VerifyEnds(cfg: Config, t: Task, cache: seq<Token>, ids: seq<Token>, e: Speech, k: nat)
    requires t.sampler == OWNED && t.outCkpt <= t.req.prompt && !t.place.capturing
    requires Generating(cfg, t) && t.place.iBatch == -1 && t.run.nPos == |t.req.prompt| + t.run.nGenerated - 1
    requires k <= |ids| && ids != [] && t.run.nPos + |ids| <= |cache|
    requires cache[..t.run.nPos + |ids|] == t.req.prompt + t.run.accepted + ids[..|ids| - 1]
    requires Said(cfg, t.req, e, t.run.accepted + ids[..k]) && (!e.completed ==> k == |ids|)
    ensures var u := Spoken(t, e, ids);
            if e.completed then Answered(cfg, u, cache[..u.run.nPos], t.run.accepted + ids[..k])
            else Ready(cfg, u, cache[..u.run.nPos])
  {
    RolledBack(t.req.prompt, t.run.accepted, ids, k);
    if e.completed {
      SpokenAnswered(cfg, t, Spoken(t, e, ids), cache[..t.run.nPos + |ids|], e, t.run.accepted + ids[..k]);
    } else {
      SpokenReady(cfg, t, Spoken(t, e, ids), cache[..t.run.nPos + |ids|], e, ids);
    }
  }

  /** The task after the verified tokens have been pushed. */
  function Spoken(t: Task, e: Speech, ids: seq<Token>): Task {
    t.(run := t.run.(nPos := t.run.nPos + |ids|, nGenerated := e.nGenerated, lastToken := e.lastToken,
                     accepted := t.run.accepted + ids),
       place := t.place.(specRows := [], draft := []),
       sampler := if e.completed then Free(t.sampler) else t.sampler, events := e.events)
  }

  lemma SpokenAnswered(cfg: Config, t: Task, u: Task, cache: seq<Token>, e: Speech, g: seq<Token>)
    requires t.run.initialized && t.outCkpt <= t.req.prompt && t.sampler == OWNED
    requires e.completed && Said(cfg, t.req, e, g) && Agrees(cache, t.req.prompt + g)
    requires u.req == t.req && u.outCkpt == t.outCkpt && u.run.initialized && u.sampler == Free(t.sampler) && u.events == e.events
    ensures Answered(cfg, u, cache, g)
  {
  }

  lemma SpokenReady(cfg: Config, t: Task, u: Task, cache: seq<Token>, e: Speech, ids: seq<Token>)
    requires Generating(cfg, t) && t.sampler == OWNED && t.outCkpt <= t.req.prompt && !t.place.capturing && t.place.iBatch == -1
    requires !e.completed && Said(cfg, t.req, e, t.run.accepted + ids)
    requires cache == t.req.prompt + (t.run.accepted + ids)[..|t.run.accepted + ids| - 1]
    requires t.run.nPos == |t.req.prompt| + t.run.nGenerated - 1
    requires u == Spoken(t, e, ids)
    ensures Ready(cfg, u, cache)
  {
  }

  lemma DraftRows(prompt: seq<Token>, a: seq<Token>, draft: seq<Token>, cache: seq<Token>, pos: nat)
    requires cache == prompt + a + draft && a != [] && pos == |prompt| + |a| - 1
    ensures cache[..pos + 1] == prompt + a
    ensures cache[pos + 1..pos + 1 + |draft|] == draft
  {
  }

  lemma RolledBack(prompt: seq<Token>, a: seq<Token>, ids: seq<Token>, k: nat)
    requires ids != [] && k <= |ids|
    ensures Agrees(prompt + a + ids[..|ids| - 1], prompt + (a + ids[..k]))
    ensures prompt + a + ids[..|ids| - 1] == prompt + (a + ids)[..|a + ids| - 1]
    ensures k == |ids| ==> ids[..k] == ids
  {
    if k == |ids| {
      assert prompt + a + ids[..|ids| - 1] <= prompt + (a + ids[..k]);
    } else {
      assert prompt + (a + ids[..k]) <= prompt + a + ids[..|ids| - 1];
    }
  }

  // ---- retiring ----

  lemma ReadySpeaks(cfg: Config, t: Task, cache: seq<Token>)
    requires Ready(cfg, t, cache)
    ensures Tokens(cfg, t.req, t.run.accepted) && t.events == Toks(t.run.accepted)
    ensures t.run.initialized ==> Agrees(cache, t.req.prompt + t.run.accepted)
  {
    if t.run.initialized && !t.run.promptDone {
      assert t.req.prompt + t.run.accepted == t.req.prompt;
    } else if t.run.initialized {
      assert cache <= t.req.prompt + t.run.accepted;
    }
  }

  lemma BuiltSpeaks(cfg: Config, t: Task, cache: seq<Token>, batch: seq<Row>)
    requires Built(cfg, t, cache, batch)
    ensures Speaking(cfg, t)
  {
    assert Tokens(cfg, t.req, t.run.accepted) && t.events == Toks(t.run.accepted);
  }

  /** bounded_pool_reservation of a request. */
  function Reservation(cfg: Config, req: Request): int {
    |req.prompt| + Max(0, req.maxTokens) + cfg.margin
  }

  /** Positions a task occupies once its batch is decoded, drafts included, stay within its reservation. */
  lemma WithinReservation(cfg: Config, t: Task, cache: seq<Token>, batch: seq<Row>)
    requires Built(cfg, t, cache, batch) && t.run.initialized
    ensures |cache| <= Reservation(cfg, t.req)
  {
  }
}
