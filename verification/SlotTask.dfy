/** One request inside the scheduler: its fields, and what one turn does to it and to the cache of its sequence. */
module SlotTask {
  // Foreign calls (memory trimming, checkpoint restore, drafting) are inputs; the model and sampler are
  // Generation.Model.

  import opened Generation
  import opened BatchOrder

  /** Why a task's is_done event was pushed; Rejected and Failed carry is_error. */
  datatype Outcome = Completed | Cancelled | Stopped | Rejected | Failed

  datatype Event = Tok(id: Token) | Done(why: Outcome)

  datatype Request = Request(slot: nat, prompt: seq<Token>, maxTokens: int, stops: set<Token>, capturePos: int)

  /** nBatch, bounded, capacity and margin are n_batch_, bounded_pool_, the context capacity
      and draft_margin_; separateDraft says that the draft context does not share the target's. */
  datatype Config = Config(model: Model, nBatch: int, bounded: bool, capacity: int, margin: nat, separateDraft: bool)

  datatype Row = Row(slot: nat, pos: nat, token: Token, logits: bool)

  /** Caller flags, pool reservation and sampler ownership.  live counts the sampler handles still
      owned (0 or 1), freed the calls that freed one. */
  datatype Flags = Flags(cancel: bool, stop: bool)
  datatype Pool = Pool(admitted: bool, reserved: int)
  datatype Sampler = Sampler(live: nat, freed: nat)

  /** Progress through prompt and generation; accepted is what the sampler has accepted. */
  datatype Run = Run(
    initialized: bool, promptPos: nat, promptDone: bool, nPos: nat, cached: nat,
    nGenerated: nat, lastToken: Token, accepted: seq<Token>)

  /** Per-turn place in the batch; capturing marks membership of checkpoint_ready. */
  datatype Place = Place(iBatch: int, specRows: seq<int>, draft: seq<Token>, mtp: bool, capturing: bool)

  /** last and ckpt are last_prompt_tokens and the tokens behind recurrent_checkpoint ([] if none). */
  datatype Task = Task(
    req: Request, last: seq<Token>, ckpt: seq<Token>, flags: Flags, pool: Pool, sampler: Sampler,
    run: Run, place: Place, outCkpt: seq<Token>, events: seq<Event>)

  const NOT_STARTED := Run(false, 0, false, 0, 0, 0, 0, [])
  const NOWHERE := Place(-1, [], [], false, false)

  function NewTask(req: Request, last: seq<Token>, ckpt: seq<Token>): Task {
    Task(req, last, ckpt, Flags(false, false), Pool(false, 0), Sampler(1, 0), NOT_STARTED, NOWHERE, [], [])
  }

  predicate Flagged(t: Task) { t.flags.cancel || t.flags.stop }

  function Free(s: Sampler): Sampler { Sampler(0, s.freed + s.live) }

  /** Frees the sampler if it is still owned and pushes the one done event. */
  function Retire(t: Task, why: Outcome): Task {
    t.(sampler := Free(t.sampler), events := t.events + [Done(why)])
  }

  function Toks(ids: seq<Token>): (es: seq<Event>)
    ensures |es| == |ids|
    ensures forall i :: 0 <= i < |ids| ==> es[i] == Tok(ids[i])
  {
    if ids == [] then [] else Toks(ids[..|ids| - 1]) + [Tok(ids[|ids| - 1])]
  }

  // ---- init_task: cache reuse ----

  function CommonLen(a: seq<Token>, b: seq<Token>): (n: nat)
    ensures n <= |a| && n <= |b| && a[..n] == b[..n]
    ensures n < |a| && n < |b| ==> a[n] != b[n]
  {
    if a == [] || b == [] || a[0] != b[0] then 0
    else
      var n := CommonLen(a[1..], b[1..]);
      assert a[..n + 1] == [a[0]] + a[1..][..n];
      assert b[..n + 1] == [b[0]] + b[1..][..n];
      n + 1
  }

  /** Reusable prefix length: at least one prompt token is left to decode for fresh logits. */
  function Reusable(last: seq<Token>, prompt: seq<Token>): (n: nat)
    ensures n <= |last| && n <= |prompt| && last[..n] == prompt[..n]
    ensures prompt != [] ==> n < |prompt|
  {
    var n := CommonLen(last, prompt);
    if n >= |prompt| && n > 0 then
      assert last[..n - 1] == last[..n][..n - 1];
      assert prompt[..n - 1] == prompt[..n][..n - 1];
      n - 1
    else n
  }

  /** Results of the foreign calls made by init_task, and the draft context's view of the sequence. */
  datatype InitEnv = InitEnv(
    eligible: bool, synced: bool, hasDraft: bool, draftLen: nat,
    trimTarget: bool, trimDraft: bool, draftCkpts: bool,
    restored: bool, junk: seq<Token>, trimCkpt: bool)

  /** What init_task leaves behind: reused prefix length, cache, and the checkpoint handed on. */
  datatype Reuse = Reuse(pos: nat, cache: seq<Token>, outCkpt: seq<Token>)

  /** An out-of-sync draft cache is kept only for a short continuation of a long cached prefix. */
  predicate DeferMtp(cfg: Config, t: Task, n: nat, cache: seq<Token>) {
    && 0 < t.req.maxTokens <= cfg.margin + 2
    && Min(n, |cache|) >= cfg.nBatch
  }

  predicate NeedsResync(cfg: Config, t: Task, cache: seq<Token>, e: InitEnv) {
    e.eligible && !e.synced && !DeferMtp(cfg, t, Reusable(t.last, t.req.prompt), cache)
  }

  /** draft_mem: the draft context takes part in the reuse decision. */
  predicate UsesDraft(e: InitEnv) {
    e.hasDraft && e.eligible && e.synced
  }

  function Physical(cache: seq<Token>, e: InitEnv): nat {
    if UsesDraft(e) then Min(|cache|, e.draftLen) else |cache|
  }

  predicate CkptUsable(cfg: Config, t: Task, n: nat, e: InitEnv) {
    && 0 < |t.ckpt| <= n && |t.ckpt| <= |t.req.prompt|
    && (UsesDraft(e) ==> cfg.separateDraft && |t.ckpt| > 1 && e.draftCkpts)
  }

  function InitReuse(cfg: Config, t: Task, cache: seq<Token>, e: InitEnv): Reuse {
    var common := Reusable(t.last, t.req.prompt);
    if NeedsResync(cfg, t, cache, e) || common == 0 then Reuse(0, [], [])
    else
      var usable := CkptUsable(cfg, t, common, e);
      var handed := if |t.ckpt| == t.req.capturePos && usable then t.ckpt else [];
      var n := Min(common, Physical(cache, e));
      if n <= 0 then Reuse(0, [], handed)
      else if n >= Physical(cache, e) then Reuse(n, cache, handed)
      else if e.trimTarget && (!UsesDraft(e) || e.trimDraft) then Reuse(n, cache[..n], handed)
      else if usable && e.restored && e.trimCkpt then
        Reuse(|t.ckpt|, (t.ckpt + e.junk)[..|t.ckpt|], handed)
      else Reuse(0, [], handed)
  }

  function InitTask(cfg: Config, t: Task, cache: seq<Token>, e: InitEnv): Task {
    var r := InitReuse(cfg, t, cache, e);
    t.(run := t.run.(initialized := true, promptPos := r.pos, nPos := r.pos, cached := r.pos),
       outCkpt := r.outCkpt)
  }

  /** One of the two is a prefix of the other. */
  predicate Agrees(a: seq<Token>, b: seq<Token>) { a <= b || b <= a }

  /** The one way reuse goes wrong: the draft cache ends inside the common prefix and before the
      target cache does, and init_task extends from the draft's end without trimming the target. */
  predicate DraftLags(cfg: Config, t: Task, cache: seq<Token>, e: InitEnv) {
    && UsesDraft(e)
    && 0 < e.draftLen < |cache|
    && e.draftLen <= Reusable(t.last, t.req.prompt)
  }

  /** Cache reuse refines fresh prefill: given a surviving cache that agrees with the previous
      tokens and a checkpoint of those tokens, init_task leaves exactly the first promptPos prompt
      tokens in the cache, with at least one left to decode -- if and only if the draft cache does
      not lag behind the target's. */
  lemma ReuseIsPrefix(cfg: Config, t: Task, cache: seq<Token>, e: InitEnv)
    requires Agrees(cache, t.last) && t.ckpt <= t.last
    ensures var r := InitReuse(cfg, t, cache, e);
            && r.pos <= |t.req.prompt|
            && (t.req.prompt != [] ==> r.pos < |t.req.prompt|)
            && r.outCkpt <= t.req.prompt
            && (r.cache == t.req.prompt[..r.pos] <==> !DraftLags(cfg, t, cache, e))
  {
    var n := Reusable(t.last, t.req.prompt);
    var m := Min(n, Physical(cache, e));
    if m <= |t.last| && m <= |cache| {
      PrefixShared(cache, t.last, m);
    }
    if |t.ckpt| <= n {
      assert t.ckpt == t.last[..n][..|t.ckpt|] == t.req.prompt[..n][..|t.ckpt|];
    }
    assert (t.ckpt + e.junk)[..|t.ckpt|] == t.ckpt;
    if m <= n {
      assert t.last[..m] == t.last[..n][..m] == t.req.prompt[..n][..m];
    }
    if m == |cache| {
      assert cache[..m] == cache;
    }
  }

  lemma PrefixShared(a: seq<Token>, b: seq<Token>, m: nat)
    requires Agrees(a, b) && m <= |a| && m <= |b|
    ensures a[..m] == b[..m]
  {
  }

  // ---- the batch ----

  /** Prompt tokens the task could contribute, stopping where a checkpoint is to be captured. */
  function Want(cfg: Config, t: Task): (w: nat)
    ensures w <= Max(0, |t.req.prompt| - t.run.promptPos)
    ensures t.run.promptPos < |t.req.prompt| ==> w > 0
  {
    Clip(cfg, t, Max(0, |t.req.prompt| - t.run.promptPos))
  }

  function Clip(cfg: Config, t: Task, chunk: nat): (r: nat)
    ensures r <= chunk && (chunk > 0 ==> r > 0)
  {
    var toCapture := t.req.capturePos - t.run.promptPos;
    var c := if cfg.separateDraft && t.place.mtp && toCapture > 1 then Min(chunk, toCapture - 1) else chunk;
    if toCapture > 0 then Min(c, toCapture) else c
  }

  function View(cfg: Config, id: nat, t: Task): Item {
    Item(id, t.req.slot, t.run.promptDone, |t.place.draft|, Want(cfg, t), Flagged(t))
  }

  /** chunk of run_loop: the prompt tokens that go into a batch already holding used tokens. */
  function Chunk(cfg: Config, t: Task, used: nat, limit: nat): (c: nat)
    ensures c == 0 || t.run.promptPos + c <= |t.req.prompt|
  {
    var remaining := |t.req.prompt| - t.run.promptPos;
    var space := cfg.nBatch - used;
    if remaining <= 0 || space <= 0 then 0
    else Clip(cfg, t, Max(0, Min(remaining, Min(space, limit))))
  }

  /** Rows for consecutive positions of one sequence; only some ask for logits. */
  function RowsFor(slot: nat, pos: nat, ids: seq<Token>, logitsFrom: nat): (rows: seq<Row>)
    ensures |rows| == |ids|
    ensures forall i :: 0 <= i < |ids| ==> rows[i] == Row(slot, pos + i, ids[i], i >= logitsFrom)
  {
    seq(|ids|, i requires 0 <= i < |ids| => Row(slot, pos + i, ids[i], i >= logitsFrom))
  }

  datatype Contribution = Contribution(run: Run, place: Place, rows: seq<Row>)

  function BuildPrefill(cfg: Config, t: Task, used: nat, limit: nat): Contribution {
    var chunk := Chunk(cfg, t, used, limit);
    if chunk == 0 then Contribution(t.run, t.place, [])
    else
      var pos := t.run.promptPos + chunk;
      var isLast := pos >= |t.req.prompt|;
      Contribution(
        t.run.(promptPos := pos, nPos := t.run.nPos + chunk),
        t.place.(iBatch := if isLast then used + chunk - 1 else t.place.iBatch,
                 capturing := pos == t.req.capturePos),
        RowsFor(t.req.slot, t.run.nPos, t.req.prompt[t.run.promptPos..pos],
                if isLast then chunk - 1 else chunk))
  }

  function BuildDecode(cfg: Config, t: Task, used: nat): Contribution {
    if used + 1 + |t.place.draft| > cfg.nBatch then Contribution(t.run, t.place, [])
    else if t.place.draft != [] then
      Contribution(t.run,
                   t.place.(iBatch := -1, specRows := seq(1 + |t.place.draft|, i => used + i)),
                   RowsFor(t.req.slot, t.run.nPos, [t.run.lastToken] + t.place.draft, 0))
    else
      Contribution(t.run.(nPos := t.run.nPos + 1),
                   t.place.(iBatch := used),
                   RowsFor(t.req.slot, t.run.nPos, [t.run.lastToken], 0))
  }

  /** What the batch-building loop does for one unflagged, initialised task. */
  function Build(cfg: Config, t: Task, used: nat, limit: nat): Contribution {
    if !t.run.promptDone then BuildPrefill(cfg, t, used, limit) else BuildDecode(cfg, t, used)
  }

  function BuildTask(cfg: Config, t: Task, used: nat, limit: nat): Task {
    var b := Build(cfg, t, used, limit);
    t.(run := b.run, place := b.place)
  }

  /** The batch loop puts in exactly what the token plan of the order says. */
  lemma BlockIsTake(cfg: Config, id: nat, t: Task, used: nat, limit: nat)
    requires !Flagged(t)
    ensures |Build(cfg, t, used, limit).rows| == Take(View(cfg, id, t), used, cfg.nBatch, limit)
  {
  }

  // ---- sampling and verification ----

  predicate AtMax(maxTokens: int, nGenerated: nat) { maxTokens <= 0 || nGenerated >= maxTokens - 1 }

  datatype Sampled = Sampled(task: Task, completed: bool)

  /** What is done with one sampled token. */
  function Accept(m: Model, t: Task, id: Token): Sampled {
    var run := t.run.(accepted := t.run.accepted + [id],
                      promptDone := t.run.promptDone || t.run.promptPos >= |t.req.prompt|);
    var place := t.place.(iBatch := -1);
    if StopsAt(m, t.req.stops, id) then
      Sampled(t.(run := run, place := place, sampler := Free(t.sampler)), true)
    else if AtMax(t.req.maxTokens, t.run.nGenerated) then
      Sampled(t.(run := run, place := place, sampler := Free(t.sampler), events := t.events + [Tok(id)]), true)
    else
      Sampled(t.(run := run.(lastToken := id, nGenerated := t.run.nGenerated + 1), place := place,
                 events := t.events + [Tok(id)]), false)
  }

  /** Sample one token from the logits of the row whose cache prefix is kv. */
  function SampleTask(m: Model, t: Task, kv: seq<Token>): Sampled {
    Accept(m, t, m.next(kv, t.run.accepted))
  }

  datatype Speech = Speech(events: seq<Event>, nGenerated: nat, lastToken: Token, completed: bool)

  /** Push the verified tokens until one stops the task or the limit is reached. */
  function Emit(m: Model, req: Request, s: Speech, ids: seq<Token>): Speech
    decreases |ids|
  {
    if ids == [] then s
    else if StopsAt(m, req.stops, ids[0]) then s.(completed := true)
    else if s.nGenerated + 1 >= req.maxTokens then
      Speech(s.events + [Tok(ids[0])], s.nGenerated + 1, s.lastToken, true)
    else Emit(m, req, Speech(s.events + [Tok(ids[0])], s.nGenerated + 1, ids[0], s.completed), ids[1..])
  }

  /** Verification of a drafted stretch; cache is the sequence after decoding the draft rows. */
  function VerifyTask(m: Model, t: Task, cache: seq<Token>): Sampled
    requires t.run.nPos + |t.place.draft| < |cache|
  {
    var ids := SampleAndAcceptN(m, cache, t.run.nPos, t.run.accepted, t.place.draft);
    var s := Emit(m, t.req, Speech(t.events, t.run.nGenerated, t.run.lastToken, false), ids);
    Sampled(t.(run := t.run.(nPos := t.run.nPos + |ids|, nGenerated := s.nGenerated,
                             lastToken := s.lastToken, accepted := t.run.accepted + ids),
               place := t.place.(specRows := [], draft := []),
               sampler := if s.completed then Free(t.sampler) else t.sampler,
               events := s.events), s.completed)
  }
}
