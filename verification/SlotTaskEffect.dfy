/** What cache reuse, checkpoints and drafts are good for. */
module SlotTaskEffect {
  import opened Generation
  import opened BatchOrder
  import opened SlotTask
  import opened SlotTaskProofs

  // ---- reuse ----

  /** The first n tokens of the prompt stand at the beginning of the previous tokens, are cached, and leave a prompt token
      to decode. */
  predicate CanReuse(t: Task, cache: seq<Token>, e: InitEnv, n: nat) {
    n <= |t.last| && n <= |t.req.prompt| && t.last[..n] == t.req.prompt[..n] && n <= Physical(cache, e)
    && (t.req.prompt != [] ==> n < |t.req.prompt|)
  }

  /** A common prefix is no longer than the longest one. */
  lemma CommonIsLongest(a: seq<Token>, b: seq<Token>, n: nat)
    requires n <= |a| && n <= |b| && a[..n] == b[..n]
    ensures n <= CommonLen(a, b)
  {
    forall i | 0 <= i < n ensures a[i] == b[i] {
      assert a[..n][i] == b[..n][i];
    }
  }

  lemma ReusableIsLongest(t: Task, n: nat)
    requires n <= |t.last| && n <= |t.req.prompt| && t.last[..n] == t.req.prompt[..n] && (t.req.prompt != [] ==> n < |t.req.prompt|)
    ensures n <= Reusable(t.last, t.req.prompt)
  {
    CommonIsLongest(t.last, t.req.prompt, n);
  }

  lemma ReusableCanBe(t: Task, cache: seq<Token>, e: InitEnv)
    ensures CanReuse(t, cache, e, Min(Reusable(t.last, t.req.prompt), Physical(cache, e)))
  {
    var r := Reusable(t.last, t.req.prompt);
    var n := Min(r, Physical(cache, e));
    assert t.last[..n] == t.last[..r][..n] && t.req.prompt[..n] == t.req.prompt[..r][..n];
  }

  /** Trimming both contexts works, or is not needed. */
  predicate Trims(e: InitEnv) { e.trimTarget && (UsesDraft(e) ==> e.trimDraft) }

  /** init_task reuses as much as there is.  Unless the draft cache has to be rebuilt, it goes on behind the longest prefix
      of the prompt that can be reused, if the caches can be cut there; if they cannot, behind the checkpoint, if that can
      be restored; and else from the beginning.  The tokens reported as cached are those it goes on behind. */
  lemma ReuseIsLongest(cfg: Config, t: Task, cache: seq<Token>, e: InitEnv, n: nat)
    requires CanReuse(t, cache, e, n)
    ensures var u := InitTask(cfg, t, cache, e);
            && u.run.initialized && u.run.cached == u.run.promptPos == u.run.nPos == InitReuse(cfg, t, cache, e).pos
            && (NeedsResync(cfg, t, cache, e) ==> u.run.promptPos == 0)
            && (!NeedsResync(cfg, t, cache, e) && Trims(e) ==> n <= u.run.promptPos && CanReuse(t, cache, e, u.run.promptPos))
  {
    ReusableIsLongest(t, n);
    ReusableCanBe(t, cache, e);
  }

  /** What is left when the caches cannot be cut. */
  lemma ReuseFallsBack(cfg: Config, t: Task, cache: seq<Token>, e: InitEnv)
    requires !NeedsResync(cfg, t, cache, e) && !Trims(e)
    ensures var r, common := InitReuse(cfg, t, cache, e), Reusable(t.last, t.req.prompt);
            && (0 < Physical(cache, e) <= common ==> r.pos == Physical(cache, e))
            && (0 < common < Physical(cache, e) ==>
                  r.pos == if CkptUsable(cfg, t, common, e) && e.restored && e.trimCkpt then |t.ckpt| else 0)
  {
  }

  /** A checkpoint at the very position that is to be captured is handed on instead of captured again. */
  lemma CheckpointHandedOn(cfg: Config, t: Task, cache: seq<Token>, e: InitEnv)
    requires !NeedsResync(cfg, t, cache, e) && CkptUsable(cfg, t, Reusable(t.last, t.req.prompt), e) && |t.ckpt| == t.req.capturePos
    ensures InitTask(cfg, t, cache, e).outCkpt == t.ckpt
  {
  }

  // ---- checkpoints ----

  /** A prompt is read up to the position to capture and not past it; there the checkpoint is taken, and it is the prompt up
      to that position.  Elsewhere the checkpoint stays what it was. */
  lemma CheckpointTaken(cfg: Config, t: Task, cache: seq<Token>, used: nat, limit: nat, ok: bool)
    requires Ready(cfg, t, cache) && t.run.initialized && !t.run.promptDone
    ensures var u := BuildTask(cfg, t, used, limit);
            var v := CaptureTask(u, t.req.prompt[..u.run.promptPos], ok);
            && u.run.promptPos <= |t.req.prompt|
            && (t.run.promptPos < t.req.capturePos ==> u.run.promptPos <= t.req.capturePos)
            && (t.run.promptPos < u.run.promptPos == t.req.capturePos && ok ==> v.outCkpt == t.req.prompt[..t.req.capturePos])
            && (!(t.run.promptPos < u.run.promptPos == t.req.capturePos && ok) ==> v.outCkpt == t.outCkpt)
            && (cfg.separateDraft && t.place.mtp && t.run.promptPos < u.run.promptPos == t.req.capturePos ==>
                  u.run.promptPos == t.run.promptPos + 1)
  {
  }

  // ---- logits ----

  /** Logits are asked for where a token is sampled, and nowhere else: at the last prompt token, and at each row of a
      decoding task. */
  lemma LogitsWhereSampled(cfg: Config, t: Task, cache: seq<Token>, used: nat, limit: nat, i: nat)
    requires Ready(cfg, t, cache) && t.run.initialized && i < |Build(cfg, t, used, limit).rows|
    ensures var row := Build(cfg, t, used, limit).rows[i];
            && row.pos == t.run.nPos + i
            && (!t.run.promptDone ==> row.token == t.req.prompt[row.pos] && (row.logits <==> row.pos == |t.req.prompt| - 1))
            && (t.run.promptDone ==> row.logits && row.token == if i == 0 then t.run.lastToken else t.place.draft[i - 1])
  {
  }

  /** The row that is sampled is the last of the task, and the rows that are verified are all of them, in order. */
  lemma SampledRows(cfg: Config, t: Task, cache: seq<Token>, used: nat, limit: nat)
    requires Ready(cfg, t, cache) && t.run.initialized && Build(cfg, t, used, limit).rows != []
    ensures var u, rows := BuildTask(cfg, t, used, limit), Build(cfg, t, used, limit).rows;
            && (u.place.iBatch >= 0 <==> (if t.run.promptDone then t.place.draft == [] else u.run.promptPos == |t.req.prompt|))
            && (u.place.iBatch >= 0 ==> u.place.iBatch == used + |rows| - 1 && rows[|rows| - 1].logits)
            && (t.run.promptDone && t.place.draft != [] ==>
                  |u.place.specRows| == |rows| && forall i :: 0 <= i < |rows| ==> u.place.specRows[i] == used + i)
  {
  }

  // ---- drafts ----

  /** A draft is accepted for exactly as long as it agrees with what the target samples. */
  lemma {:induction false} AcceptsWhileAgreeing(m: Model, cache: seq<Token>, pos: nat, accepted: seq<Token>, draft: seq<Token>)
    requires pos + |draft| < |cache|
    ensures var r := SampleAndAcceptN(m, cache, pos, accepted, draft);
            && (forall i :: 0 <= i < |r| - 1 ==> r[i] == draft[i])
            && (|r| <= |draft| ==> r[|r| - 1] != draft[|r| - 1])
    decreases |draft|
  {
    var id := m.next(cache[..pos + 1], accepted);
    if draft == [] || id != draft[0] {
    } else {
      AcceptsWhileAgreeing(m, cache, pos + 1, accepted + [id], draft[1..]);
    }
  }

  /** A draft pays off: verifying one that agrees with plain decoding in its first k tokens yields at least k + 1 tokens,
      all of them plain, in one decode. */
  lemma DraftPaysOff(m: Model, prompt: seq<Token>, cache: seq<Token>, pos: nat, accepted: seq<Token>, draft: seq<Token>, k: nat)
    requires pos + |draft| < |cache| && cache[..pos + 1] == prompt + accepted && cache[pos + 1..pos + 1 + |draft|] == draft
    requires accepted == Gen(m, prompt, |accepted|) && k <= |draft|
    requires accepted + draft[..k] == Gen(m, prompt, |accepted| + k)
    ensures var r := SampleAndAcceptN(m, cache, pos, accepted, draft);
            k + 1 <= |r| && accepted + r == Gen(m, prompt, |accepted| + |r|)
  {
    var r := SampleAndAcceptN(m, cache, pos, accepted, draft);
    VerifiedDraftIsPlain(m, prompt, cache, pos, accepted, draft);
    LastAgrees(m, prompt, accepted, draft, k, r);
    AcceptsWhileAgreeing(m, cache, pos, accepted, draft);
  }

  /** Two stretches of plain decoding agree where both have tokens. */
  lemma LastAgrees(m: Model, prompt: seq<Token>, accepted: seq<Token>, draft: seq<Token>, k: nat, r: seq<Token>)
    requires k <= |draft| && r != []
    requires accepted + draft[..k] == Gen(m, prompt, |accepted| + k) && accepted + r == Gen(m, prompt, |accepted| + |r|)
    ensures |r| <= k ==> r[|r| - 1] == draft[|r| - 1]
  {
    if |r| <= k {
      GenPrefix(m, prompt, |accepted| + |r|, |accepted| + k);
      assert (accepted + draft[..k])[|accepted| + |r| - 1] == draft[|r| - 1];
      assert (accepted + r)[|accepted| + |r| - 1] == r[|r| - 1];
    }
  }
}
