/** What one request must produce, independently of batching, caching and drafting. */
module Generation {
  // The plain autoregressive sequence of a deterministic target, cut before the first stop token or at the
  // token limit.  The model's logits are a function of the tokens in the KV cache up to the sampled row, and
  // the sampler may also look at the tokens it has accepted so far.

  type Token = int

  datatype Model = Model(next: (seq<Token>, seq<Token>) -> Token, eog: Token -> bool)

  /** The first n tokens of plain one-token-at-a-time decoding. */
  ghost function Gen(m: Model, prompt: seq<Token>, n: nat): (g: seq<Token>)
    ensures |g| == n
  {
    if n == 0 then [] else
      var g := Gen(m, prompt, n - 1);
      g + [m.next(prompt + g, g)]
  }

  lemma {:induction false} GenPrefix(m: Model, prompt: seq<Token>, k: nat, n: nat)
    requires k <= n
    ensures Gen(m, prompt, n)[..k] == Gen(m, prompt, k)
    decreases n
  {
    if k < n {
      GenPrefix(m, prompt, k, n - 1);
      assert Gen(m, prompt, n)[..n - 1] == Gen(m, prompt, n - 1);
      assert Gen(m, prompt, n)[..k] == Gen(m, prompt, n - 1)[..k];
    } else {
      assert Gen(m, prompt, n)[..k] == Gen(m, prompt, n);
    }
  }

  predicate StopsAt(m: Model, stops: set<Token>, id: Token) {
    m.eog(id) || id in stops
  }

  /** A token limit of zero or less still yields the first sampled token. */
  function Limit(maxTokens: int): (r: int)
    ensures r >= 1
  {
    if maxTokens <= 0 then 1 else maxTokens
  }

  /** out is a run of plain decoding that has not stopped yet. */
  ghost predicate Running(m: Model, prompt: seq<Token>, stops: set<Token>, limit: int, out: seq<Token>) {
    && out == Gen(m, prompt, |out|)
    && |out| <= limit
    && forall i :: 0 <= i < |out| ==> !StopsAt(m, stops, out[i])
  }

  /** out is the whole answer: it either reached the limit or the next plain token is a stop token. */
  ghost predicate IsOutput(m: Model, prompt: seq<Token>, stops: set<Token>, limit: int, out: seq<Token>) {
    && Running(m, prompt, stops, limit, out)
    && (|out| == limit || StopsAt(m, stops, Gen(m, prompt, |out| + 1)[|out|]))
  }

  /** There is at most one answer, so IsOutput pins the emitted tokens down completely. */
  lemma OutputUnique(m: Model, prompt: seq<Token>, stops: set<Token>, limit: int, a: seq<Token>, b: seq<Token>)
    requires IsOutput(m, prompt, stops, limit, a)
    requires IsOutput(m, prompt, stops, limit, b)
    ensures a == b
  {
    if |a| < |b| {
      OutputNotLonger(m, prompt, stops, limit, a, b);
    } else if |b| < |a| {
      OutputNotLonger(m, prompt, stops, limit, b, a);
    }
  }

  lemma OutputNotLonger(m: Model, prompt: seq<Token>, stops: set<Token>, limit: int, a: seq<Token>, b: seq<Token>)
    requires IsOutput(m, prompt, stops, limit, a)
    requires Running(m, prompt, stops, limit, b)
    ensures |b| <= |a|
  {
    GenNth(m, prompt, |a|, |b|);
  }

  lemma GenNth(m: Model, prompt: seq<Token>, k: nat, n: nat)
    ensures k < n ==> Gen(m, prompt, k + 1)[k] == Gen(m, prompt, n)[k]
  {
    if k < n {
      GenPrefix(m, prompt, k + 1, n);
    }
  }

  /** Contract of common_sampler_sample_and_accept_n: starting at the row for cache position pos,
      sample and accept a token per row for as long as the draft agrees, plus one target token. */
  function SampleAndAcceptN(m: Model, cache: seq<Token>, pos: nat, accepted: seq<Token>, draft: seq<Token>):
    (r: seq<Token>)
    requires pos + |draft| < |cache|
    ensures 1 <= |r| <= |draft| + 1
    decreases |draft|
  {
    var id := m.next(cache[..pos + 1], accepted);
    if draft == [] || id != draft[0] then [id]
    else [id] + SampleAndAcceptN(m, cache, pos + 1, accepted + [id], draft[1..])
  }

  /** Verifying any draft against the cache yields a stretch of plain decoding, and every
      returned token but the last one is the draft token that already sits in the cache. */
  lemma {:induction false} VerifiedDraftIsPlain(
      m: Model, prompt: seq<Token>, cache: seq<Token>, pos: nat, accepted: seq<Token>, draft: seq<Token>)
    requires pos + |draft| < |cache|
    requires cache[..pos + 1] == prompt + accepted
    requires accepted == Gen(m, prompt, |accepted|)
    requires cache[pos + 1..pos + 1 + |draft|] == draft
    ensures var r := SampleAndAcceptN(m, cache, pos, accepted, draft);
            && accepted + r == Gen(m, prompt, |accepted| + |r|)
            && cache[..pos + |r|] == prompt + accepted + r[..|r| - 1]
    decreases |draft|
  {
    var r := SampleAndAcceptN(m, cache, pos, accepted, draft);
    var id := m.next(cache[..pos + 1], accepted);
    assert accepted + [id] == Gen(m, prompt, |accepted| + 1);
    if draft == [] || id != draft[0] {
      assert prompt + accepted + r[..|r| - 1] == prompt + accepted;
    } else {
      var r1 := SampleAndAcceptN(m, cache, pos + 1, accepted + [id], draft[1..]);
      NextDraftRow(cache, pos, prompt, accepted, draft);
      VerifiedDraftIsPlain(m, prompt, cache, pos + 1, accepted + [id], draft[1..]);
      Regroup(prompt, accepted, id, r1);
    }
  }

  lemma Regroup(prompt: seq<Token>, accepted: seq<Token>, id: Token, r: seq<Token>)
    requires r != []
    ensures accepted + ([id] + r) == (accepted + [id]) + r
    ensures prompt + accepted + ([id] + r)[..|r|] == prompt + (accepted + [id]) + r[..|r| - 1]
  {
    assert ([id] + r)[..|r|] == [id] + r[..|r| - 1];
  }

  lemma NextDraftRow(cache: seq<Token>, pos: nat, prompt: seq<Token>, accepted: seq<Token>, draft: seq<Token>)
    requires draft != [] && pos + |draft| < |cache|
    requires cache[..pos + 1] == prompt + accepted
    requires cache[pos + 1..pos + 1 + |draft|] == draft
    ensures cache[..pos + 2] == prompt + (accepted + [draft[0]])
    ensures cache[pos + 2..pos + 2 + |draft[1..]|] == draft[1..]
  {
    assert cache[pos + 1] == cache[pos + 1..pos + 1 + |draft|][0];
    assert cache[..pos + 2] == cache[..pos + 1] + [draft[0]];
    assert cache[pos + 2..pos + 2 + |draft[1..]|] == cache[pos + 1..pos + 1 + |draft|][1..];
  }
}
