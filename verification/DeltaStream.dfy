/** InferenceDeltaUtf8Buffer: one Utf8StreamBuffer for each text field of a delta and of each tool call index. */
module DeltaStream {
  // Every field behaves as if it had a buffer of its own, however deltas interleave fields and tool calls.

  import opened Utf8Stream

  /** The four text fields of a tool call, in a delta or held back: id, type, function name and
      function arguments. */
  type Quad = q: seq<Bytes> | |q| == 4 witness [[], [], [], []]
  type Part = p: nat | p < 4

  datatype Call = Call(index: nat, text: Quad)
  datatype Delta = Delta(content: Bytes, reasoning: Bytes, calls: seq<Call>)
  datatype Buffers = Buffers(content: Bytes, reasoning: Bytes, calls: map<nat, Quad>)

  const NOTHING: Quad := [[], [], [], []]
  const EMPTY := Buffers([], [], map[])

  function HeldOf(calls: map<nat, Quad>, i: nat): Quad { if i in calls then calls[i] else NOTHING }

  /** on_chunk as a function: what comes out and what stays. */
  function Out(held: Bytes, chunk: Bytes): Bytes { (held + chunk)[..Cut(held + chunk)] }
  function Rest(held: Bytes, chunk: Bytes): Bytes { (held + chunk)[Cut(held + chunk)..] }

  function OutQuad(h: Quad, c: Quad): Quad { seq(4, p requires 0 <= p < 4 => Out(h[p], c[p])) }

  function RestQuad(h: Quad, c: Quad): Quad { seq(4, p requires 0 <= p < 4 => Rest(h[p], c[p])) }

  predicate IsEmpty(q: Quad) { forall p :: 0 <= p < 4 ==> q[p] == [] }

  function Nonempty(c: Call): seq<Call> { if IsEmpty(c.text) then [] else [c] }

  /** The tool call loop of on_delta: buffers and output after the first calls. */
  function HeldCalls(held: map<nat, Quad>, calls: seq<Call>): map<nat, Quad> {
    if calls == [] then held
    else
      var h, c := HeldCalls(held, calls[..|calls| - 1]), calls[|calls| - 1];
      h[c.index := RestQuad(HeldOf(h, c.index), c.text)]
  }

  function OutCalls(held: map<nat, Quad>, calls: seq<Call>): seq<Call> {
    if calls == [] then []
    else
      var h, c := HeldCalls(held, calls[..|calls| - 1]), calls[|calls| - 1];
      OutCalls(held, calls[..|calls| - 1]) + Nonempty(Call(c.index, OutQuad(HeldOf(h, c.index), c.text)))
  }

  function After(b: Buffers, d: Delta): Buffers {
    Buffers(Rest(b.content, d.content), Rest(b.reasoning, d.reasoning), HeldCalls(b.calls, d.calls))
  }

  function Output(b: Buffers, d: Delta): Delta {
    Delta(Out(b.content, d.content), Out(b.reasoning, d.reasoning), OutCalls(b.calls, d.calls))
  }

  // ---- one field at a time ----

  datatype Field = Content | Reasoning | Tool(i: nat, p: Part)

  function HeldField(b: Buffers, f: Field): Bytes {
    match f
    case Content => b.content
    case Reasoning => b.reasoning
    case Tool(i, p) => HeldOf(b.calls, i)[p]
  }

  /** The chunk a call feeds to one part of one index, if it has that index. */
  function CallChunk(c: Call, i: nat, p: Part): seq<Bytes> { if c.index == i then [c.text[p]] else [] }

  function CallChunks(calls: seq<Call>, i: nat, p: Part): seq<Bytes> {
    if calls == [] then []
    else CallChunks(calls[..|calls| - 1], i, p) + CallChunk(calls[|calls| - 1], i, p)
  }

  /** The chunks that one delta feeds to a field, in order. */
  function Chunks(d: Delta, f: Field): seq<Bytes> {
    match f
    case Content => [d.content]
    case Reasoning => [d.reasoning]
    case Tool(i, p) => CallChunks(d.calls, i, p)
  }

  /** All bytes of a field in a delta. */
  function Text(d: Delta, f: Field): Bytes { Concat(Chunks(d, f)) }

  function AllChunks(ds: seq<Delta>, f: Field): seq<Bytes> {
    if ds == [] then [] else AllChunks(ds[..|ds| - 1], f) + Chunks(ds[|ds| - 1], f)
  }

  function RunHeld(ds: seq<Delta>): Buffers {
    if ds == [] then EMPTY else After(RunHeld(ds[..|ds| - 1]), ds[|ds| - 1])
  }

  function RunOut(ds: seq<Delta>): seq<Delta> {
    if ds == [] then []
    else RunOut(ds[..|ds| - 1]) + [Output(RunHeld(ds[..|ds| - 1]), ds[|ds| - 1])]
  }

  // ---- chunk lists ----

  lemma {:induction false} ConcatAppend(a: seq<Bytes>, b: seq<Bytes>)
    ensures Concat(a + b) == Concat(a) + Concat(b)
  {
    if b == [] {
      assert a + b == a;
    } else {
      assert (a + b)[..|a + b| - 1] == a + b[..|b| - 1];
      ConcatAppend(a, b[..|b| - 1]);
    }
  }

  lemma StreamSnoc(a: seq<Bytes>, chunk: Bytes)
    ensures Pending(a + [chunk]) == Rest(Pending(a), chunk)
    ensures Emitted(a + [chunk]) == Emitted(a) + Out(Pending(a), chunk)
  {
    assert (a + [chunk])[..|a|] == a;
  }

  lemma ConcatOne(b: Bytes)
    ensures Concat([b]) == b
  {
    assert [b][..0] == [];
  }

  /** Dropping a call without text does not change any field. */
  lemma OutText(a: seq<Call>, c: Call, i: nat, p: Part)
    ensures Concat(CallChunks(a + Nonempty(c), i, p)) == Concat(CallChunks(a, i, p)) + Concat(CallChunk(c, i, p))
  {
    ConcatOne(c.text[p]);
    if IsEmpty(c.text) {
      assert a + Nonempty(c) == a;
    } else {
      assert (a + [c])[..|a|] == a;
      ConcatAppend(CallChunks(a, i, p), CallChunk(c, i, p));
    }
  }

  /** One call, seen from one part of one index. */
  lemma HoldOne(h: map<nat, Quad>, c: Call, i: nat, p: Part)
    ensures HeldOf(h[c.index := RestQuad(HeldOf(h, c.index), c.text)], i)[p] ==
            if c.index == i then Rest(HeldOf(h, i)[p], c.text[p]) else HeldOf(h, i)[p]
  {
  }

  lemma FeedOne(fed: seq<Bytes>, c: Call, i: nat, p: Part)
    ensures Pending(fed + CallChunk(c, i, p)) == if c.index == i then Rest(Pending(fed), c.text[p]) else Pending(fed)
    ensures Emitted(fed + CallChunk(c, i, p)) == Emitted(fed) + if c.index == i then Out(Pending(fed), c.text[p]) else []
  {
    StreamSnoc(fed, c.text[p]);
    assert fed + [] == fed;
    assert Emitted(fed) + [] == Emitted(fed);
  }

  /** The tool call loop keeps, for each part of each index, what that part's own stream would keep. */
  lemma {:induction false} CallsHold(held: map<nat, Quad>, calls: seq<Call>, i: nat, p: Part, before: seq<Bytes>)
    requires HeldOf(held, i)[p] == Pending(before)
    ensures HeldOf(HeldCalls(held, calls), i)[p] == Pending(before + CallChunks(calls, i, p))
  {
    if calls == [] {
      assert before + [] == before;
    } else {
      var n := |calls| - 1;
      CallsHold(held, calls[..n], i, p, before);
      HoldOne(HeldCalls(held, calls[..n]), calls[n], i, p);
      HoldStep(before, calls, i, p);
    }
  }

  lemma HoldStep(before: seq<Bytes>, calls: seq<Call>, i: nat, p: Part)
    requires calls != []
    ensures var fed, c := before + CallChunks(calls[..|calls| - 1], i, p), calls[|calls| - 1];
            && before + CallChunks(calls, i, p) == fed + CallChunk(c, i, p)
            && Pending(before + CallChunks(calls, i, p)) == if c.index == i then Rest(Pending(fed), c.text[p]) else Pending(fed)
  {
    var fed, c := before + CallChunks(calls[..|calls| - 1], i, p), calls[|calls| - 1];
    assert before + CallChunks(calls, i, p) == fed + CallChunk(c, i, p);
    FeedOne(fed, c, i, p);
  }

  lemma {:induction false} CallsEmit(held: map<nat, Quad>, calls: seq<Call>, i: nat, p: Part, before: seq<Bytes>)
    requires HeldOf(held, i)[p] == Pending(before)
    ensures Emitted(before) + Concat(CallChunks(OutCalls(held, calls), i, p)) == Emitted(before + CallChunks(calls, i, p))
  {
    if calls == [] {
      assert before + [] == before;
      assert Emitted(before) + [] == Emitted(before);
    } else {
      var n := |calls| - 1;
      var h, c, fed := HeldCalls(held, calls[..n]), calls[n], before + CallChunks(calls[..n], i, p);
      CallsEmit(held, calls[..n], i, p, before);
      CallsHold(held, calls[..n], i, p, before);
      HoldStep(before, calls, i, p);
      FeedOne(fed, c, i, p);
      SayOne(HeldOf(h, c.index), c, i, p);
      EmitOne(OutCalls(held, calls[..n]), OutQuad(HeldOf(h, c.index), c.text), c.index, i, p, Emitted(before), Emitted(fed),
              if c.index == i then Out(Pending(fed), c.text[p]) else []);
    }
  }

  lemma SayOne(h: Quad, c: Call, i: nat, p: Part)
    ensures OutQuad(h, c.text)[p] == Out(h[p], c.text[p])
  {
  }

  lemma EmitOne(out: seq<Call>, q: Quad, index: nat, i: nat, p: Part, start: Bytes, said: Bytes, e: Bytes)
    requires start + Concat(CallChunks(out, i, p)) == said
    requires if index == i then q[p] == e else e == []
    ensures start + Concat(CallChunks(out + Nonempty(Call(index, q)), i, p)) == said + e
  {
    OutText(out, Call(index, q), i, p);
    CallText(index, q, i, p);
    Regroup(start, Concat(CallChunks(out, i, p)), e);
  }

  lemma CallText(index: nat, q: Quad, i: nat, p: Part)
    ensures Concat(CallChunk(Call(index, q), i, p)) == if index == i then q[p] else []
  {
    ConcatOne(q[p]);
  }

  lemma Regroup(a: Bytes, b: Bytes, c: Bytes)
    ensures a + (b + c) == (a + b) + c
  {
  }

  lemma DeltaRun(b: Buffers, d: Delta, f: Field, before: seq<Bytes>)
    requires HeldField(b, f) == Pending(before)
    ensures HeldField(After(b, d), f) == Pending(before + Chunks(d, f))
    ensures Emitted(before) + Text(Output(b, d), f) == Emitted(before + Chunks(d, f))
  {
    match f
    case Content =>
      StreamSnoc(before, d.content);
      ConcatOne(Output(b, d).content);
    case Reasoning =>
      StreamSnoc(before, d.reasoning);
      ConcatOne(Output(b, d).reasoning);
    case Tool(i, p) =>
      CallsHold(b.calls, d.calls, i, p, before);
      CallsEmit(b.calls, d.calls, i, p, before);
  }

  /** Projection: for every field and tool index, the deltas produced are exactly what a single
      Utf8StreamBuffer fed with that field's chunks would have produced and kept. */
  lemma {:induction false} EachFieldIsAStream(ds: seq<Delta>, f: Field)
    ensures HeldField(RunHeld(ds), f) == Pending(AllChunks(ds, f))
    ensures Concat(AllChunks(RunOut(ds), f)) == Emitted(AllChunks(ds, f))
  {
    if ds == [] {
    } else {
      var n := |ds| - 1;
      EachFieldIsAStream(ds[..n], f);
      var b, d := RunHeld(ds[..n]), ds[n];
      DeltaRun(b, d, f, AllChunks(ds[..n], f));
      var outs := RunOut(ds[..n]);
      assert (outs + [Output(b, d)])[..|outs|] == outs;
      ConcatAppend(AllChunks(outs, f), Chunks(Output(b, d), f));
    }
  }

  /** Hence every field conserves its bytes, holds back at most three of them, and, while the field
      is well-formed text, has emitted exactly its whole characters. */
  lemma EachFieldStreams(ds: seq<Delta>, f: Field, t: Bytes)
    ensures Concat(AllChunks(RunOut(ds), f)) + HeldField(RunHeld(ds), f) == Concat(AllChunks(ds, f))
    ensures |HeldField(RunHeld(ds), f)| <= 3
    ensures Utf8(Concat(AllChunks(ds, f)) + t) ==>
              WholePrefix(Concat(AllChunks(ds, f)), Concat(AllChunks(RunOut(ds), f)))
  {
    EachFieldIsAStream(ds, f);
    StreamConserves(AllChunks(ds, f));
    if Utf8(Concat(AllChunks(ds, f)) + t) {
      StreamEmitsWholeCharacters(AllChunks(ds, f), t);
    }
  }

  // ---- finish ----

  /** The indices of the tool call map in ascending order, as std::map iterates. */
  predicate Ascending(order: seq<nat>) { forall i, j :: 0 <= i < j < |order| ==> order[i] < order[j] }

  function FinishCalls(calls: map<nat, Quad>, order: seq<nat>): seq<Call> {
    if order == [] then []
    else
      var i := order[|order| - 1];
      FinishCalls(calls, order[..|order| - 1]) + Nonempty(Call(i, HeldOf(calls, i)))
  }

  lemma FinishOne(out: seq<Call>, index: nat, held: Quad, i: nat, p: Part)
    ensures Concat(CallChunks(out + Nonempty(Call(index, held)), i, p))
         == Concat(CallChunks(out, i, p)) + if index == i then held[p] else []
  {
    OutText(out, Call(index, held), i, p);
    CallText(index, held, i, p);
  }

  lemma LastOnce(order: seq<nat>)
    requires Ascending(order) && order != []
    ensures var n := |order| - 1;
            Ascending(order[..n]) && order[n] !in order[..n] && forall x :: x in order <==> x in order[..n] || x == order[n]
  {
    var n := |order| - 1;
    assert order == order[..n] + [order[n]];
  }

  lemma {:induction false} FinishText(calls: map<nat, Quad>, order: seq<nat>, i: nat, p: Part)
    requires Ascending(order)
    ensures Concat(CallChunks(FinishCalls(calls, order), i, p)) == if i in order then HeldOf(calls, i)[p] else []
  {
    if order == [] {
    } else {
      var n := |order| - 1;
      FinishText(calls, order[..n], i, p);
      FinishOne(FinishCalls(calls, order[..n]), order[n], HeldOf(calls, order[n]), i, p);
      LastOnce(order);
    }
  }

  lemma FinishCompletes(ds: seq<Delta>, order: seq<nat>, f: Field)
    requires Ascending(order) && forall i :: i in order <==> i in RunHeld(ds).calls
    ensures var b := RunHeld(ds);
            Concat(AllChunks(RunOut(ds), f)) + Text(Delta(b.content, b.reasoning, FinishCalls(b.calls, order)), f) ==
            Concat(AllChunks(ds, f))
  {
    EachFieldStreams(ds, f, []);
    FlushText(RunHeld(ds), order, f);
  }

  lemma FlushText(b: Buffers, order: seq<nat>, f: Field)
    requires Ascending(order) && forall i :: i in order <==> i in b.calls
    ensures Text(Delta(b.content, b.reasoning, FinishCalls(b.calls, order)), f) == HeldField(b, f)
  {
    match f
    case Content => ConcatOne(b.content);
    case Reasoning => ConcatOne(b.reasoning);
    case Tool(i, p) => FinishText(b.calls, order, i, p);
  }

  lemma FinishCompletesAll(ds: seq<Delta>, order: seq<nat>, b: Buffers)
    requires b == RunHeld(ds) && Ascending(order) && forall i :: i in order <==> i in b.calls
    ensures forall f: Field ::
              Concat(AllChunks(RunOut(ds), f)) + Text(Delta(b.content, b.reasoning, FinishCalls(b.calls, order)), f) ==
              Concat(AllChunks(ds, f))
  {
    forall f: Field
      ensures Concat(AllChunks(RunOut(ds), f)) + Text(Delta(b.content, b.reasoning, FinishCalls(b.calls, order)), f) ==
              Concat(AllChunks(ds, f))
    {
      FinishCompletes(ds, order, f);
    }
  }

  lemma NothingHeld(calls: map<nat, Quad>)
    requires forall i :: i in calls ==> calls[i] == NOTHING
    ensures forall f: Field :: HeldField(Buffers([], [], calls), f) == []
  {
  }

  class InferenceDeltaUtf8Buffer {
    var content: Bytes
    var reasoning: Bytes
    var calls: map<nat, Quad>
    ghost var seen: seq<Delta>

    ghost function Held(): Buffers
      reads this
    {
      Buffers(content, reasoning, calls)
    }

    ghost predicate Valid()
      reads this
    {
      Held() == RunHeld(seen)
    }

    constructor ()
      ensures Valid() && seen == []
    {
      content, reasoning, calls := [], [], map[];
      seen := [];
    }

    method OnDelta(input: Delta) returns (output: Delta)
      requires Valid()
      modifies this
      ensures Valid() && seen == old(seen) + [input]
      ensures output == Output(old(Held()), input)
      ensures RunOut(seen) == RunOut(old(seen)) + [output]
    {
      var outContent, outReasoning := Out(content, input.content), Out(reasoning, input.reasoning);
      var clean := OnCalls(input.calls);
      content, reasoning := Rest(content, input.content), Rest(reasoning, input.reasoning);
      seen := seen + [input];
      assert seen[..|seen| - 1] == old(seen);
      output := Delta(outContent, outReasoning, clean);
    }

    /** The loop over the tool calls of a delta; an index seen for the first time starts empty. */
    method OnCalls(input: seq<Call>) returns (clean: seq<Call>)
      modifies this`calls
      ensures calls == HeldCalls(old(calls), input) && clean == OutCalls(old(calls), input)
    {
      clean := [];
      for k := 0 to |input|
        invariant calls == HeldCalls(old(calls), input[..k])
        invariant clean == OutCalls(old(calls), input[..k])
      {
        var c := input[k];
        assert input[..k + 1][..k] == input[..k];
        var h := HeldOf(calls, c.index);
        calls := calls[c.index := RestQuad(h, c.text)];
        clean := clean + Nonempty(Call(c.index, OutQuad(h, c.text)));
      }
      assert input[..|input|] == input;
    }

    /** What finish flushes completes every field: outputs so far ++ this delta is the input. */
    method Finish(order: seq<nat>) returns (output: Delta)
      requires Valid() && Ascending(order) && forall i :: i in order <==> i in calls
      modifies this
      ensures forall f: Field ::
                Concat(AllChunks(RunOut(old(seen)), f)) + Text(output, f) == Concat(AllChunks(old(seen), f))
      ensures forall f: Field :: HeldField(Held(), f) == []
    {
      output := Delta(content, reasoning, FinishCalls(calls, order));
      FinishCompletesAll(seen, order, Held());
      content, reasoning := [], [];
      calls := map i | i in calls :: NOTHING;
      NothingHeld(calls);
    }
  }
}
