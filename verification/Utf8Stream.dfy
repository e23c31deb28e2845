/** Utf8StreamBuffer: hold back the bytes of an unfinished character at the end of a stream. */
module Utf8Stream {

  newtype Byte = x: int | 0 <= x < 256
  type Bytes = seq<Byte>

  predicate IsContinuation(b: Byte) { 0x80 <= b <= 0xbf }

  /** utf8_sequence_length: 0 for ASCII, continuation and invalid lead bytes. */
  function SequenceLength(lead: Byte): nat {
    if 0xc2 <= lead <= 0xdf then 2
    else if 0xe0 <= lead <= 0xef then 3
    else if 0xf0 <= lead <= 0xf4 then 4
    else 0
  }

  /** Continuation bytes at the end of v, at most three. */
  function Tail(v: Bytes): (n: nat)
    ensures n <= 3 && n <= |v|
    ensures forall i :: |v| - n <= i < |v| ==> IsContinuation(v[i])
  {
    if v == [] || !IsContinuation(v[|v| - 1]) then 0
    else
      var n := Tail(v[..|v| - 1]);
      if n == 3 then 3 else n + 1
  }

  /** Where the unfinished character starts, or |v|. */
  function Cut(v: Bytes): (n: nat)
    ensures n <= |v| && |v| - n <= 3
  {
    var n := |v| - Tail(v);
    if n == 0 then |v|
    else if SequenceLength(v[n - 1]) > Tail(v) + 1 then n - 1
    else |v|
  }

  method IncompleteUtf8Suffix(value: Bytes) returns (n: nat)
    ensures n == Cut(value)
  {
    if value == [] {
      return |value|;
    }
    var lead, count := |value|, 0;
    assert value[..lead] == value;
    while lead > 0 && count < 3 && IsContinuation(value[lead - 1])
      invariant 0 <= lead && 0 <= count <= 3 && lead + count == |value|
      invariant Tail(value) == Min3(count + Tail(value[..lead]))
    {
      assert value[..lead][..lead - 1] == value[..lead - 1];
      lead, count := lead - 1, count + 1;
    }
    assert count == Tail(value);
    if lead == 0 {
      return |value|;
    }
    return if SequenceLength(value[lead - 1]) > count + 1 then lead - 1 else |value|;
  }

  function Min3(n: nat): nat { if n > 3 then 3 else n }

  /** A byte that announces a character, and fewer continuation bytes behind it than it asks for. */
  predicate Begun(p: Bytes) {
    p != [] && |p| < SequenceLength(p[0]) && forall i :: 1 <= i < |p| ==> IsContinuation(p[i])
  }

  /** Whatever the bytes: what is held back begins a character that is not complete, and such an end is always held
      back. */
  lemma HeldIffBegun(v: Bytes, n: nat)
    requires n < |v|
    ensures Cut(v) == n <==> Begun(v[n..])
  {
    var p := v[n..];
    if Begun(p) {
      assert v[..n] + p == v;
      TailOfChar(v[..n], p);
    }
  }

  // ---- the stream ----

  function Concat(chunks: seq<Bytes>): Bytes {
    if chunks == [] then [] else Concat(chunks[..|chunks| - 1]) + chunks[|chunks| - 1]
  }

  /** Bytes held back after the chunks. */
  function Pending(chunks: seq<Bytes>): Bytes {
    if chunks == [] then []
    else
      var v := Pending(chunks[..|chunks| - 1]) + chunks[|chunks| - 1];
      v[Cut(v)..]
  }

  /** Bytes emitted by the chunks, without finish. */
  function Emitted(chunks: seq<Bytes>): Bytes {
    if chunks == [] then []
    else
      var v := Pending(chunks[..|chunks| - 1]) + chunks[|chunks| - 1];
      Emitted(chunks[..|chunks| - 1]) + v[..Cut(v)]
  }

  /** Nothing is lost, duplicated or reordered, whatever the bytes: emitted ++ held back is the
      input, and at most three bytes are ever held back. */
  lemma {:induction false} StreamConserves(chunks: seq<Bytes>)
    ensures Emitted(chunks) + Pending(chunks) == Concat(chunks)
    ensures |Pending(chunks)| <= 3
  {
    if chunks == [] {
    } else {
      var before := chunks[..|chunks| - 1];
      StreamConserves(before);
      var v := Pending(before) + chunks[|chunks| - 1];
      CutApart(Emitted(before), Pending(before), chunks[|chunks| - 1], v, Cut(v));
    }
  }

  lemma CutApart(emitted: Bytes, pending: Bytes, chunk: Bytes, v: Bytes, n: nat)
    requires v == pending + chunk && n <= |v|
    ensures (emitted + v[..n]) + v[n..] == (emitted + pending) + chunk
  {
    assert (emitted + v[..n]) + v[n..] == emitted + (v[..n] + v[n..]);
    assert v[..n] + v[n..] == v;
    assert emitted + (pending + chunk) == (emitted + pending) + chunk;
  }

  lemma NextChunk(chunks: seq<Bytes>, chunk: Bytes, v: Bytes)
    requires v == Pending(chunks) + chunk
    ensures Pending(chunks + [chunk]) == v[Cut(v)..] && Emitted(chunks + [chunk]) == Emitted(chunks) + v[..Cut(v)]
  {
    assert (chunks + [chunk])[..|chunks|] == chunks;
  }

  lemma TwoHalves(v: Bytes, cut: nat)
    requires cut <= |v|
    ensures v[..cut] + v[cut..] == v && (cut == |v| ==> v[..cut] == v && v[cut..] == [])
  {
  }

  class Utf8StreamBuffer {
    var pending: Bytes
    ghost var chunks: seq<Bytes>

    ghost predicate Valid()
      reads this
    {
      pending == Pending(chunks)
    }

    constructor ()
      ensures Valid() && chunks == [] && pending == []
    {
      pending, chunks := [], [];
    }

    method OnChunk(chunk: Bytes) returns (out: Bytes)
      requires Valid()
      modifies this
      ensures Valid() && chunks == old(chunks) + [chunk]
      ensures Emitted(chunks) == Emitted(old(chunks)) + out
      ensures out + pending == old(pending) + chunk
    {
      var v := pending + chunk;
      var suffix := IncompleteUtf8Suffix(v);
      NextChunk(chunks, chunk, v);
      TwoHalves(v, suffix);
      chunks := chunks + [chunk];
      if suffix == |v| {
        out, pending := v, [];
        return;
      }
      out, pending := v[..suffix], v[suffix..];
    }

    /** Everything that was put in has come out once finish has returned. */
    method Finish() returns (out: Bytes)
      requires Valid()
      modifies this
      ensures Valid() && chunks == [] && pending == []
      ensures Emitted(old(chunks)) + out == Concat(old(chunks))
    {
      StreamConserves(chunks);
      out, pending := pending, [];
      chunks := [];
    }
  }

  // ---- well-formed UTF-8, section 4 of RFC 3629 ----

  /** Length announced by the first byte of a character, 0 if it cannot start one. */
  function CharLength(lead: Byte): nat {
    if lead <= 0x7f then 1 else SequenceLength(lead)
  }

  predicate SecondByte(lead: Byte, b: Byte) {
    if lead == 0xe0 then 0xa0 <= b <= 0xbf
    else if lead == 0xed then 0x80 <= b <= 0x9f
    else if lead == 0xf0 then 0x90 <= b <= 0xbf
    else if lead == 0xf4 then 0x80 <= b <= 0x8f
    else IsContinuation(b)
  }

  predicate IsChar(c: Bytes) {
    && c != [] && |c| == CharLength(c[0])
    && (|c| >= 2 ==> SecondByte(c[0], c[1]))
    && forall i :: 2 <= i < |c| ==> IsContinuation(c[i])
  }

  predicate Utf8(s: Bytes) {
    s == [] ||
    (var n := CharLength(s[0]);
     0 < n <= |s| && IsChar(s[..n]) && Utf8(s[n..]))
  }

  /** An unfinished character: a proper prefix of one, possibly empty. */
  ghost predicate Unfinished(p: Bytes) {
    p == [] || exists rest :: rest != [] && IsChar(p + rest)
  }

  lemma {:induction false} Utf8Concat(a: Bytes, b: Bytes)
    requires Utf8(a)
    ensures Utf8(a + b) == Utf8(b)
  {
    if a == [] {
      assert a + b == b;
    } else {
      var n := CharLength(a[0]);
      assert (a + b)[..n] == a[..n] && (a + b)[n..] == a[n..] + b;
      Utf8Concat(a[n..], b);
    }
  }

  lemma FirstCharWhole(x: Bytes, t: Bytes)
    requires x != [] && Utf8(x + t) && CharLength(x[0]) <= |x|
    ensures var n := CharLength(x[0]); 0 < n && IsChar(x[..n]) && Utf8(x[n..] + t) && Utf8(x[..n])
  {
    var n := CharLength(x[0]);
    assert (x + t)[..n] == x[..n] && (x + t)[n..] == x[n..] + t;
    assert x[..n][..n] == x[..n] && x[..n][n..] == [];
  }

  lemma FirstCharCut(x: Bytes, t: Bytes)
    requires x != [] && Utf8(x + t) && CharLength(x[0]) > |x|
    ensures Unfinished(x)
  {
    var n := CharLength(x[0]);
    assert x + (x + t)[|x|..n] == (x + t)[..n];
  }

  lemma CharThenWhole(x: Bytes, n: nat, j: nat)
    requires n + j <= |x| && Utf8(x[..n]) && Utf8(x[n..][..j])
    ensures Utf8(x[..n + j]) && x[n + j..] == x[n..][j..]
  {
    Utf8Concat(x[..n], x[n..][..j]);
    assert x[..n + j] == x[..n] + x[n..][..j];
  }

  /** Any prefix of well-formed text is whole characters followed by an unfinished one. */
  lemma {:induction false} SplitPrefix(x: Bytes, t: Bytes) returns (k: nat)
    requires Utf8(x + t)
    ensures k <= |x| && Utf8(x[..k]) && Unfinished(x[k..])
    decreases |x|
  {
    if x == [] {
      k := 0;
    } else {
      var n := CharLength(x[0]);
      if n <= |x| {
        FirstCharWhole(x, t);
        var j := SplitPrefix(x[n..], t);
        k := n + j;
        CharThenWhole(x, n, j);
      } else {
        k := 0;
        FirstCharCut(x, t);
        assert x[0..] == x;
      }
    }
  }

  /** Tail counts exactly the continuation bytes of the last character, finished or not. */
  lemma {:induction false} TailOfChar(w: Bytes, p: Bytes)
    requires 1 <= |p| <= 4 && !IsContinuation(p[0])
    requires forall i :: 1 <= i < |p| ==> IsContinuation(p[i])
    ensures Tail(w + p) == |p| - 1
  {
    var n := |p| - 1;
    assert (w + p)[..|w + p| - 1] == w + p[..n];
    if n == 0 {
    } else {
      TailOfChar(w, p[..n]);
    }
  }

  lemma CutUnfinished(w: Bytes, p: Bytes)
    requires Unfinished(p) && p != []
    ensures Cut(w + p) == |w|
  {
    var rest :| rest != [] && IsChar(p + rest);
    var c := p + rest;
    assert forall i :: 1 <= i < |p| ==> p[i] == c[i];
    TailOfChar(w, p);
    assert (w + p)[|w|] == p[0];
  }

  lemma CutWhole(w: Bytes, c: Bytes)
    requires IsChar(c)
    ensures Cut(w + c) == |w + c|
  {
    TailOfChar(w, c);
    assert (w + c)[|w|] == c[0];
  }

  /** The last character of non-empty whole text. */
  lemma {:induction false} LastChar(s: Bytes) returns (k: nat)
    requires Utf8(s) && s != []
    ensures k < |s| && IsChar(s[k..])
  {
    var n := CharLength(s[0]);
    if n == |s| {
      k := 0;
      assert s[0..] == s == s[..n];
    } else {
      var j := LastChar(s[n..]);
      k := n + j;
      assert s[n..][j..] == s[k..];
    }
  }

  lemma CutSplit(w: Bytes, p: Bytes)
    requires Utf8(w) && Unfinished(p)
    ensures Cut(w + p) == |w|
  {
    if p != [] {
      CutUnfinished(w, p);
    } else if w != [] {
      var k := LastChar(w);
      assert w == w[..k] + w[k..] && w + p == w;
      CutWhole(w[..k], w[k..]);
    }
  }

  /** e is the longest prefix of r made of whole characters. */
  ghost predicate WholePrefix(r: Bytes, e: Bytes) {
    e <= r && Utf8(e) && forall k :: |e| < k <= |r| ==> !Utf8(r[..k])
  }

  lemma WholePrefixUnique(r: Bytes, e: Bytes, f: Bytes)
    requires WholePrefix(r, e) && WholePrefix(r, f)
    ensures e == f
  {
    assert r[..|e|] == e && r[..|f|] == f;
  }

  lemma UnfinishedIsNotWhole(p: Bytes, k: nat)
    requires Unfinished(p) && 0 < k <= |p|
    ensures !Utf8(p[..k])
  {
    var rest :| rest != [] && IsChar(p + rest);
    assert (p + rest)[0] == p[..k][0];
  }

  lemma SplitIsLongest(w: Bytes, p: Bytes)
    requires Utf8(w) && Unfinished(p)
    ensures WholePrefix(w + p, w)
  {
    forall k | |w| < k <= |w + p| ensures !Utf8((w + p)[..k]) {
      assert (w + p)[..k] == w + p[..k - |w|];
      Utf8Concat(w, p[..k - |w|]);
      UnfinishedIsNotWhole(p, k - |w|);
    }
  }

  /** While the stream is a prefix of well-formed text, what has been emitted is whole characters
      and what is held back is the unfinished one. */
  lemma {:induction false} StreamSplits(chunks: seq<Bytes>, t: Bytes)
    requires Utf8(Concat(chunks) + t)
    ensures Utf8(Emitted(chunks)) && Unfinished(Pending(chunks))
  {
    if chunks == [] {
    } else {
      var before, last := chunks[..|chunks| - 1], chunks[|chunks| - 1];
      assert Concat(chunks) + t == Concat(before) + (last + t);
      StreamSplits(before, last + t);
      StreamConserves(before);
      ChunkSplits(Emitted(before), Pending(before), last, t);
    }
  }

  lemma ChunkSplits(e: Bytes, held: Bytes, chunk: Bytes, t: Bytes)
    requires Utf8(e) && Utf8((e + held) + (chunk + t))
    ensures var v := held + chunk; Utf8(e + v[..Cut(v)]) && Unfinished(v[Cut(v)..])
  {
    var v := held + chunk;
    assert (e + held) + (chunk + t) == e + (v + t);
    Utf8Concat(e, v + t);
    CutIsSplit(v, t);
    Utf8Concat(e, v[..Cut(v)]);
  }

  lemma CutIsSplit(v: Bytes, t: Bytes)
    requires Utf8(v + t)
    ensures Utf8(v[..Cut(v)]) && Unfinished(v[Cut(v)..])
  {
    var k := SplitPrefix(v, t);
    CutSplit(v[..k], v[k..]);
    assert v[..k] + v[k..] == v;
  }

  /** For well-formed text the buffer has emitted, at every moment, exactly the longest prefix of
      whole characters received so far. */
  lemma StreamEmitsWholeCharacters(chunks: seq<Bytes>, t: Bytes)
    requires Utf8(Concat(chunks) + t)
    ensures WholePrefix(Concat(chunks), Emitted(chunks))
  {
    StreamSplits(chunks, t);
    StreamConserves(chunks);
    SplitIsLongest(Emitted(chunks), Pending(chunks));
  }

  /** Hence the output so far does not depend on how the bytes were chunked. */
  lemma ChunkingIrrelevant(a: seq<Bytes>, b: seq<Bytes>, t: Bytes)
    requires Concat(a) == Concat(b) && Utf8(Concat(a) + t)
    ensures Emitted(a) == Emitted(b) && Pending(a) == Pending(b)
  {
    StreamEmitsWholeCharacters(a, t);
    StreamEmitsWholeCharacters(b, t);
    WholePrefixUnique(Concat(a), Emitted(a), Emitted(b));
    StreamConserves(a);
    StreamConserves(b);
    assert Pending(a) == Concat(a)[|Emitted(a)|..];
    assert Pending(b) == Concat(b)[|Emitted(b)|..];
  }
}
