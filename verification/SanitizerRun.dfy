/** Whole streams through the sanitizer: when is the output the visible text of a reading of the input? */
module SanitizerRun {
  import opened Sanitizer

  datatype Stream = Stream(mode: Mode, buffer: string, out: string)

  /** on_token, as a function of the state. */
  function Feed(tags: seq<Tag>, st: Stream, token: string): Stream
    requires Table(tags)
  {
    var b := st.buffer + token;
    var s := Scan(tags, st.mode, b, false);
    Stream(s.mode, Retained(b, s), st.out + Shown(s.segs))
  }

  function Run(tags: seq<Tag>, tokens: seq<string>): Stream
    requires Table(tags)
  {
    if tokens == [] then Stream(Plain, "", "")
    else Feed(tags, Run(tags, tokens[..|tokens| - 1]), tokens[|tokens| - 1])
  }

  /** All output of a stream, with what finish adds. */
  function Output(tags: seq<Tag>, tokens: seq<string>): string
    requires Table(tags)
  {
    var st := Run(tags, tokens);
    st.out + Shown(Scan(tags, st.mode, st.buffer, true).segs)
  }

  function Concat(tokens: seq<string>): string {
    if tokens == [] then "" else Concat(tokens[..|tokens| - 1]) + tokens[|tokens| - 1]
  }

  /** Inside a block whose closer is already in the retained buffer. */
  predicate Trapped(st: Stream) {
    st.mode != Plain && Find(st.buffer, Closer(st.mode)) < |st.buffer|
  }

  // ---- stale text in front of the buffer ----

  /** Consumed text that the early return left in the buffer ends with the tag that opened the block. */
  predicate Junk(junk: string) { junk != "" ==> junk[|junk| - 1] == '>' }

  lemma CloserShape(mode: Mode)
    ensures forall j | 0 <= j < |Closer(mode)| - 1 :: Closer(mode)[j] != '>'
  {
  }

  /** No closer starts in the stale text unless it lies in the retained buffer. */
  lemma NoStraddle(junk: string, rest: string, x: string, mode: Mode, j: nat)
    requires Junk(junk) && j < |junk|
    ensures Starts(Closer(mode), (junk + rest + x)[j..]) ==> Starts(Closer(mode), (junk + rest)[j..])
  {
    var c := Closer(mode);
    var b := junk + rest + x;
    var i := |junk| - 1 - j;
    CloserShape(mode);
    if i < |c| {
      StartsAt(c, b, j, i);
    }
    SamePart(junk, rest, x, j, |c|);
  }

  lemma SamePart(junk: string, rest: string, x: string, j: nat, n: nat)
    requires j < |junk|
    ensures j + n <= |junk| ==> (junk + rest)[j..][..n] == (junk + rest + x)[j..][..n]
  {
  }

  lemma {:induction false} FindSkips(junk: string, x: string, c: string)
    requires c != "" && forall j | 0 <= j < |junk| :: !Starts(c, (junk + x)[j..])
    ensures Find(junk + x, c) == |junk| + Find(x, c)
  {
    if junk == "" {
      assert junk + x == x;
    } else {
      assert (junk + x)[0..] == junk + x;
      assert (junk + x)[1..] == junk[1..] + x;
      forall j | 0 <= j < |junk[1..]| ensures !Starts(c, (junk[1..] + x)[j..]) {
        assert (junk[1..] + x)[j..] == (junk + x)[j + 1..];
      }
      FindSkips(junk[1..], x, c);
    }
  }

  /** Not trapped: the stale text does not change where the block is seen to end. */
  lemma JunkIsSkipped(junk: string, rest: string, x: string, mode: Mode)
    requires Junk(junk) && Find(junk + rest, Closer(mode)) == |junk + rest|
    ensures Find(junk + rest + x, Closer(mode)) == |junk| + Find(rest + x, Closer(mode))
  {
    var c := Closer(mode);
    FindIsFirst(junk + rest, c);
    assert junk + rest + x == junk + (rest + x);
    forall j | 0 <= j < |junk| ensures !Starts(c, (junk + (rest + x))[j..]) {
      NoStraddle(junk, rest, x, mode, j);
      assert !Starts(c, (junk + rest)[j..]);
    }
    FindSkips(junk, rest + x, c);
  }

  /** The end of the open block is found where the unread text has it, whatever comes next, exactly
      when no closer lies in the retained buffer. */
  lemma BlockEndIffNotTrapped(junk: string, rest: string, mode: Mode, out: string)
    requires Junk(junk) && mode != Plain && Find(rest, Closer(mode)) == |rest|
    ensures (forall x: string :: Find(junk + rest + x, Closer(mode)) == |junk| + Find(rest + x, Closer(mode)))
       <==> !Trapped(Stream(mode, junk + rest, out))
  {
    if Trapped(Stream(mode, junk + rest, out)) {
      assert junk + rest + "" == junk + rest && rest + "" == rest;
      assert Find(junk + rest + "", Closer(mode)) != |junk| + Find(rest + "", Closer(mode));
    } else {
      forall x: string ensures Find(junk + rest + x, Closer(mode)) == |junk| + Find(rest + x, Closer(mode)) {
        JunkIsSkipped(junk, rest, x, mode);
      }
    }
  }

  // ---- one token ----

  /** t is what s is without the stale text in front. */
  ghost predicate Skips(s: Scanned, t: Scanned, junk: string) {
    && Shown(s.segs) == Shown(t.segs) && s.mode == t.mode
    && s.rest == (if t.segs == [] then junk + t.rest else t.rest)
  }

  lemma SkipsCons(a: Seg, b: Seg, s: Scanned, junk: string)
    requires ShownOf(a) == ShownOf(b)
    ensures Skips(Cons(a, s), Cons(b, s), junk)
  {
    ConsText(a, s.segs);
    ConsText(b, s.segs);
  }

  /** A block that ends: both scans go on with the same text. */
  lemma ScanClosed(tags: seq<Tag>, mode: Mode, b: string, force: bool)
    requires Table(tags) && mode != Plain && Find(b, Closer(mode)) < |b|
    ensures var n := Find(b, Closer(mode)) + |Closer(mode)|;
            Scan(tags, mode, b, force) == Cons(Hidden(b[..n]), Scan(tags, Plain, b[n..], force))
  {
    assert StepAt(tags, mode, b, force) == StepHidden(mode, b, force);
  }

  lemma ScanOpen(tags: seq<Tag>, mode: Mode, b: string, force: bool)
    requires Table(tags) && mode != Plain && Find(b, Closer(mode)) == |b| && b != ""
    ensures Scan(tags, mode, b, force)
         == if force then Cons(Dropped(b), Scanned([], "", mode)) else Scanned([], b, mode)
  {
    assert StepAt(tags, mode, b, force) == StepHidden(mode, b, force);
    assert b[|b|..] == "";
  }

  lemma ClosedAs(tags: seq<Tag>, mode: Mode, b: string, force: bool, n: nat, rest: string, r: Scanned)
    requires Table(tags) && mode != Plain && Find(b, Closer(mode)) < |b| && n == Find(b, Closer(mode)) + |Closer(mode)|
    requires rest == b[n..] && r == Scan(tags, Plain, rest, force)
    ensures Scan(tags, mode, b, force) == Cons(Hidden(b[..n]), r)
  {
    ScanClosed(tags, mode, b, force);
  }

  lemma SkipClosed(tags: seq<Tag>, junk: string, y: string, x: string, mode: Mode, force: bool)
    requires Table(tags) && mode != Plain && Find(y, Closer(mode)) < |y| && Find(x, Closer(mode)) < |x|
    requires y[Find(y, Closer(mode)) + |Closer(mode)|..] == x[Find(x, Closer(mode)) + |Closer(mode)|..]
    ensures Skips(Scan(tags, mode, y, force), Scan(tags, mode, x, force), junk)
  {
    var n, m := Find(x, Closer(mode)) + |Closer(mode)|, Find(y, Closer(mode)) + |Closer(mode)|;
    var rest := x[n..];
    var r := Scan(tags, Plain, rest, force);
    ClosedAs(tags, mode, y, force, m, rest, r);
    ClosedAs(tags, mode, x, force, n, rest, r);
    SkipsCons(Hidden(y[..m]), Hidden(x[..n]), r, junk);
  }

  lemma SkipOpen(tags: seq<Tag>, junk: string, y: string, x: string, mode: Mode, force: bool)
    requires Table(tags) && mode != Plain && x != "" && y == junk + x
    requires Find(y, Closer(mode)) == |y| && Find(x, Closer(mode)) == |x|
    ensures Skips(Scan(tags, mode, y, force), Scan(tags, mode, x, force), junk)
  {
    ScanOpen(tags, mode, y, force);
    ScanOpen(tags, mode, x, force);
    SkipsCons(Dropped(y), Dropped(x), Scanned([], "", mode), junk);
  }

  /** The scans of the buffer with and without the stale text agree. */
  lemma ScanSkipsJunk(tags: seq<Tag>, junk: string, y: string, x: string, mode: Mode, force: bool)
    requires Table(tags) && mode != Plain && x != "" && y == junk + x
    requires Find(y, Closer(mode)) == |junk| + Find(x, Closer(mode))
    ensures Skips(Scan(tags, mode, y, force), Scan(tags, mode, x, force), junk)
  {
    var k := Find(x, Closer(mode));
    if k < |x| {
      DropSum(junk, x, k + |Closer(mode)|);
      SkipClosed(tags, junk, y, x, mode, force);
    } else {
      SkipOpen(tags, junk, y, x, mode, force);
    }
  }

  lemma DropSum(a: string, b: string, n: nat)
    requires n <= |b|
    ensures (a + b)[|a| + n..] == b[n..]
  {
  }

  lemma StepIntoBlock(tags: seq<Tag>, mode: Mode, b: string, seg: Seg)
    requires Table(tags) && b != "" && StepAt(tags, mode, b, false) == Take(seg) && After(mode, seg) != Plain
    ensures Junk(seg.text)
  {
    if mode == Plain && Find(b, "<") == 0 {
      HeadIsOpen(b);
      var t := Match(tags, 0, b);
      assert t < |tags| ==> TagOk(tags[t]);
    }
  }

  lemma JunkSum(a: string, b: string)
    requires Junk(b) && (b == "" ==> Junk(a))
    ensures Junk(a + b)
  {
  }

  /** A scan that gets into a block stops right behind the tag that opened it. */
  lemma {:induction false} ScanIntoBlock(tags: seq<Tag>, mode: Mode, b: string)
    requires Table(tags)
    ensures var s := Scan(tags, mode, b, false); s.mode != Plain && s.segs != [] ==> Text(s.segs) != "" && Junk(Text(s.segs))
    decreases |b|
  {
    if b != "" && StepAt(tags, mode, b, false).Take? {
      var seg := StepAt(tags, mode, b, false).seg;
      var s := Scan(tags, After(mode, seg), b[|seg.text|..], false);
      ScanIntoBlock(tags, After(mode, seg), b[|seg.text|..]);
      ConsText(seg, s.segs);
      if s.segs == [] {
        ScanEmpty(tags, After(mode, seg), b[|seg.text|..]);
        assert seg.text + "" == seg.text;
        if s.mode != Plain {
          StepIntoBlock(tags, mode, b, seg);
        }
      } else if s.mode != Plain {
        JunkSum(seg.text, Text(s.segs));
      }
    }
  }

  lemma ScanEmpty(tags: seq<Tag>, mode: Mode, b: string)
    requires Table(tags)
    ensures Scan(tags, mode, b, false).segs == [] ==> Scan(tags, mode, b, false).mode == mode
  {
  }

  // ---- runs ----

  /** How far a stream has been read: segs are consumed, rest is not, and stale text may precede rest
      in the buffer. */
  datatype Reading = Reading(segs: seq<Seg>, junk: string, rest: string)

  ghost predicate Accounts(tags: seq<Tag>, st: Stream, input: string, r: Reading) {
    && Reads(tags, Plain, input, Scanned(r.segs, r.rest, st.mode))
    && Settled(tags, r.segs, r.rest)
    && st.out == Shown(r.segs)
    && st.buffer == r.junk + r.rest && Junk(r.junk)
    && (r.junk != "" ==> st.mode != Plain && r.rest != "")
  }

  /** Joining two readings. */
  lemma JoinReads(tags: seq<Tag>, input: string, s: Scanned, token: string, t: Scanned)
    requires Reads(tags, Plain, input, s) && Settled(tags, s.segs, s.rest) && Reads(tags, s.mode, s.rest + token, t)
    ensures Reads(tags, Plain, input + token, Scanned(s.segs + t.segs, t.rest, t.mode))
    ensures Settled(tags, t.segs, t.rest) ==> Settled(tags, s.segs + t.segs, t.rest)
  {
    SettledJoin(tags, s.segs, s.rest, token, t.segs, t.rest);
    ParsesAppend(tags, Plain, s.segs, s.mode, t.segs, t.mode);
    AppendText(s.segs, t.segs);
    Reassociate(Text(s.segs), s.rest, token, Text(t.segs), t.rest);
  }

  lemma FeedShown(tags: seq<Tag>, st: Stream, input: string, r: Reading, token: string)
    requires Table(tags) && Accounts(tags, st, input, r) && !Trapped(st)
    ensures var s := Scan(tags, st.mode, st.buffer + token, false);
            Skips(s, Scan(tags, st.mode, r.rest + token, false), r.junk)
  {
    assert st.buffer + token == r.junk + (r.rest + token);
    if r.junk == "" {
      assert r.junk + (r.rest + token) == r.rest + token;
      assert forall s: Scanned :: r.junk + s.rest == s.rest;
    } else {
      JunkIsSkipped(r.junk, r.rest, token, st.mode);
      ScanSkipsJunk(tags, r.junk, st.buffer + token, r.rest + token, st.mode, false);
    }
  }

  function NextJunk(r: Reading, t: Scanned): string {
    if t.mode != Plain && t.rest != "" then r.junk + Text(t.segs) else ""
  }

  lemma FeedJunk(tags: seq<Tag>, mode: Mode, r: Reading, b: string)
    requires Table(tags) && Junk(r.junk)
    ensures Junk(NextJunk(r, Scan(tags, mode, b, false)))
  {
    var t := Scan(tags, mode, b, false);
    ScanIntoBlock(tags, mode, b);
    if t.mode != Plain && t.rest != "" {
      if t.segs == [] {
        assert r.junk + "" == r.junk;
      } else {
        JunkSum(r.junk, Text(t.segs));
      }
    }
  }

  lemma FeedBuffer(buffer: string, token: string, r: Reading, s: Scanned, t: Scanned)
    requires Skips(s, t, r.junk) && buffer == r.junk + r.rest && r.rest + token == Text(t.segs) + t.rest
    requires r.junk != "" ==> r.rest != ""
    requires t.segs == [] && t.mode == Plain ==> r.junk == ""
    ensures Retained(buffer + token, s) == NextJunk(r, t) + t.rest
  {
    Reassociate(r.junk, r.rest, token, Text(t.segs), t.rest);
    if t.segs == [] {
      assert Text(t.segs) + t.rest == t.rest;
      assert t.rest == "" ==> r.junk == "";
    }
  }

  /** A token that arrives at a stream that is not trapped is accounted for. */
  lemma FeedAccounts(tags: seq<Tag>, st: Stream, input: string, r: Reading, token: string) returns (q: Reading)
    requires Table(tags) && Accounts(tags, st, input, r) && !Trapped(st)
    ensures Accounts(tags, Feed(tags, st, token), input + token, q)
    ensures var t := Scan(tags, st.mode, r.rest + token, false);
            q.rest == t.rest && Feed(tags, st, token).mode == t.mode && Feed(tags, st, token).out == st.out + Shown(t.segs)
  {
    var t := Scan(tags, st.mode, r.rest + token, false);
    var s := Scan(tags, st.mode, st.buffer + token, false);
    ScanReads(tags, st.mode, r.rest + token, false);
    JoinReads(tags, input, Scanned(r.segs, r.rest, st.mode), token, t);
    FeedShown(tags, st, input, r, token);
    FeedJunk(tags, st.mode, r, r.rest + token);
    ScanEmpty(tags, st.mode, r.rest + token);
    FeedBuffer(st.buffer, token, r, s, t);
    AppendText(r.segs, t.segs);
    q := Reading(r.segs + t.segs, NextJunk(r, t), t.rest);
  }

  /** No prefix of the stream leaves the sanitizer inside a block with a closer in its buffer. */
  ghost predicate NeverTrapped(tags: seq<Tag>, tokens: seq<string>)
    requires Table(tags)
  {
    !Trapped(Run(tags, tokens)) && (tokens != [] ==> NeverTrapped(tags, tokens[..|tokens| - 1]))
  }

  lemma {:induction false} RunAccounts(tags: seq<Tag>, tokens: seq<string>) returns (r: Reading)
    requires Table(tags) && NeverTrapped(tags, tokens)
    ensures Accounts(tags, Run(tags, tokens), Concat(tokens), r)
  {
    if tokens == [] {
      EmptyUnread(tags, Plain);
      r := Reading([], "", "");
    } else {
      var q := RunAccounts(tags, tokens[..|tokens| - 1]);
      r := FeedAccounts(tags, Run(tags, tokens[..|tokens| - 1]), Concat(tokens[..|tokens| - 1]), q, tokens[|tokens| - 1]);
    }
  }

  lemma FinishShown(tags: seq<Tag>, st: Stream, input: string, r: Reading)
    requires Table(tags) && Accounts(tags, st, input, r) && !Trapped(st)
    ensures Shown(Scan(tags, st.mode, st.buffer, true).segs) == Shown(Scan(tags, st.mode, r.rest, true).segs)
  {
    if r.junk == "" {
      assert r.junk + r.rest == r.rest;
    } else {
      ScanSkipsJunk(tags, r.junk, st.buffer, r.rest, st.mode, true);
    }
  }

  /** Every stream, cut into tokens in any way: unless it is ever trapped, all of its output is the visible
      text of a reading of the whole input, in which nothing is lost, repeated or reordered, no '<' is shown
      where a tag stands, and no block but the last is dropped unclosed. */
  lemma OutputIsAReading(tags: seq<Tag>, tokens: seq<string>) returns (segs: seq<Seg>, last: Mode)
    requires Table(tags) && NeverTrapped(tags, tokens)
    ensures Text(segs) == Concat(tokens) && Parses(tags, Plain, segs, last)
    ensures forall i | 0 <= i < |segs| && segs[i] == Visible("<") :: NoTag(tags, Text(segs[i..]))
    ensures forall i | 0 <= i < |segs| - 1 :: !segs[i].Dropped?
    ensures Output(tags, tokens) == Shown(segs)
  {
    var st := Run(tags, tokens);
    var r := RunAccounts(tags, tokens);
    var t := Scan(tags, st.mode, r.rest, true);
    ScanReads(tags, st.mode, r.rest, true);
    assert r.rest + "" == r.rest && Concat(tokens) + "" == Concat(tokens);
    JoinReads(tags, Concat(tokens), Scanned(r.segs, r.rest, st.mode), "", t);
    FinishShown(tags, st, Concat(tokens), r);
    AppendText(r.segs, t.segs);
    segs, last := r.segs + t.segs, t.mode;
    assert Text(segs) + "" == Text(segs);
    HonestThroughout(tags, segs);
  }

  lemma HonestThroughout(tags: seq<Tag>, segs: seq<Seg>)
    requires Honest(tags, segs, "")
    ensures forall i | 0 <= i < |segs| && segs[i] == Visible("<") :: NoTag(tags, Text(segs[i..]))
    ensures forall i | 0 <= i < |segs| - 1 :: !segs[i].Dropped?
  {
    forall i | 0 <= i < |segs|
      ensures segs[i] == Visible("<") ==> NoTag(tags, Text(segs[i..]))
      ensures segs[i].Dropped? ==> i == |segs| - 1
    {
      HonestAt(tags, segs, i);
    }
  }
}
