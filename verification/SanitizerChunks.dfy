/** When it does not matter where a stream is cut into tokens. */
module SanitizerChunks {
  import opened Sanitizer
  import opened SanitizerRun

  // ---- what a boundary changes ----

  /** Text that starts with one tag and is a proper beginning of another. */
  ghost predicate Doubtful(tags: seq<Tag>, b: string) {
    exists j, k :: 0 <= j < |tags| && 0 <= k < |tags| && Starts(tags[j].text, b) && Starts(b, tags[k].text) && |b| < |tags[k].text|
  }

  lemma StartsLonger(t: string, b: string, x: string)
    ensures Starts(t, b) ==> Starts(t, b + x)
    ensures Starts(t, b + x) && !Starts(t, b) ==> Starts(b, t) && |b| < |t|
  {
    if Starts(t, b) {
      assert (b + x)[..|t|] == b[..|t|];
    }
    if |t| <= |b| {
      assert (b + x)[..|t|] == b[..|t|];
    } else if Starts(t, b + x) {
      assert t[..|b|] == (b + x)[..|t|][..|b|] == b;
    }
  }

  lemma {:induction false} MatchFirst(tags: seq<Tag>, t: nat, b: string)
    requires t <= |tags|
    ensures forall k | t <= k < Match(tags, t, b) :: !Starts(tags[k].text, b)
    decreases |tags| - t
  {
    if t == |tags| || Starts(tags[t].text, b) {
    } else {
      MatchFirst(tags, t + 1, b);
    }
  }

  /** The first tag stays the first when more text comes, unless the text is doubtful. */
  lemma MatchStays(tags: seq<Tag>, b: string, x: string)
    requires Match(tags, 0, b) < |tags| && !Doubtful(tags, b)
    ensures Match(tags, 0, b + x) == Match(tags, 0, b)
  {
    var m := Match(tags, 0, b);
    MatchFirst(tags, 0, b);
    StartsLonger(tags[m].text, b, x);
    forall k | 0 <= k < m ensures !Starts(tags[k].text, b + x) {
      StartsLonger(tags[k].text, b, x);
      assert Starts(b, tags[k].text) && |b| < |tags[k].text| ==> Doubtful(tags, b);
    }
    MatchIs(tags, 0, m, b + x);
  }

  lemma {:induction false} NoMatchIs(tags: seq<Tag>, t: nat, b: string)
    requires t <= |tags| && forall k | t <= k < |tags| :: !Starts(tags[k].text, b)
    ensures Match(tags, t, b) == |tags|
    decreases |tags| - t
  {
    if t == |tags| {
    } else {
      NoMatchIs(tags, t + 1, b);
    }
  }

  lemma {:induction false} NotMaybeIs(tags: seq<Tag>, t: nat, b: string)
    requires t <= |tags| && forall k | t <= k < |tags| :: !Starts(tags[k].text, b) && !Starts(b, tags[k].text)
    ensures !MayBeTag(tags, t, b)
    decreases |tags| - t
  {
    if t == |tags| {
    } else {
      NotMaybeIs(tags, t + 1, b);
    }
  }

  /** Where no tag can come, none comes. */
  lemma ShownStays(tags: seq<Tag>, b: string, x: string, force: bool)
    requires Table(tags) && b != "" && b[0] == '<' && StepTag(tags, b, false) == Take(Visible("<"))
    ensures Match(tags, 0, b + x) == Match(tags, 0, b) && StepTag(tags, b + x, force) == Take(Visible("<"))
  {
    TagHonest(tags, b, false);
    NeverTagExtends(tags, b, x);
    NoMatchIs(tags, 0, b);
    NoMatchIs(tags, 0, b + x);
    NotMaybeIs(tags, 0, b + x);
  }

  lemma TagsDiffer(tags: seq<Tag>, b: string, x: string)
    requires Match(tags, 0, b) < |tags| && Match(tags, 0, b + x) < |tags| && Match(tags, 0, b + x) != Match(tags, 0, b)
    ensures tags[Match(tags, 0, b + x)].text != tags[Match(tags, 0, b)].text
  {
    var m, n := Match(tags, 0, b), Match(tags, 0, b + x);
    MatchFirst(tags, 0, b);
    MatchFirst(tags, 0, b + x);
    StartsLonger(tags[m].text, b, x);
    assert n < m;
  }

  lemma MatchGrows(tags: seq<Tag>, b: string, x: string)
    requires Match(tags, 0, b) < |tags|
    ensures Match(tags, 0, b + x) <= Match(tags, 0, b)
  {
    var m := Match(tags, 0, b);
    StartsLonger(tags[m].text, b, x);
    MatchFirst(tags, 0, b + x);
  }

  /** At a '<' that is decided before a boundary, what comes behind the boundary changes the reading exactly if it
      changes the first tag that matches. */
  lemma BoundaryIff(tags: seq<Tag>, b: string, x: string, force: bool)
    requires Table(tags) && b != "" && b[0] == '<' && StepTag(tags, b, false).Take?
    ensures StepTag(tags, b + x, force) == StepTag(tags, b, false) <==> Match(tags, 0, b + x) == Match(tags, 0, b)
  {
    var m := Match(tags, 0, b);
    if m == |tags| {
      ShownStays(tags, b, x, force);
    } else {
      MatchGrows(tags, b, x);
      if Match(tags, 0, b + x) != m {
        TagsDiffer(tags, b, x);
      }
    }
  }

  // ---- scans of a text and of its continuation ----

  /** No tag found in b becomes another when x is appended. */
  ghost predicate Steady(tags: seq<Tag>, b: string, x: string) {
    forall j | 0 <= j < |b| && Match(tags, 0, b[j..]) < |tags| :: Match(tags, 0, b[j..] + x) == Match(tags, 0, b[j..])
  }

  lemma SteadyTail(tags: seq<Tag>, b: string, x: string, n: nat)
    requires Steady(tags, b, x) && n <= |b|
    ensures Steady(tags, b[n..], x)
  {
    forall j | 0 <= j < |b[n..]| && Match(tags, 0, b[n..][j..]) < |tags|
      ensures Match(tags, 0, b[n..][j..] + x) == Match(tags, 0, b[n..][j..])
    {
      assert b[n..][j..] == b[n + j..];
    }
  }

  /** w is s and then t. */
  ghost predicate Follows(w: Scanned, s: Scanned, t: Scanned) {
    Shown(w.segs) == Shown(s.segs) + Shown(t.segs) && w.mode == t.mode && w.rest == t.rest
  }

  lemma FollowsNothing(t: Scanned, b: string, mode: Mode)
    ensures Follows(t, Scanned([], b, mode), t)
  {
    assert "" + Shown(t.segs) == Shown(t.segs);
  }

  lemma FollowsCons(seg: Seg, w: Scanned, s: Scanned, t: Scanned)
    requires Follows(w, s, t)
    ensures Follows(Cons(seg, w), Cons(seg, s), t)
  {
    ConsText(seg, w.segs);
    ConsText(seg, s.segs);
    assert ShownOf(seg) + (Shown(s.segs) + Shown(t.segs)) == (ShownOf(seg) + Shown(s.segs)) + Shown(t.segs);
  }

  lemma {:induction false} FindStays(b: string, x: string, pat: string)
    requires pat != "" && Find(b, pat) < |b|
    ensures Find(b + x, pat) == Find(b, pat)
  {
    assert (b + x)[1..] == b[1..] + x;
    if Starts(pat, b) {
      StartsLonger(pat, b, x);
    } else {
      assert !Starts(pat, b + x) by {
        if Starts(pat, b + x) {
          FindFits(b, pat);
          StartsLonger(pat, b, x);
        }
      }
      FindStays(b[1..], x, pat);
    }
  }

  lemma FindFits(b: string, pat: string)
    requires pat != "" && Find(b, pat) < |b|
    ensures |pat| <= |b|
  {
  }

  lemma HiddenStays(mode: Mode, b: string, x: string, force: bool)
    requires b != "" && StepHidden(mode, b, false).Take?
    ensures StepHidden(mode, b + x, force) == StepHidden(mode, b, false)
  {
    var n := Find(b, Closer(mode)) + |Closer(mode)|;
    FindStays(b, x, Closer(mode));
    assert (b + x)[..n] == b[..n];
  }

  lemma TagStays(tags: seq<Tag>, b: string, x: string, force: bool)
    requires Table(tags) && b != "" && b[0] == '<' && StepTag(tags, b, false).Take?
    requires Match(tags, 0, b) < |tags| ==> Match(tags, 0, b + x) == Match(tags, 0, b)
    ensures StepTag(tags, b + x, force) == StepTag(tags, b, false)
  {
    if Match(tags, 0, b) == |tags| {
      ShownStays(tags, b, x, force);
    } else {
      BoundaryIff(tags, b, x, force);
    }
  }

  lemma PlainStays(tags: seq<Tag>, b: string, x: string, force: bool)
    requires Table(tags) && b != "" && StepPlain(tags, b, false).Take? && Find(b, "<") < |b|
    requires Match(tags, 0, b) < |tags| ==> Match(tags, 0, b + x) == Match(tags, 0, b)
    ensures StepPlain(tags, b + x, force) == StepPlain(tags, b, false)
  {
    var k := Find(b, "<");
    FindStays(b, x, "<");
    if k == 0 {
      HeadIsOpen(b);
      TagStays(tags, b, x, force);
    } else {
      assert (b + x)[..k] == b[..k];
    }
  }

  /** A step that is taken before the boundary is taken with more text, too, unless it shows all that there is. */
  lemma StepStays(tags: seq<Tag>, mode: Mode, b: string, x: string, force: bool)
    requires Table(tags) && b != "" && StepAt(tags, mode, b, false).Take?
    requires Match(tags, 0, b) < |tags| ==> Match(tags, 0, b + x) == Match(tags, 0, b)
    requires mode == Plain ==> Find(b, "<") < |b|
    ensures StepAt(tags, mode, b + x, force) == StepAt(tags, mode, b, false)
  {
    if mode == Plain {
      PlainStays(tags, b, x, force);
    } else {
      HiddenStays(mode, b, x, force);
    }
  }

  lemma ScanTake(tags: seq<Tag>, mode: Mode, b: string, force: bool, seg: Seg)
    requires Table(tags) && b != "" && StepAt(tags, mode, b, force) == Take(seg)
    ensures Scan(tags, mode, b, force) == Cons(seg, Scan(tags, After(mode, seg), b[|seg.text|..], force))
  {
  }

  lemma {:induction false} NoOpenFind(b: string, x: string)
    requires Find(b, "<") == |b|
    ensures Find(b + x, "<") == |b| + Find(x, "<")
  {
    FindIsFirst(b, "<");
    forall j | 0 <= j < |b| ensures !Starts("<", (b + x)[j..]) {
      assert !Starts("<", b[j..]);
      StartsAt("<", b + x, j, 0);
      assert b[j..][..1] == [b[j]];
    }
    FindSkips(b, x, "<");
  }

  /** Text without '<' at the boundary: it is shown in one piece or in two. */
  lemma TextExtends(tags: seq<Tag>, b: string, x: string, force: bool)
    requires Table(tags) && b != "" && Find(b, "<") == |b|
    ensures Follows(Scan(tags, Plain, b + x, force), Scan(tags, Plain, b, false), Scan(tags, Plain, x, force))
  {
    assert b[..|b|] == b && b[|b|..] == "";
    ScanTake(tags, Plain, b, false, Visible(b));
    ConsText(Visible(b), []);
    assert Shown(Scan(tags, Plain, b, false).segs) == b;
    NoOpenFind(b, x);
    if Find(x, "<") == 0 {
      assert (b + x)[..|b|] == b && (b + x)[|b|..] == x;
      ScanTake(tags, Plain, b + x, force, Visible(b));
      ConsText(Visible(b), Scan(tags, Plain, x, force).segs);
    } else {
      TextGrows(tags, b, x, force);
    }
  }

  lemma ScanShows(tags: seq<Tag>, y: string, j: nat, force: bool, u: string, v: string, r: Scanned)
    requires Table(tags) && 0 < j <= |y| && Find(y, "<") == j && u == y[..j] && v == y[j..] && r == Scan(tags, Plain, v, force)
    ensures var w := Scan(tags, Plain, y, force); Shown(w.segs) == u + Shown(r.segs) && w.mode == r.mode && w.rest == r.rest
  {
    ScanTake(tags, Plain, y, force, Visible(u));
    ConsText(Visible(u), r.segs);
  }

  lemma SplitSum(b: string, x: string, j: nat)
    requires j <= |x|
    ensures (b + x)[..|b| + j] == b + x[..j] && (b + x)[|b| + j..] == x[j..]
  {
  }

  lemma TextGrows(tags: seq<Tag>, b: string, x: string, force: bool)
    requires Table(tags) && b != "" && Find(x, "<") > 0 && Find(b + x, "<") == |b| + Find(x, "<")
    ensures var w, t := Scan(tags, Plain, b + x, force), Scan(tags, Plain, x, force);
            Shown(w.segs) == b + Shown(t.segs) && w.mode == t.mode && w.rest == t.rest
  {
    var j := Find(x, "<");
    var u, v := x[..j], x[j..];
    var r := Scan(tags, Plain, v, force);
    SplitSum(b, x, j);
    ScanShows(tags, b + x, |b| + j, force, b + u, v, r);
    ScanShows(tags, x, j, force, u, v, r);
    Associate(b, u, Shown(r.segs));
  }

  lemma Associate(a: string, b: string, c: string)
    ensures (a + b) + c == a + (b + c)
  {
  }

  /** Scanning a text at once, or its beginning first and then the rest, comes to the same, unless the boundary
      turns one tag into another. */
  lemma {:induction false} ScanExtends(tags: seq<Tag>, mode: Mode, b: string, x: string, force: bool)
    requires Table(tags) && Steady(tags, b, x)
    ensures var s := Scan(tags, mode, b, false);
            Follows(Scan(tags, mode, b + x, force), s, Scan(tags, s.mode, s.rest + x, force))
    decreases |b|
  {
    if b == "" {
      assert "" + x == x;
      FollowsNothing(Scan(tags, mode, x, force), "", mode);
    } else {
      assert b[0..] == b;
      match StepAt(tags, mode, b, false)
      case Stop => FollowsNothing(Scan(tags, mode, b + x, force), b, mode);
      case Take(seg) =>
        if mode == Plain && Find(b, "<") == |b| {
          TextIsAll(tags, b, x, force);
        } else {
          var n := |seg.text|;
          StepStays(tags, mode, b, x, force);
          SteadyTail(tags, b, x, n);
          ScanExtends(tags, After(mode, seg), b[n..], x, force);
          TakeExtends(tags, mode, b, x, force, seg);
        }
    }
  }

  lemma TextIsAll(tags: seq<Tag>, b: string, x: string, force: bool)
    requires Table(tags) && b != "" && Find(b, "<") == |b|
    ensures var s := Scan(tags, Plain, b, false);
            Follows(Scan(tags, Plain, b + x, force), s, Scan(tags, s.mode, s.rest + x, force))
  {
    TextExtends(tags, b, x, force);
    assert b[..|b|] == b && b[|b|..] == "";
    ScanTake(tags, Plain, b, false, Visible(b));
    assert "" + x == x;
  }

  lemma TakeExtends(tags: seq<Tag>, mode: Mode, b: string, x: string, force: bool, seg: Seg)
    requires Table(tags) && b != "" && StepAt(tags, mode, b, false) == Take(seg) && StepAt(tags, mode, b + x, force) == Take(seg)
    requires var s := Scan(tags, After(mode, seg), b[|seg.text|..], false);
             Follows(Scan(tags, After(mode, seg), b[|seg.text|..] + x, force), s, Scan(tags, s.mode, s.rest + x, force))
    ensures var s := Scan(tags, mode, b, false);
            Follows(Scan(tags, mode, b + x, force), s, Scan(tags, s.mode, s.rest + x, force))
  {
    var n := |seg.text|;
    var s, w := Scan(tags, After(mode, seg), b[n..], false), Scan(tags, After(mode, seg), b[n..] + x, force);
    TakeBoth(tags, mode, b, x, force, seg, s, w);
    FollowsCons(seg, w, s, Scan(tags, s.mode, s.rest + x, force));
  }

  lemma TakeBoth(tags: seq<Tag>, mode: Mode, b: string, x: string, force: bool, seg: Seg, s: Scanned, w: Scanned)
    requires Table(tags) && b != "" && StepAt(tags, mode, b, false) == Take(seg) && StepAt(tags, mode, b + x, force) == Take(seg)
    requires s == Scan(tags, After(mode, seg), b[|seg.text|..], false)
    requires w == Scan(tags, After(mode, seg), b[|seg.text|..] + x, force)
    ensures Scan(tags, mode, b, false) == Cons(seg, s) && Scan(tags, mode, b + x, force) == Cons(seg, w)
  {
    var n := |seg.text|;
    assert (b + x)[n..] == b[n..] + x;
    TakeAs(tags, mode, b, false, seg, b[n..], s);
    TakeAs(tags, mode, b + x, force, seg, b[n..] + x, w);
  }

  lemma TakeAs(tags: seq<Tag>, mode: Mode, b: string, force: bool, seg: Seg, rest: string, r: Scanned)
    requires Table(tags) && b != "" && StepAt(tags, mode, b, force) == Take(seg)
    requires rest == b[|seg.text|..] && r == Scan(tags, After(mode, seg), rest, force)
    ensures Scan(tags, mode, b, force) == Cons(seg, r)
  {
  }

  // ---- whole streams ----

  /** The text received before the k-th token. */
  function Before(tokens: seq<string>, k: nat): string
    requires k <= |tokens|
  {
    Concat(tokens[..k])
  }

  /** No token ends inside, or right behind, text that starts with one tag and is a proper beginning of another. */
  ghost predicate CleanCuts(tags: seq<Tag>, tokens: seq<string>) {
    forall k, j | 0 <= k < |tokens| && 0 <= j <= |Before(tokens, k)| :: !Doubtful(tags, Before(tokens, k)[j..])
  }

  lemma CleanIsSteady(tags: seq<Tag>, tokens: seq<string>, k: nat, x: string)
    requires CleanCuts(tags, tokens) && k < |tokens|
    ensures Steady(tags, Before(tokens, k), x)
  {
    var b := Before(tokens, k);
    forall j | 0 <= j < |b| && Match(tags, 0, b[j..]) < |tags| ensures Match(tags, 0, b[j..] + x) == Match(tags, 0, b[j..]) {
      MatchStays(tags, b[j..], x);
    }
  }

  lemma CleanFront(tags: seq<Tag>, tokens: seq<string>)
    requires CleanCuts(tags, tokens) && tokens != []
    ensures CleanCuts(tags, tokens[..|tokens| - 1])
  {
    var front := tokens[..|tokens| - 1];
    forall k, j | 0 <= k < |front| && 0 <= j <= |Before(front, k)| ensures !Doubtful(tags, Before(front, k)[j..]) {
      assert front[..k] == tokens[..k];
      assert !Doubtful(tags, Before(tokens, k)[j..]);
    }
  }

  /** r and the stream's state are those of one scan of the whole text. */
  ghost predicate AsOne(tags: seq<Tag>, st: Stream, input: string, r: Reading)
    requires Table(tags)
  {
    var s := Scan(tags, Plain, input, false);
    st.mode == s.mode && r.rest == s.rest && st.out == Shown(s.segs)
  }

  lemma FeedAsOne(tags: seq<Tag>, st: Stream, input: string, r: Reading, token: string) returns (q: Reading)
    requires Table(tags) && Accounts(tags, st, input, r) && !Trapped(st)
    requires AsOne(tags, st, input, r) && Steady(tags, input, token)
    ensures Accounts(tags, Feed(tags, st, token), input + token, q) && AsOne(tags, Feed(tags, st, token), input + token, q)
  {
    ScanExtends(tags, Plain, input, token, false);
    q := FeedAccounts(tags, st, input, r, token);
  }

  lemma {:induction false} RunAsOne(tags: seq<Tag>, tokens: seq<string>) returns (r: Reading)
    requires Table(tags) && NeverTrapped(tags, tokens) && CleanCuts(tags, tokens)
    ensures Accounts(tags, Run(tags, tokens), Concat(tokens), r) && AsOne(tags, Run(tags, tokens), Concat(tokens), r)
  {
    if tokens == [] {
      r := RunAccounts(tags, tokens);
    } else {
      var front, token := tokens[..|tokens| - 1], tokens[|tokens| - 1];
      CleanFront(tags, tokens);
      CleanIsSteady(tags, tokens, |tokens| - 1, token);
      var q := RunAsOne(tags, front);
      r := FeedAsOne(tags, Run(tags, front), Concat(front), q, token);
    }
  }

  lemma SteadyAtEnd(tags: seq<Tag>, b: string)
    ensures Steady(tags, b, "")
  {
    forall j | 0 <= j < |b| ensures b[j..] + "" == b[j..] { }
  }

  /** Where the cuts are clean, all output of a stream that is never trapped is that of its text in one piece. */
  lemma OutputIsOneScan(tags: seq<Tag>, tokens: seq<string>)
    requires Table(tags) && NeverTrapped(tags, tokens) && CleanCuts(tags, tokens)
    ensures Output(tags, tokens) == Shown(Scan(tags, Plain, Concat(tokens), true).segs)
  {
    var r := RunAsOne(tags, tokens);
    var st, input := Run(tags, tokens), Concat(tokens);
    FinishShown(tags, st, input, r);
    SteadyAtEnd(tags, input);
    ScanExtends(tags, Plain, input, "", true);
    assert input + "" == input && r.rest + "" == r.rest;
  }

  /** So two ways to cut a text, both clean and never trapped, give the same output. */
  lemma CutsDoNotMatter(tags: seq<Tag>, a: seq<string>, b: seq<string>)
    requires Table(tags) && Concat(a) == Concat(b)
    requires NeverTrapped(tags, a) && CleanCuts(tags, a) && NeverTrapped(tags, b) && CleanCuts(tags, b)
    ensures Output(tags, a) == Output(tags, b)
  {
    OutputIsOneScan(tags, a);
    OutputIsOneScan(tags, b);
  }
}
