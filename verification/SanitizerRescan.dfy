/** The streams that the early return in flush makes the sanitizer read twice, and the tags that
    it strips or not depending on where tokens end. */
module SanitizerRescan {
  import opened Sanitizer
  import opened SanitizerRun

  const THINK := "<think>"

  /** Text without a '<'. */
  predicate Calm(t: string) { t != "" && forall c | c in t :: c != '<' }

  /** No "</" in t, not even half of one at its end. */
  predicate NoSlash(t: string) { forall j | 0 <= j < |t| :: t[j] == '<' ==> j + 1 < |t| && t[j + 1] != '/' }

  predicate ThinkFirst(tags: seq<Tag>) {
    Table(tags) && tags != [] && tags[0] == Tag(THINK, OpenThink)
  }

  lemma TagsThinkFirst()
    ensures ThinkFirst(TAGS)
  {
    TagsAreTable();
  }

  lemma NoCloserBefore(t: string, z: string, j: nat)
    requires NoSlash(t) && j < |t|
    ensures !Starts(THINK_END, (t + z)[j..])
  {
    var b := t + z;
    StartsAt(THINK_END, b, j, 0);
    if j + 1 < |b| {
      StartsAt(THINK_END, b, j, 1);
    }
  }

  /** A block runs up to its first closer. */
  lemma ScanBlock(tags: seq<Tag>, t: string, z: string, force: bool)
    requires Table(tags) && NoSlash(t)
    ensures Scan(tags, Think, t + (THINK_END + z), force)
         == Cons(Hidden(t + THINK_END), Scan(tags, Plain, z, force))
  {
    var b := t + (THINK_END + z);
    forall j | 0 <= j < |t| ensures !Starts(THINK_END, b[j..]) { NoCloserBefore(t, THINK_END + z, j); }
    FindSkips(t, THINK_END + z, THINK_END);
    assert (THINK_END + z)[..8] == THINK_END;
    assert b[..|t| + 8] == t + THINK_END && b[|t| + 8..] == z;
    ScanClosed(tags, Think, b, force);
  }

  lemma OpenBlock(tags: seq<Tag>, x: string, force: bool)
    requires Table(tags) && Calm(x)
    ensures Scan(tags, Think, x, force)
         == if force then Cons(Dropped(x), Scanned([], "", Think)) else Scanned([], x, Think)
  {
    assert forall j | 0 <= j < |x| :: x[j] in x;
    assert NoSlash(x);
    forall j | 0 <= j < |x| ensures !Starts(THINK_END, (x + "")[j..]) {
      NoCloserBefore(x, "", j);
    }
    FindSkips(x, "", THINK_END);
    assert x + "" == x;
    ScanOpen(tags, Think, x, force);
  }

  lemma ScanTag(tags: seq<Tag>, z: string, force: bool)
    requires ThinkFirst(tags)
    ensures Scan(tags, Plain, THINK + z, force) == Cons(Stripped(THINK, OpenThink), Scan(tags, Think, z, force))
  {
    var b := THINK + z;
    assert b[..7] == THINK && b[7..] == z && b[..1] == "<";
    assert Find(b, "<") == 0;
    assert Match(tags, 0, b) == 0;
    assert StepAt(tags, Plain, b, force) == StepTag(tags, b, force);
  }

  lemma ScanText(tags: seq<Tag>, t: string, z: string, force: bool)
    requires Table(tags) && Calm(t) && z != "" && z[0] == '<'
    ensures Scan(tags, Plain, t + z, force) == Cons(Visible(t), Scan(tags, Plain, z, force))
  {
    var b := t + z;
    forall j | 0 <= j < |t| ensures !Starts("<", b[j..]) {
      assert t[j] in t;
      StartsAt("<", b, j, 0);
    }
    FindSkips(t, z, "<");
    assert z[..1] == "<";
    assert Find(b, "<") == |t|;
    assert b[..|t|] == t && b[|t|..] == z;
    assert StepAt(tags, Plain, b, force) == StepPlain(tags, b, force);
  }

  /** Text, then a block that stays open. */
  function Tail(b: string, x: string): string { b + (THINK + x) }

  /** Text, a closed block, text, and an open block. */
  function Whole(a: string, h: string, b: string, x: string): string {
    a + (THINK + (h + (THINK_END + Tail(b, x))))
  }

  lemma ScanTail(tags: seq<Tag>, b: string, x: string, force: bool)
    requires ThinkFirst(tags) && Calm(b) && Calm(x)
    ensures var s := Scan(tags, Plain, Tail(b, x), force);
            Shown(s.segs) == b && s.mode == Think && s.rest == if force then "" else x
  {
    ScanText(tags, b, THINK + x, force);
    ScanTag(tags, x, force);
    OpenBlock(tags, x, force);
    var s := Scan(tags, Think, x, force);
    ConsText(Dropped(x), []);
    ConsText(Stripped(THINK, OpenThink), s.segs);
    ConsText(Visible(b), [Stripped(THINK, OpenThink)] + s.segs);
  }

  /** A block that closes, then the tail. */
  lemma ScanInner(tags: seq<Tag>, t: string, b: string, x: string, force: bool)
    requires ThinkFirst(tags) && NoSlash(t) && Calm(b) && Calm(x)
    ensures var s := Scan(tags, Think, t + (THINK_END + Tail(b, x)), force);
            Shown(s.segs) == b && s.mode == Think && s.rest == if force then "" else x
  {
    ScanBlock(tags, t, Tail(b, x), force);
    ScanTail(tags, b, x, force);
    ConsText(Hidden(t + THINK_END), Scan(tags, Plain, Tail(b, x), force).segs);
  }

  lemma ScanFirst(tags: seq<Tag>, a: string, h: string, b: string, x: string)
    requires ThinkFirst(tags) && Calm(a) && NoSlash(h) && Calm(b) && Calm(x)
    ensures var s := Scan(tags, Plain, Whole(a, h, b, x), false);
            Shown(s.segs) == a + b && s.mode == Think && s.rest == x
  {
    var z := h + (THINK_END + Tail(b, x));
    ScanInner(tags, h, b, x, false);
    ScanOpening(tags, a, z, Scan(tags, Think, z, false));
  }

  /** Text, then a tag that opens a block. */
  lemma ScanOpening(tags: seq<Tag>, a: string, z: string, s: Scanned)
    requires ThinkFirst(tags) && Calm(a) && s == Scan(tags, Think, z, false)
    ensures var r := Scan(tags, Plain, a + (THINK + z), false);
            Shown(r.segs) == a + Shown(s.segs) && r.mode == s.mode && r.rest == s.rest
  {
    ScanText(tags, a, THINK + z, false);
    ScanTag(tags, z, false);
    OpeningShows(Scan(tags, Plain, a + (THINK + z), false), s, a);
  }

  lemma OpeningShows(r: Scanned, s: Scanned, a: string)
    requires r == Cons(Visible(a), Cons(Stripped(THINK, OpenThink), s))
    ensures Shown(r.segs) == a + Shown(s.segs) && r.mode == s.mode && r.rest == s.rest
  {
    ConsShows(Stripped(THINK, OpenThink), s);
    ConsShows(Visible(a), Cons(Stripped(THINK, OpenThink), s));
    assert "" + Shown(s.segs) == Shown(s.segs);
  }

  lemma ConsShows(seg: Seg, s: Scanned)
    ensures Shown(Cons(seg, s).segs) == ShownOf(seg) + Shown(s.segs)
  {
    ConsText(seg, s.segs);
  }

  /** Scanning the retained buffer again: the old closer ends the block, and b is shown again. */
  lemma ScanAgain(tags: seq<Tag>, a: string, h: string, b: string, x: string, force: bool)
    requires ThinkFirst(tags) && Calm(a) && NoSlash(h) && Calm(b) && Calm(x)
    ensures var s := Scan(tags, Think, Whole(a, h, b, x), force);
            Shown(s.segs) == b && s.mode == Think && s.rest == if force then "" else x
  {
    var t := a + THINK + h;
    assert Whole(a, h, b, x) == t + (THINK_END + Tail(b, x));
    assert forall j | 0 <= j < |a| :: a[j] in a;
    assert NoSlash(t);
    ScanInner(tags, t, b, x, force);
  }

  lemma WholeAppends(a: string, h: string, b: string, x: string, y: string)
    ensures Whole(a, h, b, x) + y == Whole(a, h, b, x + y)
  {
    assert (b + (THINK + x)) + y == b + (THINK + (x + y));
    var z, w := Tail(b, x), Tail(b, x + y);
    assert (h + (THINK_END + z)) + y == h + (THINK_END + w);
    assert (a + (THINK + (h + (THINK_END + z)))) + y == a + (THINK + ((h + (THINK_END + z)) + y));
  }

  lemma CalmJoin(x: string, y: string)
    requires Calm(x) && Calm(y)
    ensures Calm(x + y)
  {
  }

  /** One token that closes a block and opens another with something in it, then any plain token: the text
      between the blocks comes out three times, though it stands in the input once. */
  lemma TextRepeats(tags: seq<Tag>, a: string, h: string, b: string, x: string, y: string)
    requires ThinkFirst(tags) && Calm(a) && NoSlash(h) && Calm(b) && Calm(x) && Calm(y)
    ensures Run(tags, [Whole(a, h, b, x)]).out == a + b
    ensures Trapped(Run(tags, [Whole(a, h, b, x)]))
    ensures Run(tags, [Whole(a, h, b, x), y]).out == a + b + b
    ensures Output(tags, [Whole(a, h, b, x), y]) == a + b + b + b
  {
    var w := Whole(a, h, b, x);
    FirstToken(tags, a, h, b, x);
    CalmJoin(x, y);
    WholeAppends(a, h, b, x, y);
    ScanAgain(tags, a, h, b, x + y, false);
    ScanAgain(tags, a, h, b, x + y, true);
    assert [w, y][..1] == [w];
  }

  /** After the first token the stream is inside the second block and still keeps the whole token. */
  lemma FirstToken(tags: seq<Tag>, a: string, h: string, b: string, x: string)
    requires ThinkFirst(tags) && Calm(a) && NoSlash(h) && Calm(b) && Calm(x)
    ensures Run(tags, [Whole(a, h, b, x)]) == Stream(Think, Whole(a, h, b, x), a + b)
    ensures Trapped(Run(tags, [Whole(a, h, b, x)]))
  {
    ScanFirst(tags, a, h, b, x);
    RunOne(tags, Whole(a, h, b, x));
    TrappedAgain(tags, a, h, b, x);
  }

  /** In the source's own table: the "b" between the blocks comes out three times. */
  lemma TagsRepeat()
    ensures Table(TAGS)
    ensures Output(TAGS, ["a<think>h</think>b<think>x", "y"]) == "abbb"
  {
    TagsThinkFirst();
    RepeatExample(TAGS);
  }

  lemma RepeatExample(tags: seq<Tag>)
    requires ThinkFirst(tags)
    ensures Output(tags, ["a<think>h</think>b<think>x", "y"]) == "abbb"
  {
    WholeExample();
    assert "a" + "b" + "b" + "b" == "abbb";
    TextRepeats(tags, "a", "h", "b", "x", "y");
  }

  lemma WholeExample()
    ensures Whole("a", "h", "b", "x") == "a<think>h</think>b<think>x"
  {
    assert Tail("b", "x") == "b<think>x";
    assert "h" + (THINK_END + "b<think>x") == "h</think>b<think>x";
  }

  lemma RunOne(tags: seq<Tag>, w: string)
    requires Table(tags)
    ensures var s := Scan(tags, Plain, w, false); Run(tags, [w]) == Stream(s.mode, Retained(w, s), Shown(s.segs))
  {
    assert [w][..0] == [];
    assert Run(tags, []) == Stream(Plain, "", "");
    assert "" + w == w;
    var s := Scan(tags, Plain, w, false);
    assert "" + Shown(s.segs) == Shown(s.segs);
  }

  lemma TrappedAgain(tags: seq<Tag>, a: string, h: string, b: string, x: string)
    requires ThinkFirst(tags) && Calm(a) && NoSlash(h) && Calm(b) && Calm(x)
    ensures Find(Whole(a, h, b, x), THINK_END) < |Whole(a, h, b, x)|
  {
    var w := Whole(a, h, b, x);
    var t := a + THINK + h;
    assert w == t + (THINK_END + Tail(b, x));
    assert w[|t|..][..8] == THINK_END;
    FindIsFirst(w, THINK_END);
  }

  // ---- chunking matters ----

  /** "<|im_start|>" and the role after it are one tag when they come together and not when they are split. */
  lemma SplitTagDiffers(tags: seq<Tag>, role: string, k: nat, m: nat)
    requires Table(tags) && Calm(role)
    requires k < |tags| && m < |tags| && tags[k].kind == Remove && tags[m].kind == Remove
    requires tags[m].text == tags[k].text + role
    requires Match(tags, 0, tags[m].text) == m && Match(tags, 0, tags[k].text) == k
    ensures Output(tags, [tags[m].text]) == "" && Output(tags, [tags[k].text, role]) == role
  {
    ScanWholeTag(tags, m);
    ScanWholeTag(tags, k);
    ScanPlainText(tags, role);
    OutputOne(tags, tags[m].text);
    OutputTwo(tags, tags[k].text, role);
    assert "" + role == role;
  }

  /** The token is consumed entirely, and no block is left open. */
  ghost predicate AllRead(tags: seq<Tag>, t: string)
    requires Table(tags)
  {
    Scan(tags, Plain, t, false).mode == Plain && Scan(tags, Plain, t, false).rest == ""
  }

  lemma OutputOne(tags: seq<Tag>, w: string)
    requires Table(tags) && AllRead(tags, w)
    ensures Output(tags, [w]) == Shown(Scan(tags, Plain, w, false).segs)
  {
    RunOne(tags, w);
    var o := Shown(Scan(tags, Plain, w, false).segs);
    assert o + "" == o;
  }

  lemma OutputTwo(tags: seq<Tag>, w: string, t: string)
    requires Table(tags) && AllRead(tags, w) && AllRead(tags, t)
    ensures Output(tags, [w, t]) == Shown(Scan(tags, Plain, w, false).segs) + Shown(Scan(tags, Plain, t, false).segs)
  {
    RunOne(tags, w);
    RunMore(tags, [w], t);
    OutputIsRun(tags, [w] + [t]);
    assert [w] + [t] == [w, t];
  }

  lemma RunMore(tags: seq<Tag>, tokens: seq<string>, t: string)
    requires Table(tags) && Run(tags, tokens).mode == Plain && Run(tags, tokens).buffer == ""
    ensures var s := Scan(tags, Plain, t, false);
            Run(tags, tokens + [t]) == Stream(s.mode, Retained(t, s), Run(tags, tokens).out + Shown(s.segs))
  {
    assert (tokens + [t])[..|tokens|] == tokens;
    assert "" + t == t;
  }

  lemma OutputIsRun(tags: seq<Tag>, tokens: seq<string>)
    requires Table(tags) && Run(tags, tokens).mode == Plain && Run(tags, tokens).buffer == ""
    ensures Output(tags, tokens) == Run(tags, tokens).out
  {
    var out := Run(tags, tokens).out;
    assert Scan(tags, Plain, "", true) == Scanned([], "", Plain);
    assert out + "" == out;
  }

  lemma ScanWholeTag(tags: seq<Tag>, k: nat)
    requires Table(tags) && k < |tags| && tags[k].kind == Remove && Match(tags, 0, tags[k].text) == k
    ensures var s := Scan(tags, Plain, tags[k].text, false);
            Shown(s.segs) == "" && s.mode == Plain && s.rest == ""
  {
    var b := tags[k].text;
    assert TagOk(tags[k]);
    assert b[..1] == "<" && b[|b|..] == "";
    assert Find(b, "<") == 0;
    assert StepAt(tags, Plain, b, false) == Take(Stripped(b, Remove));
    assert Scan(tags, Plain, b, false) == Cons(Stripped(b, Remove), Scanned([], "", Plain));
    ConsText(Stripped(b, Remove), []);
  }

  lemma ScanPlainText(tags: seq<Tag>, t: string)
    requires Table(tags) && Calm(t)
    ensures var s := Scan(tags, Plain, t, false);
            Shown(s.segs) == t && s.mode == Plain && s.rest == ""
  {
    forall j | 0 <= j < |t| ensures !Starts("<", (t + "")[j..]) {
      assert t[j] in t;
      StartsAt("<", t + "", j, 0);
    }
    FindSkips(t, "", "<");
    assert t + "" == t && t[..|t|] == t && t[|t|..] == "";
    assert StepAt(tags, Plain, t, false) == Take(Visible(t));
    assert Scan(tags, Plain, t, false) == Cons(Visible(t), Scanned([], "", Plain));
    ConsText(Visible(t), []);
  }

  lemma DiffersAt(pat: string, b: string, j: nat)
    requires j < |pat| && j < |b| && pat[j] != b[j]
    ensures !Starts(pat, b)
  {
    StartsAt(pat, b, 0, j);
    assert b[0..] == b;
  }

  lemma ImStartMatches()
    ensures Match(TAGS, 0, TAGS[5].text) == 5
  {
    var front := TAGS[5].text;
    forall k | 0 <= k < 2 ensures !Starts(TAGS[k].text, front) { DiffersAt(TAGS[k].text, front, if k == 0 then 1 else 2); }
    assert |TAGS[2].text| > 12 && |TAGS[3].text| > 12 && |TAGS[4].text| > 12;
    assert front[..|front|] == front;
    MatchIs(TAGS, 0, 5, front);
  }

  lemma ImStartRoleMatches()
    ensures Match(TAGS, 0, TAGS[2].text) == 2
  {
    var whole := TAGS[2].text;
    forall k | 0 <= k < 2 ensures !Starts(TAGS[k].text, whole) { DiffersAt(TAGS[k].text, whole, if k == 0 then 1 else 2); }
    assert whole[..|whole|] == whole;
    MatchIs(TAGS, 0, 2, whole);
  }

  /** The source's own table: "<|im_start|>assistant" is stripped, "<|im_start|>" then "assistant" is not. */
  lemma ImStartSplit()
    ensures Table(TAGS)
    ensures Output(TAGS, ["<|im_start|>assistant"]) == "" && Output(TAGS, ["<|im_start|>", "assistant"]) == "assistant"
  {
    TagsAreTable();
    ImStartMatches();
    ImStartRoleMatches();
    assert TAGS[2].text == TAGS[5].text + "assistant";
    SplitTagDiffers(TAGS, "assistant", 5, 2);
  }
}
