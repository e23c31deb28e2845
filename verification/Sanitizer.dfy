/** StreamingSanitizer: strips control tags and hidden blocks from a token stream. */
module Sanitizer {

  /** Outside any block, inside a think block, or inside an analysis channel. */
  datatype Mode = Plain | Think | Channel

  datatype TagKind = OpenThink | OpenChannel | Remove
  datatype Tag = Tag(text: string, kind: TagKind)

  const THINK_END := "</think>"
  const CHANNEL_END := "<|end|>"

  const TAGS: seq<Tag> := [
    Tag("<think>", OpenThink),
    Tag("<|channel|>analysis<|message|>", OpenChannel),
    Tag("<|im_start|>assistant", Remove),
    Tag("<|im_start|>system", Remove),
    Tag("<|im_start|>user", Remove),
    Tag("<|im_start|>", Remove),
    Tag("<|channel|>final<|message|>", Remove),
    Tag("<|channel|>commentary<|message|>", Remove),
    Tag("<|start|>assistant", Remove),
    Tag("<|start|>system", Remove),
    Tag("<|start|>user", Remove),
    Tag("<|start|>", Remove),
    Tag("<|channel|>analysis", Remove),
    Tag("<|channel|>final", Remove),
    Tag("<|channel|>commentary", Remove),
    Tag("<|channel|>", Remove),
    Tag("<|message|>", Remove),
    Tag("<|end|>", Remove)
  ]

  const LONGEST_TAG := 32

  predicate TagOk(t: Tag) {
    0 < |t.text| <= LONGEST_TAG && t.text[0] == '<' && (t.kind != Remove ==> t.text[|t.text| - 1] == '>')
  }

  /** What is used of the tag table: every tag starts with '<' and has a bounded length, and a tag
      that opens a block ends with '>'. */
  predicate Table(tags: seq<Tag>) {
    forall k :: 0 <= k < |tags| ==> TagOk(tags[k])
  }

  lemma TagsAreTable()
    ensures Table(TAGS)
    ensures exists k :: 0 <= k < |TAGS| && |TAGS[k].text| == LONGEST_TAG
  {
    assert |TAGS[7].text| == LONGEST_TAG;
  }

  predicate Starts(pat: string, b: string) { |pat| <= |b| && b[..|pat|] == pat }

  lemma StartsAt(pat: string, b: string, j: nat, i: nat)
    requires j + i < |b| && i < |pat|
    ensures Starts(pat, b[j..]) ==> b[j + i] == pat[i]
  {
    var t := b[j..];
    assert t[i] == b[j + i];
    assert |pat| <= |t| ==> t[..|pat|][i] == t[i];
  }

  /** Index of the first occurrence of pat, or |b|. */
  function Find(b: string, pat: string): (k: nat)
    requires pat != ""
    ensures k <= |b| && (k < |b| ==> k + |pat| <= |b|)
  {
    if b == "" || Starts(pat, b) then 0 else 1 + Find(b[1..], pat)
  }

  /** k is the place of the first occurrence. */
  ghost predicate First(b: string, pat: string, k: nat) {
    k < |b| && Starts(pat, b[k..]) && forall j | 0 <= j < k :: !Starts(pat, b[j..])
  }

  lemma {:induction false} FindIsFirst(b: string, pat: string)
    requires pat != ""
    ensures Find(b, pat) < |b| ==> First(b, pat, Find(b, pat))
    ensures Find(b, pat) == |b| ==> forall j | 0 <= j < |b| :: !Starts(pat, b[j..])
  {
    assert b[0..] == b;
    if b != "" && !Starts(pat, b) {
      FindIsFirst(b[1..], pat);
      forall j | 0 < j < |b| ensures b[j..] == b[1..][j - 1..] { }
    }
  }

  /** Index of the first tag, in table order from t on, that b starts with, or |tags|. */
  function Match(tags: seq<Tag>, t: nat, b: string): (r: nat)
    requires t <= |tags|
    ensures t <= r <= |tags| && (r < |tags| ==> Starts(tags[r].text, b))
    decreases |tags| - t
  {
    if t == |tags| || Starts(tags[t].text, b) then t else Match(tags, t + 1, b)
  }

  lemma {:induction false} NoMatch(tags: seq<Tag>, t: nat, b: string)
    requires t <= |tags| && Match(tags, t, b) == |tags|
    ensures forall k | t <= k < |tags| :: !Starts(tags[k].text, b)
    decreases |tags| - t
  {
    if t == |tags| {
    } else {
      NoMatch(tags, t + 1, b);
    }
  }

  lemma {:induction false} MatchIs(tags: seq<Tag>, t: nat, m: nat, b: string)
    requires t <= m < |tags| && Starts(tags[m].text, b) && forall k | t <= k < m :: !Starts(tags[k].text, b)
    ensures Match(tags, t, b) == m
    decreases m - t
  {
    if t == m {
    } else {
      MatchIs(tags, t + 1, m, b);
    }
  }

  /** b could still become one of the tags from t on, or already starts with one. */
  predicate MayBeTag(tags: seq<Tag>, t: nat, b: string)
    requires t <= |tags|
    decreases |tags| - t
  {
    t < |tags| && (Starts(b, tags[t].text) || Starts(tags[t].text, b) || MayBeTag(tags, t + 1, b))
  }

  /** A visible run of text, a tag, a hidden block up to and including its closer, or the open block
      that finish drops. */
  datatype Seg =
    | Visible(text: string)
    | Stripped(text: string, kind: TagKind)
    | Hidden(text: string)
    | Dropped(text: string)

  function Enter(kind: TagKind): Mode {
    match kind
    case OpenThink => Think
    case OpenChannel => Channel
    case Remove => Plain
  }

  function Closer(mode: Mode): (c: string)
    ensures c != ""
  {
    if mode == Think then THINK_END else CHANNEL_END
  }

  /** The mode after a segment. */
  function After(mode: Mode, seg: Seg): Mode {
    match seg
    case Visible(_) => Plain
    case Stripped(_, kind) => Enter(kind)
    case Hidden(_) => Plain
    case Dropped(_) => mode
  }

  // ---- one step of flush ----

  /** Take a segment off the front of the buffer, or stop and hold the buffer back. */
  datatype Step = Take(seg: Seg) | Stop

  function StepHidden(mode: Mode, b: string, force: bool): (r: Step)
    requires b != ""
    ensures r.Take? ==> r.seg.text != "" && Starts(r.seg.text, b)
  {
    var k := Find(b, Closer(mode));
    if k < |b| then Take(Hidden(b[..k + |Closer(mode)|])) else if force then Take(Dropped(b)) else Stop
  }

  function StepTag(tags: seq<Tag>, b: string, force: bool): (r: Step)
    requires b != "" && b[0] == '<' && Table(tags)
    ensures r.Take? ==> r.seg.text != "" && Starts(r.seg.text, b)
  {
    var t := Match(tags, 0, b);
    if t < |tags| then Take(Stripped(tags[t].text, tags[t].kind))
    else if MayBeTag(tags, 0, b) && !force then Stop
    else Take(Visible("<"))
  }

  function StepPlain(tags: seq<Tag>, b: string, force: bool): (r: Step)
    requires b != "" && Table(tags)
    ensures r.Take? ==> r.seg.text != "" && Starts(r.seg.text, b)
  {
    var k := Find(b, "<");
    if k > 0 then Take(Visible(b[..k])) else StepTag(tags, b, force)
  }

  function StepAt(tags: seq<Tag>, mode: Mode, b: string, force: bool): (r: Step)
    requires b != "" && Table(tags)
    ensures r.Take? ==> r.seg.text != "" && Starts(r.seg.text, b)
  {
    if mode != Plain then StepHidden(mode, b, force) else StepPlain(tags, b, force)
  }

  /** b is what the sanitizer may hold back: nothing, or a proper beginning of a tag. */
  ghost predicate HeldBack(tags: seq<Tag>, b: string) {
    b == "" || exists k :: 0 <= k < |tags| && Starts(b, tags[k].text) && |b| < |tags[k].text|
  }

  lemma {:induction false} MayBeTagWitness(tags: seq<Tag>, t: nat, b: string) returns (k: nat)
    requires t <= |tags| && MayBeTag(tags, t, b)
    ensures t <= k < |tags| && (Starts(b, tags[k].text) || Starts(tags[k].text, b))
    decreases |tags| - t
  {
    if Starts(b, tags[t].text) || Starts(tags[t].text, b) {
      k := t;
    } else {
      k := MayBeTagWitness(tags, t + 1, b);
    }
  }

  lemma UndecidedIsHeldBack(tags: seq<Tag>, b: string)
    requires Match(tags, 0, b) == |tags| && MayBeTag(tags, 0, b)
    ensures HeldBack(tags, b)
  {
    var k := MayBeTagWitness(tags, 0, b);
    NoMatch(tags, 0, b);
    assert !Starts(tags[k].text, b);
    assert Starts(b, tags[k].text) && |b| < |tags[k].text|;
  }

  /** What a scan may leave unread in a mode. */
  ghost predicate Unread(tags: seq<Tag>, mode: Mode, b: string) {
    if mode == Plain then HeldBack(tags, b) else Find(b, Closer(mode)) == |b|
  }

  lemma StopHoldsLittle(tags: seq<Tag>, mode: Mode, b: string, force: bool)
    requires Table(tags) && b != "" && StepAt(tags, mode, b, force).Stop?
    ensures !force && Unread(tags, mode, b)
  {
    if mode == Plain {
      UndecidedIsHeldBack(tags, b);
    }
  }

  lemma HeldBackIsShort(tags: seq<Tag>, b: string)
    requires Table(tags) && HeldBack(tags, b)
    ensures |b| < LONGEST_TAG
  {
  }

  // ---- the grammar a stream is read by ----

  /** seg may stand where the mode is mode: visible text has no '<' unless it is just "<", a stripped
      segment is a tag of the table, a hidden block ends at the first closer. */
  ghost predicate SegOk(tags: seq<Tag>, mode: Mode, seg: Seg) {
    match seg
    case Visible(t) => mode == Plain && t != "" && (t == "<" || forall c | c in t :: c != '<')
    case Stripped(t, kind) => mode == Plain && Tag(t, kind) in tags
    case Hidden(t) => mode != Plain && |Closer(mode)| <= |t| && First(t, Closer(mode), |t| - |Closer(mode)|)
    case Dropped(t) => mode != Plain && Find(t, Closer(mode)) == |t|
  }

  /** The segments read from mode on, one after the other, and end in mode last. */
  ghost predicate Parses(tags: seq<Tag>, mode: Mode, segs: seq<Seg>, last: Mode)
    decreases |segs|
  {
    if segs == [] then mode == last
    else SegOk(tags, mode, segs[0]) && Parses(tags, After(mode, segs[0]), segs[1..], last)
  }

  lemma {:induction false} ParsesAppend(tags: seq<Tag>, mode: Mode, a: seq<Seg>, mid: Mode, b: seq<Seg>, last: Mode)
    requires Parses(tags, mode, a, mid) && Parses(tags, mid, b, last)
    ensures Parses(tags, mode, a + b, last)
    decreases |a|
  {
    if a == [] {
      assert a + b == b;
    } else {
      ParsesAppend(tags, After(mode, a[0]), a[1..], mid, b, last);
      assert (a + b)[1..] == a[1..] + b;
    }
  }

  lemma HiddenCut(b: string, pat: string, k: nat)
    requires pat != "" && First(b, pat, k)
    ensures k + |pat| <= |b| && First(b[..k + |pat|], pat, k)
  {
    var t := b[..k + |pat|];
    assert t[k..] == pat;
    forall j | 0 <= j < k ensures !Starts(pat, t[j..]) {
      assert t[j..][..|pat|] == b[j..][..|pat|];
    }
  }

  lemma VisibleCut(b: string, k: nat)
    requires k <= Find(b, "<")
    ensures forall c | c in b[..k] :: c != '<'
  {
    FindIsFirst(b, "<");
    forall j | 0 <= j < k ensures b[j] != '<' {
      assert !Starts("<", b[j..]);
      assert b[j..][..1] == [b[j]];
    }
  }

  lemma HeadIsOpen(b: string)
    requires b != "" && Find(b, "<") == 0
    ensures b[0] == '<'
  {
    assert Starts("<", b);
    assert b[0] == b[..1][0];
  }

  lemma StepHiddenOk(mode: Mode, b: string, force: bool)
    requires b != "" && mode != Plain
    ensures var r := StepHidden(mode, b, force); r.Take? ==> SegOk([], mode, r.seg)
  {
    var k := Find(b, Closer(mode));
    FindIsFirst(b, Closer(mode));
    if k < |b| {
      HiddenCut(b, Closer(mode), k);
    }
  }

  lemma StepOk(tags: seq<Tag>, mode: Mode, b: string, force: bool)
    requires Table(tags) && b != "" && StepAt(tags, mode, b, force).Take?
    ensures SegOk(tags, mode, StepAt(tags, mode, b, force).seg)
  {
    if mode != Plain {
      StepHiddenOk(mode, b, force);
    } else {
      var k := Find(b, "<");
      VisibleCut(b, k);
      if k == 0 {
        var t := Match(tags, 0, b);
        assert t < |tags| ==> tags[t] in tags;
      }
    }
  }

  // ---- a whole flush ----

  datatype Scanned = Scanned(segs: seq<Seg>, rest: string, mode: Mode)

  function Cons(seg: Seg, s: Scanned): Scanned { Scanned([seg] + s.segs, s.rest, s.mode) }

  /** What one flush makes of the buffer: the segments it consumes, what is left, and the mode. */
  function Scan(tags: seq<Tag>, mode: Mode, b: string, force: bool): Scanned
    requires Table(tags)
    decreases |b|
  {
    if b == "" then Scanned([], b, mode)
    else
      match StepAt(tags, mode, b, force)
      case Stop => Scanned([], b, mode)
      case Take(seg) => Cons(seg, Scan(tags, After(mode, seg), b[|seg.text|..], force))
  }

  function Text(segs: seq<Seg>): string { if segs == [] then "" else segs[0].text + Text(segs[1..]) }

  function ShownOf(seg: Seg): string { if seg.Visible? then seg.text else "" }

  /** The visible text of some segments. */
  function Shown(segs: seq<Seg>): string {
    if segs == [] then "" else ShownOf(segs[0]) + Shown(segs[1..])
  }

  lemma ConsText(seg: Seg, segs: seq<Seg>)
    ensures Text([seg] + segs) == seg.text + Text(segs)
    ensures Shown([seg] + segs) == ShownOf(seg) + Shown(segs)
  {
    assert ([seg] + segs)[1..] == segs;
  }

  lemma {:induction false} AppendText(a: seq<Seg>, b: seq<Seg>)
    ensures Text(a + b) == Text(a) + Text(b)
    ensures Shown(a + b) == Shown(a) + Shown(b)
  {
    if a == [] {
      assert a + b == b;
    } else {
      assert a + b == [a[0]] + (a[1..] + b);
      ConsText(a[0], a[1..] + b);
      AppendText(a[1..], b);
    }
  }

  /** No tag stands at the beginning of b. */
  ghost predicate NoTag(tags: seq<Tag>, b: string) { forall k | 0 <= k < |tags| :: !Starts(tags[k].text, b) }

  /** And none will, whatever is appended. */
  ghost predicate NeverTag(tags: seq<Tag>, b: string) {
    forall k | 0 <= k < |tags| :: !Starts(tags[k].text, b) && !Starts(b, tags[k].text)
  }

  /** A '<' is shown only where no tag stands in the text, and only the last block is dropped unclosed. */
  ghost predicate Honest(tags: seq<Tag>, segs: seq<Seg>, rest: string) {
    segs != [] ==>
      && (segs[0] == Visible("<") ==> NoTag(tags, Text(segs) + rest))
      && (segs[0].Dropped? ==> |segs| == 1)
      && Honest(tags, segs[1..], rest)
  }

  /** That stays so when more text comes. */
  ghost predicate Settled(tags: seq<Tag>, segs: seq<Seg>, rest: string) {
    segs != [] ==>
      && (segs[0] == Visible("<") ==> NeverTag(tags, Text(segs) + rest))
      && !segs[0].Dropped?
      && Settled(tags, segs[1..], rest)
  }

  lemma NeverTagExtends(tags: seq<Tag>, b: string, x: string)
    requires NeverTag(tags, b)
    ensures NeverTag(tags, b + x)
  {
    forall k | 0 <= k < |tags| ensures !Starts(tags[k].text, b + x) && !Starts(b + x, tags[k].text) {
      StartsEither(tags[k].text, b, x);
    }
  }

  lemma StartsEither(t: string, b: string, x: string)
    ensures Starts(t, b + x) || Starts(b + x, t) ==> Starts(t, b) || Starts(b, t)
  {
    if Starts(t, b + x) {
      if |t| <= |b| {
        assert b[..|t|] == (b + x)[..|t|];
      } else {
        assert t[..|b|] == (b + x)[..|t|][..|b|] == b;
      }
    } else if Starts(b + x, t) {
      assert t[..|b|] == t[..|b + x|][..|b|] == b;
    }
  }

  /** Segments that are settled before a text stay so in front of that text's own segments. */
  lemma {:induction false} SettledJoin(tags: seq<Tag>, a: seq<Seg>, rest: string, token: string, b: seq<Seg>, left: string)
    requires Settled(tags, a, rest) && rest + token == Text(b) + left
    ensures Settled(tags, b, left) ==> Settled(tags, a + b, left)
    ensures Honest(tags, b, left) ==> Honest(tags, a + b, left)
    decreases |a|
  {
    if a == [] {
      assert a + b == b;
    } else {
      SettledJoin(tags, a[1..], rest, token, b, left);
      assert (a + b)[1..] == a[1..] + b && (a + b)[0] == a[0];
      AppendText(a, b);
      Reassociate(Text(a), rest, token, Text(b), left);
      if a[0] == Visible("<") {
        NeverTagExtends(tags, Text(a) + rest, token);
      }
    }
  }

  lemma Reassociate(a: string, b: string, c: string, d: string, e: string)
    requires b + c == d + e
    ensures (a + d) + e == (a + b) + c
  {
    assert (a + d) + e == a + (d + e);
    assert (a + b) + c == a + (b + c);
  }

  lemma {:induction false} HonestAt(tags: seq<Tag>, segs: seq<Seg>, i: nat)
    requires Honest(tags, segs, "") && i < |segs|
    ensures segs[i] == Visible("<") ==> NoTag(tags, Text(segs[i..]))
    ensures segs[i].Dropped? ==> i == |segs| - 1
  {
    if i == 0 {
      assert segs[0..] == segs && Text(segs) + "" == Text(segs);
    } else {
      HonestAt(tags, segs[1..], i - 1);
      assert segs[1..][i - 1..] == segs[i..];
    }
  }

  /** s reads b from mode on: it is a parse of all of b up to the rest, tags are not shown, and the rest is
      held back. */
  ghost predicate Reads(tags: seq<Tag>, mode: Mode, b: string, s: Scanned) {
    && Text(s.segs) + s.rest == b
    && Parses(tags, mode, s.segs, s.mode)
    && Honest(tags, s.segs, s.rest)
    && Unread(tags, s.mode, s.rest)
  }

  lemma {:induction false} NotMaybe(tags: seq<Tag>, t: nat, b: string)
    requires t <= |tags| && !MayBeTag(tags, t, b)
    ensures forall k | t <= k < |tags| :: !Starts(tags[k].text, b) && !Starts(b, tags[k].text)
    decreases |tags| - t
  {
    if t == |tags| {
    } else {
      NotMaybe(tags, t + 1, b);
    }
  }

  /** A '<' is shown only if no tag matches, and before the end only if none can match any more. */
  lemma StepHonest(tags: seq<Tag>, mode: Mode, b: string, force: bool)
    requires Table(tags) && b != "" && StepAt(tags, mode, b, force).Take?
    ensures var seg := StepAt(tags, mode, b, force).seg;
            && (seg == Visible("<") ==> NoTag(tags, b) && (!force ==> NeverTag(tags, b)))
            && (seg.Dropped? ==> force && seg.text == b)
  {
    if mode == Plain {
      var k := Find(b, "<");
      VisibleCut(b, k);
      if k == 0 {
        HeadIsOpen(b);
        if StepTag(tags, b, force) == Take(Visible("<")) {
          TagHonest(tags, b, force);
        }
      } else {
        assert b[0] == b[..k][0] && b[..k][0] in b[..k];
      }
    }
  }

  lemma TagHonest(tags: seq<Tag>, b: string, force: bool)
    requires Table(tags) && b != "" && b[0] == '<' && StepTag(tags, b, force) == Take(Visible("<"))
    ensures NoTag(tags, b) && (!force ==> NeverTag(tags, b))
  {
    NoMatch(tags, 0, b);
    if !force {
      NotMaybe(tags, 0, b);
    }
  }

  lemma ConsParses(tags: seq<Tag>, mode: Mode, seg: Seg, segs: seq<Seg>, last: Mode)
    requires SegOk(tags, mode, seg) && Parses(tags, After(mode, seg), segs, last)
    ensures Parses(tags, mode, [seg] + segs, last)
  {
    assert ([seg] + segs)[1..] == segs;
  }

  lemma Glue(b: string, front: string, mid: string, rest: string)
    requires Starts(front, b) && mid + rest == b[|front|..]
    ensures (front + mid) + rest == b
  {
    assert b == front + b[|front|..];
    assert (front + mid) + rest == front + (mid + rest);
  }

  lemma ConsCovers(b: string, seg: Seg, segs: seq<Seg>, rest: string)
    requires Starts(seg.text, b) && Text(segs) + rest == b[|seg.text|..]
    ensures Text([seg] + segs) + rest == b
  {
    ConsText(seg, segs);
    Glue(b, seg.text, Text(segs), rest);
  }

  lemma ConsHonest(tags: seq<Tag>, b: string, seg: Seg, segs: seq<Seg>, rest: string)
    requires Text([seg] + segs) + rest == b && Honest(tags, segs, rest)
    requires (seg == Visible("<") ==> NoTag(tags, b)) && (seg.Dropped? ==> segs == [])
    ensures Honest(tags, [seg] + segs, rest)
    ensures Settled(tags, segs, rest) && !seg.Dropped? && (seg == Visible("<") ==> NeverTag(tags, b)) ==>
              Settled(tags, [seg] + segs, rest)
  {
    assert ([seg] + segs)[1..] == segs;
  }

  lemma ConsReads(tags: seq<Tag>, mode: Mode, b: string, seg: Seg, s: Scanned)
    requires SegOk(tags, mode, seg) && Starts(seg.text, b) && Reads(tags, After(mode, seg), b[|seg.text|..], s)
    requires (seg == Visible("<") ==> NoTag(tags, b)) && (seg.Dropped? ==> s.segs == [])
    ensures Reads(tags, mode, b, Cons(seg, s))
    ensures Settled(tags, s.segs, s.rest) && !seg.Dropped? && (seg == Visible("<") ==> NeverTag(tags, b)) ==>
              Settled(tags, Cons(seg, s).segs, s.rest)
  {
    ConsParses(tags, mode, seg, s.segs, s.mode);
    ConsCovers(b, seg, s.segs, s.rest);
    ConsHonest(tags, b, seg, s.segs, s.rest);
  }

  lemma EmptyUnread(tags: seq<Tag>, mode: Mode)
    ensures Unread(tags, mode, "")
  {
  }

  /** A flush reads the buffer by the grammar, loses and invents nothing, shows no tag, and retains little:
      outside hidden blocks a proper beginning of some tag, and nothing when forced.  Unless forced, what
      it has read stays a reading whatever comes next. */
  lemma {:induction false} ScanReads(tags: seq<Tag>, mode: Mode, b: string, force: bool)
    requires Table(tags)
    ensures Reads(tags, mode, b, Scan(tags, mode, b, force))
    ensures if force then Scan(tags, mode, b, force).rest == ""
            else Settled(tags, Scan(tags, mode, b, force).segs, Scan(tags, mode, b, force).rest)
    decreases |b|
  {
    EmptyUnread(tags, mode);
    if b == "" {
    } else {
      match StepAt(tags, mode, b, force)
      case Stop => StopHoldsLittle(tags, mode, b, force);
      case Take(seg) =>
        StepOk(tags, mode, b, force);
        StepHonest(tags, mode, b, force);
        assert seg.text == b ==> b[|seg.text|..] == "";
        ScanReads(tags, After(mode, seg), b[|seg.text|..], force);
        ConsReads(tags, mode, b, seg, Scan(tags, After(mode, seg), b[|seg.text|..], force));
    }
  }

  // ---- the object ----

  /** What a flush leaves behind.  When it stops inside a hidden block the buffer is not trimmed
      (the early return), so consumed text stays in it. */
  function Retained(b: string, s: Scanned): string {
    if s.mode != Plain && s.rest != "" then b else s.rest
  }

  function ModeOf(think: int, channel: int): Mode {
    if think > 0 then Think else if channel > 0 then Channel else Plain
  }

  /** The scan of the rest completes the whole scan, given what has been output. */
  ghost predicate Completes(s: Scanned, out: string, whole: Scanned) {
    out + Shown(s.segs) == Shown(whole.segs) && s.rest == whole.rest && s.mode == whole.mode
  }

  lemma StepCompletes(seg: Seg, s: Scanned, out: string, whole: Scanned)
    requires Completes(Cons(seg, s), out, whole)
    ensures Completes(s, out + ShownOf(seg), whole)
  {
    ConsText(seg, s.segs);
  }

  lemma ScanStep(tags: seq<Tag>, mode: Mode, b: string, force: bool, out: string, whole: Scanned)
    requires Table(tags) && b != "" && Completes(Scan(tags, mode, b, force), out, whole)
    ensures var r := StepAt(tags, mode, b, force);
            if r.Stop? then Completes(Scanned([], b, mode), out, whole)
            else Completes(Scan(tags, After(mode, r.seg), b[|r.seg.text|..], force), out + ShownOf(r.seg), whole)
  {
    match StepAt(tags, mode, b, force)
    case Stop =>
    case Take(seg) => StepCompletes(seg, Scan(tags, After(mode, seg), b[|seg.text|..], force), out, whole);
  }

  /** scan is Scan for this table. */
  ghost predicate IsScan(scan: (Mode, string) -> Scanned, tags: seq<Tag>, force: bool)
    requires Table(tags)
  {
    forall mode, b {:trigger Scan(tags, mode, b, force)} :: scan(mode, b) == Scan(tags, mode, b, force)
  }

  ghost function ScanFunction(tags: seq<Tag>, force: bool): (scan: (Mode, string) -> Scanned)
    requires Table(tags)
    ensures IsScan(scan, tags, force)
  {
    (mode, b) => if Table(tags) then Scan(tags, mode, b, force) else Scanned([], b, mode)
  }

  lemma ScanOfNothing(scan: (Mode, string) -> Scanned, tags: seq<Tag>, force: bool, mode: Mode)
    requires Table(tags) && IsScan(scan, tags, force)
    ensures scan(mode, "") == Scanned([], "", mode)
  {
    assert Scan(tags, mode, "", force) == Scanned([], "", mode);
  }

  lemma Unstarted(whole: Scanned)
    ensures Completes(whole, "", whole)
  {
    assert "" + Shown(whole.segs) == Shown(whole.segs);
  }

  lemma Ended(out: string, b: string, mode: Mode, whole: Scanned)
    requires Completes(Scanned([], b, mode), out, whole)
    ensures out == Shown(whole.segs) && b == whole.rest && mode == whole.mode
  {
    assert out + "" == out;
  }

  lemma ForcedTakesAll(tags: seq<Tag>, mode: Mode, b: string, force: bool)
    requires Table(tags)
    ensures force ==> Scan(tags, mode, b, force).rest == ""
  {
    ScanReads(tags, mode, b, force);
  }

  class StreamingSanitizer {
    const tags: seq<Tag>
    var buffer: string
    var think: int
    var channel: int

    /** At most one block is open at any time. */
    predicate Valid()
      reads this
    {
      Table(tags) && 0 <= think && 0 <= channel && think + channel <= 1
    }

    function Mode(): Mode
      reads this
    {
      ModeOf(think, channel)
    }

    constructor ()
      ensures Valid() && tags == TAGS && buffer == "" && Mode() == Plain
    {
      tags := TAGS;
      buffer, think, channel := "", 0, 0;
      TagsAreTable();
    }

    /** In a block: how much is hidden text, or 0 if the block does not end and nothing is forced. */
    method FlushHidden(force: bool, i: nat) returns (size: nat)
      requires Valid() && Mode() != Plain && i < |buffer|
      modifies this`think, this`channel
      ensures Valid()
      ensures match StepHidden(old(Mode()), buffer[i..], force)
              case Stop => size == 0 && Mode() == old(Mode())
              case Take(seg) => size == |seg.text| && Mode() == After(old(Mode()), seg) && ShownOf(seg) == ""
    {
      var b := buffer[i..];
      var mode := ModeOf(think, channel);
      var k := Find(b, Closer(mode));
      if k == |b| {
        return if force then |b| else 0;
      }
      if think > 0 {
        think := think - 1;
      } else {
        channel := channel - 1;
      }
      return k + |Closer(mode)|;
    }

    /** At a '<' outside blocks: a tag, a plain character, or 0 to hold the rest back. */
    method FlushTag(force: bool, i: nat) returns (size: nat, text: string)
      requires Valid() && Mode() == Plain && i < |buffer| && buffer[i] == '<'
      modifies this`think, this`channel
      ensures Valid()
      ensures match StepTag(tags, buffer[i..], force)
              case Stop => size == 0 && Mode() == Plain
              case Take(seg) => size == |seg.text| && Mode() == After(Plain, seg) && text == ShownOf(seg)
    {
      var b := buffer[i..];
      var t := 0;
      while t < |tags|
        invariant t <= |tags| && Match(tags, 0, b) == Match(tags, t, b)
      {
        if Starts(tags[t].text, b) {
          if tags[t].kind == OpenThink {
            think := think + 1;
          } else if tags[t].kind == OpenChannel {
            channel := channel + 1;
          }
          return |tags[t].text|, "";
        }
        t := t + 1;
      }
      var isPrefix := false;
      t := 0;
      while t < |tags| && !isPrefix
        invariant t <= |tags| && MayBeTag(tags, 0, b) == (isPrefix || MayBeTag(tags, t, b))
        decreases |tags| - t, !isPrefix
      {
        if Starts(b, tags[t].text) || Starts(tags[t].text, b) {
          isPrefix := true;
        } else {
          t := t + 1;
        }
      }
      if isPrefix && !force {
        return 0, "";
      }
      return 1, "<";
    }

    /** One turn of the loop at position i: how far it gets and what it shows. */
    method FlushStep(force: bool, i: nat) returns (size: nat, text: string)
      requires Valid() && i < |buffer|
      modifies this`think, this`channel
      ensures Valid() && i + size <= |buffer|
      ensures match StepAt(tags, old(Mode()), buffer[i..], force)
              case Stop => size == 0 && Mode() == old(Mode())
              case Take(seg) => size == |seg.text| && Mode() == After(old(Mode()), seg) && text == ShownOf(seg)
    {
      if think > 0 || channel > 0 {
        size := FlushHidden(force, i);
        return size, "";
      }
      var lt := Find(buffer[i..], "<");
      if lt > 0 {
        return lt, buffer[i..][..lt];
      }
      HeadIsOpen(buffer[i..]);
      size, text := FlushTag(force, i);
    }

    /** A turn of the loop on its way to the whole scan; scan says how the rest of a text is scanned. */
    method FlushTurn(force: bool, i: nat, out: string, ghost scan: (Mode, string) -> Scanned, ghost whole: Scanned)
      returns (size: nat, shown: string)
      requires Valid() && i < |buffer| && IsScan(scan, tags, force) && Completes(scan(Mode(), buffer[i..]), out, whole)
      modifies this`think, this`channel
      ensures Valid() && i + size <= |buffer|
      ensures size == 0 ==> Mode() == old(Mode()) && Completes(Scanned([], buffer[i..], Mode()), shown, whole)
      ensures size > 0 ==> Completes(scan(Mode(), buffer[i + size..]), shown, whole)
    {
      assert scan(Mode(), buffer[i..]) == Scan(tags, Mode(), buffer[i..], force);
      ScanStep(tags, Mode(), buffer[i..], force, out, whole);
      var text;
      size, text := FlushStep(force, i);
      assert buffer[i..][size..] == buffer[i + size..];
      assert scan(Mode(), buffer[i + size..]) == Scan(tags, Mode(), buffer[i + size..], force);
      shown := if size == 0 then out else out + text;
    }

    /** The index loop of flush, which terminates for every buffer; early says that it returned inside a block. */
    method FlushLoop(force: bool, ghost scan: (Mode, string) -> Scanned, ghost whole: Scanned)
      returns (out: string, i: nat, early: bool)
      requires Valid() && IsScan(scan, tags, force) && Completes(scan(Mode(), buffer), "", whole)
      modifies this`think, this`channel
      ensures Valid() && i <= |buffer| && Completes(Scanned([], buffer[i..], Mode()), out, whole)
      ensures early <==> Mode() != Plain && i < |buffer|
    {
      out, i := "", 0;
      assert buffer[0..] == buffer;
      while i < |buffer|
        invariant 0 <= i <= |buffer| && Valid()
        invariant Completes(scan(Mode(), buffer[i..]), out, whole)
        decreases |buffer| - i
      {
        var size;
        size, out := FlushTurn(force, i, out, scan, whole);
        if size == 0 {
          return out, i, think > 0 || channel > 0;
        }
        i := i + size;
      }
      assert buffer[i..] == "";
      ScanOfNothing(scan, tags, force, Mode());
      return out, i, false;
    }

    method Flush(force: bool) returns (out: string)
      requires Valid()
      modifies this
      ensures Valid()
      ensures var s := Scan(tags, old(Mode()), old(buffer), force);
              && out == Shown(s.segs) && Mode() == s.mode
              && buffer == (if force then "" else Retained(old(buffer), s))
    {
      ghost var whole := Scan(tags, Mode(), buffer, force);
      ghost var scan := ScanFunction(tags, force);
      ForcedTakesAll(tags, Mode(), buffer, force);
      Unstarted(whole);
      assert scan(Mode(), buffer) == whole;
      var i, early;
      out, i, early := FlushLoop(force, scan, whole);
      Ended(out, buffer[i..], Mode(), whole);
      if early {
        return;
      }
      if i > 0 {
        buffer := buffer[i..];
      }
    }

    /** Outside hidden blocks only a proper beginning of a tag is ever retained. */
    method OnToken(token: string) returns (out: string)
      requires Valid()
      modifies this
      ensures Valid()
      ensures var s := Scan(tags, old(Mode()), old(buffer) + token, false);
              out == Shown(s.segs) && Mode() == s.mode && buffer == Retained(old(buffer) + token, s)
      ensures Mode() == Plain ==> HeldBack(tags, buffer) && |buffer| < LONGEST_TAG
    {
      buffer := buffer + token;
      ScanReads(tags, Mode(), buffer, false);
      out := Flush(false);
      if Mode() == Plain {
        HeldBackIsShort(tags, buffer);
      }
    }

    method Finish() returns (out: string)
      requires Valid()
      modifies this
      ensures Valid() && buffer == "" && Mode() == Plain
      ensures out == Shown(Scan(tags, old(Mode()), old(buffer), true).segs)
    {
      out := Flush(true);
      buffer, think, channel := "", 0, 0;
    }
  }
}
