/** What stands in a thinking block or in an analysis channel does not come out, and what stands outside does. */
module SanitizerBlocks {
  import opened Sanitizer
  import opened SanitizerRun

  predicate NoOpen(x: string) { forall c | c in x :: c != '<' }

  lemma {:induction false} NoneFound(x: string, pat: string)
    requires NoOpen(x) && pat != "" && pat[0] == '<'
    ensures Find(x, pat) == |x|
  {
    if x != "" {
      assert x[0] in x;
      assert x[0..] == x;
      StartsAt(pat, x, 0, 0);
      assert forall c | c in x[1..] :: c in x;
      NoneFound(x[1..], pat);
    }
  }

  /** Plain text is shown. */
  lemma PlainScan(tags: seq<Tag>, x: string, force: bool)
    requires Table(tags) && NoOpen(x)
    ensures Shown(Scan(tags, Plain, x, force).segs) == x && Scan(tags, Plain, x, force).rest == ""
  {
    if x != "" {
      NoneFound(x, "<");
      assert StepAt(tags, Plain, x, force) == StepPlain(tags, x, force) == Take(Visible(x[..|x|]));
      assert x[..|x|] == x && x[|x|..] == "";
      assert Scan(tags, Plain, x[|x|..], force) == Scanned([], "", Plain);
      ConsText(Visible(x), []);
      assert Shown([]) == "" && x + "" == x;
    }
  }

  /** Plain text is shown, and what follows a '<' is read on its own. */
  lemma {:induction false} PlainThenTag(tags: seq<Tag>, x: string, b: string, force: bool)
    requires Table(tags) && NoOpen(x) && b != "" && b[0] == '<'
    ensures Shown(Scan(tags, Plain, x + b, force).segs) == x + Shown(Scan(tags, Plain, b, force).segs)
  {
    if x == "" {
      assert x + b == b;
      assert x + Shown(Scan(tags, Plain, b, force).segs) == Shown(Scan(tags, Plain, b, force).segs);
    } else {
      FoundAt(x, b);
      assert StepAt(tags, Plain, x + b, force) == StepPlain(tags, x + b, force) == Take(Visible((x + b)[..|x|]));
      assert (x + b)[..|x|] == x && (x + b)[|x|..] == b;
      ConsText(Visible(x), Scan(tags, Plain, b, force).segs);
    }
  }

  lemma {:induction false} FoundAt(x: string, b: string)
    requires NoOpen(x) && b != "" && b[0] == '<'
    ensures Find(x + b, "<") == |x|
  {
    if x == "" {
      assert x + b == b && b[..1] == "<";
    } else {
      assert x[0] in x;
      assert (x + b)[0..] == x + b;
      StartsAt("<", x + b, 0, 0);
      assert (x + b)[1..] == x[1..] + b;
      assert forall c | c in x[1..] :: c in x;
      FoundAt(x[1..], b);
    }
  }

  /** A tag that matches is taken off. */
  lemma TagTaken(tags: seq<Tag>, m: nat, b: string, rest: string, force: bool)
    requires Table(tags) && m < |tags| && b == tags[m].text + rest && Match(tags, 0, b) == m
    ensures Shown(Scan(tags, Plain, b, force).segs) == Shown(Scan(tags, Enter(tags[m].kind), rest, force).segs)
  {
    var t := tags[m];
    assert TagOk(t);
    assert b[0] == '<' && b[..1] == "<" && Find(b, "<") == 0;
    assert StepAt(tags, Plain, b, force) == StepPlain(tags, b, force) == StepTag(tags, b, force) == Take(Stripped(t.text, t.kind));
    assert b[|t.text|..] == rest;
    ConsText(Stripped(t.text, t.kind), Scan(tags, Enter(t.kind), rest, force).segs);
    assert "" + Shown(Scan(tags, Enter(t.kind), rest, force).segs) == Shown(Scan(tags, Enter(t.kind), rest, force).segs);
  }

  /** A block ends at its closer, and is not shown. */
  lemma BlockTaken(tags: seq<Tag>, mode: Mode, y: string, rest: string, force: bool)
    requires Table(tags) && mode != Plain && Find(y + Closer(mode) + rest, Closer(mode)) == |y|
    ensures Shown(Scan(tags, mode, y + Closer(mode) + rest, force).segs) == Shown(Scan(tags, Plain, rest, force).segs)
  {
    var b, n := y + Closer(mode) + rest, |y| + |Closer(mode)|;
    ScanClosed(tags, mode, b, force);
    assert b[n..] == rest;
    ConsText(Hidden(b[..n]), Scan(tags, Plain, rest, force).segs);
    assert "" + Shown(Scan(tags, Plain, rest, force).segs) == Shown(Scan(tags, Plain, rest, force).segs);
  }

  /** The tag that opens a block. */
  function Opener(mode: Mode): string {
    match mode
    case Plain => ""
    case Think => "<think>"
    case Channel => "<|channel|>analysis<|message|>"
  }

  /** The opening tags of the table and their blocks. */
  lemma OpenerMatches(mode: Mode, rest: string)
    requires mode != Plain
    ensures var m := if mode == Think then 0 else 1;
            TAGS[m].text == Opener(mode) && Enter(TAGS[m].kind) == mode && Match(TAGS, 0, Opener(mode) + rest) == m
  {
    var b := Opener(mode) + rest;
    assert b[..|Opener(mode)|] == Opener(mode);
    assert b[0..] == b;
    StartsAt("<think>", b, 0, 1);
    MatchIs(TAGS, 0, if mode == Think then 0 else 1, b);
  }

  /** Text, a tag that opens a block, the block with its closer, and text again. */
  lemma BlockBetween(tags: seq<Tag>, m: nat, mode: Mode, x: string, y: string, c: string, z: string, force: bool)
    requires Table(tags) && m < |tags| && Enter(tags[m].kind) == mode != Plain && NoOpen(x) && NoOpen(z)
    requires c == Closer(mode) && Find(y + c + z, c) == |y| && Match(tags, 0, tags[m].text + (y + c + z)) == m
    ensures Shown(Scan(tags, Plain, x + (tags[m].text + (y + c + z)), force).segs) == x + z
  {
    assert TagOk(tags[m]);
    PlainThenTag(tags, x, tags[m].text + (y + c + z), force);
    TagTaken(tags, m, tags[m].text + (y + c + z), y + c + z, force);
    BlockTaken(tags, mode, y, z, force);
    PlainScan(tags, z, force);
  }

  lemma JoinFive(x: string, o: string, y: string, c: string, z: string)
    ensures x + o + y + c + z == x + (o + (y + c + z))
  {
  }

  lemma BlockIsHidden(mode: Mode, x: string, y: string, z: string, force: bool)
    requires mode != Plain && NoOpen(x) && NoOpen(z) && Find(y + Closer(mode) + z, Closer(mode)) == |y|
    ensures Table(TAGS) && Shown(Scan(TAGS, Plain, x + Opener(mode) + y + Closer(mode) + z, force).segs) == x + z
  {
    TagsAreTable();
    OpenerMatches(mode, y + Closer(mode) + z);
    JoinFive(x, Opener(mode), y, Closer(mode), z);
    BlockBetween(TAGS, if mode == Think then 0 else 1, mode, x, y, Closer(mode), z, force);
  }

  /** Of a text with a thinking block exactly what stands around it is shown, whatever the block holds. */
  lemma ThinkingIsHidden(x: string, y: string, z: string, force: bool)
    requires NoOpen(x) && NoOpen(z) && Find(y + "</think>" + z, "</think>") == |y|
    ensures Table(TAGS) && Shown(Scan(TAGS, Plain, x + "<think>" + y + "</think>" + z, force).segs) == x + z
  {
    BlockIsHidden(Think, x, y, z, force);
  }

  /** So it is with an analysis channel. */
  lemma AnalysisIsHidden(x: string, y: string, z: string, force: bool)
    requires NoOpen(x) && NoOpen(z) && Find(y + "<|end|>" + z, "<|end|>") == |y|
    ensures Table(TAGS) && Shown(Scan(TAGS, Plain, x + "<|channel|>analysis<|message|>" + y + "<|end|>" + z, force).segs) == x + z
  {
    BlockIsHidden(Channel, x, y, z, force);
  }
}
