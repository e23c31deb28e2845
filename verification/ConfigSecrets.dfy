/** Masking the secrets of a configuration text and putting them back. */
module ConfigSecrets {
  import opened SecretLine

  datatype Option<T> = None | Some(value: T)

  datatype Field = Field(section: string, key: string)

  const FIELDS: seq<Field> := [Field("auth", "token"), Field("control", "token"), Field("model_store", "hf_token")]

  datatype Span = Span(begin: nat, end: nat)

  predicate Hits(line: string, inSection: bool, f: Field) { inSection && KindOf(line) == Entry(f.key) }

  function Enters(line: string, inSection: bool, f: Field): bool {
    match KindOf(line) case Header(name) => name == f.section case _ => inSection
  }

  /** yaml_scalar_span from a line start on. */
  function Locate(text: string, pos: nat, inSection: bool, f: Field): (r: Option<Span>)
    requires pos <= |text|
    ensures r.Some? ==> r.value.begin <= r.value.end <= |text|
    decreases |text| - pos
  {
    if pos == |text| then None
    else
      var nl := IndexOf(text, '\n', pos);
      var line := text[pos..nl];
      if Hits(line, inSection, f) then Some(Span(pos + Begin(line), pos + End(line)))
      else if nl == |text| then None
      else Locate(text, nl + 1, Enters(line, inSection, f), f)
  }

  function Find(text: string, f: Field): (r: Option<Span>)
    ensures r.Some? ==> r.value.begin <= r.value.end <= |text|
  {
    Locate(text, 0, false, f)
  }

  function Put(text: string, s: Span, value: string): string
    requires s.begin <= s.end <= |text|
  {
    text[..s.begin] + value + text[s.end..]
  }

  function MaskField(text: string, f: Field): string {
    match Find(text, f) case None => text case Some(s) => Put(text, s, QUOTED)
  }

  /** The textual part of mask_config_secrets. */
  function MaskText(text: string, fs: seq<Field>): string
    decreases |fs|
  {
    if fs == [] then text else MaskText(MaskField(text, fs[0]), fs[1..])
  }

  function RestoreField(submitted: string, current: string, f: Field): string {
    match (Find(submitted, f), Find(current, f))
    case (Some(s), Some(c)) =>
      if SentinelForm(submitted[s.begin..s.end]) then Put(submitted, s, current[c.begin..c.end]) else submitted
    case _ => submitted
  }

  function RestoreFields(submitted: string, current: string, fs: seq<Field>): string
    decreases |fs|
  {
    if fs == [] then submitted else RestoreFields(RestoreField(submitted, current, fs[0]), current, fs[1..])
  }

  /** The textual part of restore_config_secrets; None when a sentinel is left and YAML has to help. */
  function RestoreText(submitted: string, current: string): Option<string> {
    var r := RestoreFields(submitted, current, FIELDS);
    if Contains(r, SENTINEL) then None else Some(r)
  }

  // ---- the loops ----

  /** One line: the span of its value if it is the one, and the section flag after it. */
  method ScanLine(line: string, inSection: bool, f: Field) returns (span: Option<Span>, now: bool)
    ensures span == if Hits(line, inSection, f) then Some(Span(Begin(line), End(line))) else None
    ensures now == Enters(line, inSection, f)
  {
    span, now := None, inSection;
    var first := First(line);
    if first < |line| && line[first] != '#' {
      var colon := Colon(line);
      if colon < |line| {
        var name := line[first..colon];
        if first == 0 {
          now := name == f.section;
        } else if inSection && name == f.key {
          var b, e := FindValue(line);
          span := Some(Span(b, e));
        }
      }
    }
  }

  method YamlScalarSpan(text: string, f: Field) returns (r: Option<Span>)
    ensures r == Find(text, f)
  {
    var inSection := false;
    var position := 0;
    while position < |text|
      invariant position <= |text| && Locate(text, position, inSection, f) == Find(text, f)
      decreases |text| - position
    {
      var nl := IndexOf(text, '\n', position);
      var span, now := ScanLine(text[position..nl], inSection, f);
      if span.Some? {
        return Some(Span(position + span.value.begin, position + span.value.end));
      }
      if nl == |text| {
        return None;
      }
      position, inSection := nl + 1, now;
    }
    return None;
  }

  method MaskConfigSecrets(input: string) returns (text: string)
    ensures text == MaskText(input, FIELDS)
  {
    text := input;
    var k := 0;
    while k < |FIELDS|
      invariant k <= |FIELDS| && MaskText(text, FIELDS[k..]) == MaskText(input, FIELDS)
    {
      assert FIELDS[k..][1..] == FIELDS[k + 1..];
      var span := YamlScalarSpan(text, FIELDS[k]);
      if span.Some? {
        text := text[..span.value.begin] + QUOTED + text[span.value.end..];
      }
      k := k + 1;
    }
  }

  method RestoreConfigSecrets(input: string, current: string) returns (r: Option<string>)
    ensures r == RestoreText(input, current)
  {
    var submitted := input;
    var k := 0;
    while k < |FIELDS|
      invariant k <= |FIELDS|
      invariant RestoreFields(submitted, current, FIELDS[k..]) == RestoreFields(input, current, FIELDS)
    {
      assert FIELDS[k..][1..] == FIELDS[k + 1..];
      var s := YamlScalarSpan(submitted, FIELDS[k]);
      var c := YamlScalarSpan(current, FIELDS[k]);
      k := k + 1;
      if s.None? || c.None? {
        continue;
      }
      var value := submitted[s.value.begin..s.value.end];
      if value == SENTINEL || value == QUOTED || value == "'__INFERDECK_SECRET__'" {
        submitted := submitted[..s.value.begin] + current[c.value.begin..c.value.end] + submitted[s.value.end..];
      }
    }
    if Contains(submitted, SENTINEL) {
      return None;
    }
    return Some(submitted);
  }

  // ---- the text as lines ----

  /** Lines without newlines; there is always at least one. */
  ghost predicate Clean(ls: seq<string>) { ls != [] && forall i | 0 <= i < |ls| :: '\n' !in ls[i] }

  ghost function Join(ls: seq<string>): string
    requires ls != []
  {
    if |ls| == 1 then ls[0] else ls[0] + ("\n" + Join(ls[1..]))
  }

  ghost function Lines(text: string): (ls: seq<string>)
    ensures ls != []
    decreases |text|
  {
    var n := IndexOf(text, '\n', 0);
    if n == |text| then [text] else [text[..n]] + Lines(text[n + 1..])
  }

  lemma JoinCons(line: string, ls: seq<string>)
    requires ls != []
    ensures Join([line] + ls) == line + ("\n" + Join(ls))
  {
    assert ([line] + ls)[1..] == ls;
  }

  lemma SplitAtNewline(text: string, n: nat)
    requires n < |text| && text[n] == '\n'
    ensures text == text[..n] + ("\n" + text[n + 1..])
  {
  }

  /** A text is its lines, joined. */
  lemma {:induction false} LinesJoin(text: string)
    ensures Clean(Lines(text)) && Join(Lines(text)) == text
    decreases |text|
  {
    var n := IndexOf(text, '\n', 0);
    IndexOfFirst(text, '\n', 0);
    if n == |text| {
    } else {
      LinesJoin(text[n + 1..]);
      JoinCons(text[..n], Lines(text[n + 1..]));
      SplitAtNewline(text, n);
    }
  }

  /** Where line i starts. */
  ghost function Offset(ls: seq<string>, i: nat): nat
    requires i < |ls|
  {
    if i == 0 then 0 else |ls[0]| + 1 + Offset(ls[1..], i - 1)
  }

  /** The name of the section a line is in. */
  ghost function Enter(line: string, cur: Option<string>): Option<string> {
    match KindOf(line) case Header(name) => Some(name) case _ => cur
  }

  ghost function SectionAt(ls: seq<string>, cur: Option<string>, i: nat): Option<string>
    requires i < |ls|
  {
    if i == 0 then cur else SectionAt(ls[1..], Enter(ls[0], cur), i - 1)
  }

  /** The line that holds the field, or |ls|. */
  ghost function Hit(ls: seq<string>, cur: Option<string>, f: Field): (i: nat)
    ensures i <= |ls|
    ensures i < |ls| ==> KindOf(ls[i]) == Entry(f.key) && SectionAt(ls, cur, i) == Some(f.section)
    decreases |ls|
  {
    if ls == [] || Hits(ls[0], cur == Some(f.section), f) then 0 else 1 + Hit(ls[1..], Enter(ls[0], cur), f)
  }

  /** A line belongs to one field at most. */
  lemma HitsDistinct(ls: seq<string>, f: Field, g: Field)
    requires f != g && Hit(ls, None, f) < |ls|
    ensures Hit(ls, None, f) != Hit(ls, None, g)
  {
  }

  ghost predicate SameKinds(ls: seq<string>, ms: seq<string>) {
    |ls| == |ms| && forall i | 0 <= i < |ls| :: KindOf(ls[i]) == KindOf(ms[i])
  }

  lemma {:induction false} SameHits(ls: seq<string>, ms: seq<string>, cur: Option<string>, f: Field)
    requires SameKinds(ls, ms)
    ensures Hit(ls, cur, f) == Hit(ms, cur, f)
    decreases |ls|
  {
    if ls == [] {
    } else {
      SameHits(ls[1..], ms[1..], Enter(ls[0], cur), f);
    }
  }

  /** What the scanner finds in a text, told by its lines. */
  ghost function SpanAt(ls: seq<string>, i: nat, shift: nat): Option<Span>
    requires i <= |ls| && (i < |ls| ==> !KindOf(ls[i]).Other?)
  {
    if i == |ls| then None else Some(Span(shift + Offset(ls, i) + Begin(ls[i]), shift + Offset(ls, i) + End(ls[i])))
  }

  /** The text from pos on consists of these lines. */
  ghost predicate Tail(text: string, pos: nat, ls: seq<string>) {
    pos <= |text| && Clean(ls) && text[pos..] == Join(ls)
  }

  lemma FirstLine(text: string, pos: nat, ls: seq<string>)
    requires Tail(text, pos, ls)
    ensures pos + |ls[0]| <= |text| && IndexOf(text, '\n', pos) == pos + |ls[0]|
    ensures text[pos..pos + |ls[0]|] == ls[0]
    ensures |ls| == 1 <==> pos + |ls[0]| == |text|
  {
    var n := pos + |ls[0]|;
    assert |text| - pos == |Join(ls)|;
    forall j | pos <= j < n ensures text[j] == ls[0][j - pos] {
      assert text[j] == text[pos..][j - pos];
    }
    if |ls| > 1 {
      assert text[n] == text[pos..][|ls[0]|] == '\n';
    }
    IndexIs(text, pos, n);
  }

  lemma NextTail(text: string, pos: nat, ls: seq<string>)
    requires Tail(text, pos, ls) && |ls| > 1
    ensures Tail(text, pos + |ls[0]| + 1, ls[1..])
  {
    var n := |ls[0]| + 1;
    assert text[pos..][n..] == text[pos + n..];
    assert (ls[0] + ("\n" + Join(ls[1..])))[n..] == Join(ls[1..]);
  }

  lemma IndexIs(text: string, i: nat, n: nat)
    requires i <= n <= |text| && (n < |text| ==> text[n] == '\n') && forall j | i <= j < n :: text[j] != '\n'
    ensures IndexOf(text, '\n', i) == n
  {
    IndexOfFirst(text, '\n', i);
  }

  lemma SpanStep(ls: seq<string>, i: nat, shift: nat)
    requires 1 <= i <= |ls| && (i < |ls| ==> !KindOf(ls[i]).Other?)
    ensures SpanAt(ls, i, shift) == SpanAt(ls[1..], i - 1, shift + |ls[0]| + 1)
  {
  }

  lemma LocateHit(text: string, pos: nat, ls: seq<string>, cur: Option<string>, f: Field)
    requires Tail(text, pos, ls) && Hits(ls[0], cur == Some(f.section), f)
    ensures Locate(text, pos, cur == Some(f.section), f) == SpanAt(ls, Hit(ls, cur, f), pos)
  {
    FirstLine(text, pos, ls);
    assert |ls[0]| > 0;
    assert Hit(ls, cur, f) == 0;
  }

  lemma LocateLast(text: string, pos: nat, ls: seq<string>, cur: Option<string>, f: Field)
    requires Tail(text, pos, ls) && !Hits(ls[0], cur == Some(f.section), f) && |ls| == 1
    ensures Locate(text, pos, cur == Some(f.section), f) == SpanAt(ls, Hit(ls, cur, f), pos)
  {
    FirstLine(text, pos, ls);
    assert Hit(ls[1..], Enter(ls[0], cur), f) == 0;
    assert Hit(ls, cur, f) == 1;
  }

  lemma EntersIsEnter(line: string, cur: Option<string>, f: Field)
    ensures Enters(line, cur == Some(f.section), f) == (Enter(line, cur) == Some(f.section))
  {
  }

  lemma LocateNext(text: string, pos: nat, line: string, cur: Option<string>, f: Field)
    requires pos + |line| < |text| && IndexOf(text, '\n', pos) == pos + |line|
    requires text[pos..pos + |line|] == line && !Hits(line, cur == Some(f.section), f)
    ensures Locate(text, pos, cur == Some(f.section), f)
         == Locate(text, pos + |line| + 1, Enter(line, cur) == Some(f.section), f)
  {
    EntersIsEnter(line, cur, f);
  }

  lemma SpanNext(ls: seq<string>, cur: Option<string>, f: Field, shift: nat)
    requires ls != [] && !Hits(ls[0], cur == Some(f.section), f)
    ensures SpanAt(ls, Hit(ls, cur, f), shift)
         == SpanAt(ls[1..], Hit(ls[1..], Enter(ls[0], cur), f), shift + |ls[0]| + 1)
  {
    SpanStep(ls, Hit(ls, cur, f), shift);
  }

  lemma LocateMore(text: string, pos: nat, ls: seq<string>, cur: Option<string>, f: Field, n: nat, next: Option<string>)
    requires Tail(text, pos, ls) && !Hits(ls[0], cur == Some(f.section), f) && |ls| > 1
    requires n == pos + |ls[0]| + 1 && next == Enter(ls[0], cur)
    ensures n <= |text| && Locate(text, pos, cur == Some(f.section), f) == Locate(text, n, next == Some(f.section), f)
  {
    FirstLine(text, pos, ls);
    LocateNext(text, pos, ls[0], cur, f);
  }

  lemma LocateBehind(text: string, pos: nat, ls: seq<string>, cur: Option<string>, f: Field, n: nat, next: Option<string>)
    requires Tail(text, pos, ls) && !Hits(ls[0], cur == Some(f.section), f) && |ls| > 1
    requires n == pos + |ls[0]| + 1 <= |text| && next == Enter(ls[0], cur)
    requires Locate(text, n, next == Some(f.section), f) == SpanAt(ls[1..], Hit(ls[1..], next, f), n)
    ensures Locate(text, pos, cur == Some(f.section), f) == SpanAt(ls, Hit(ls, cur, f), pos)
  {
    LocateMore(text, pos, ls, cur, f, n, next);
    SpanNext(ls, cur, f, pos);
  }

  lemma {:induction false} LocateByLines(text: string, pos: nat, ls: seq<string>, cur: Option<string>, f: Field)
    requires Tail(text, pos, ls)
    ensures Locate(text, pos, cur == Some(f.section), f) == SpanAt(ls, Hit(ls, cur, f), pos)
    decreases |ls|
  {
    if Hits(ls[0], cur == Some(f.section), f) {
      LocateHit(text, pos, ls, cur, f);
    } else if |ls| == 1 {
      LocateLast(text, pos, ls, cur, f);
    } else {
      var n, next := pos + |ls[0]| + 1, Enter(ls[0], cur);
      NextTail(text, pos, ls);
      LocateByLines(text, n, ls[1..], next, f);
      LocateBehind(text, pos, ls, cur, f, n, next);
    }
  }

  /** What the scanner finds is the value in the line of the field. */
  lemma FindByLines(ls: seq<string>, f: Field)
    requires Clean(ls)
    ensures Find(Join(ls), f) == SpanAt(ls, Hit(ls, None, f), 0)
  {
    assert Join(ls)[0..] == Join(ls);
    LocateByLines(Join(ls), 0, ls, None, f);
  }
}
