/** One line of a configuration file, as the secret scanner reads it. */
module SecretLine {

  const SENTINEL := "__INFERDECK_SECRET__"
  const QUOTED := "\"__INFERDECK_SECRET__\""

  predicate Blank(c: char) { c == ' ' || c == '\t' }

  /** What is trimmed off the end of a value, and skipped at the start of a line. */
  predicate Space(c: char) { Blank(c) || c == '\r' }

  /** First position from i on that holds c, or |s|. */
  function IndexOf(s: string, c: char, i: nat): (r: nat)
    requires i <= |s|
    ensures i <= r <= |s|
    decreases |s| - i
  {
    if i == |s| || s[i] == c then i else IndexOf(s, c, i + 1)
  }

  /** First position from i on that is no space, or |s|. */
  function SkipSpace(s: string, i: nat): (r: nat)
    requires i <= |s|
    ensures i <= r <= |s|
    decreases |s| - i
  {
    if i == |s| || !Space(s[i]) then i else SkipSpace(s, i + 1)
  }

  /** What a line is to the scanner. */
  datatype Kind = Other | Header(name: string) | Entry(name: string)

  function First(line: string): (r: nat)
    ensures r <= |line|
  {
    SkipSpace(line, 0)
  }

  function Colon(line: string): (r: nat)
    ensures r <= |line|
  {
    IndexOf(line, ':', First(line))
  }

  function KindOf(line: string): (k: Kind)
    ensures !k.Other? ==> First(line) <= Colon(line) < |line|
  {
    var first, colon := First(line), Colon(line);
    if first == |line| || line[first] == '#' || colon == |line| then Other
    else if first == 0 then Header(line[first..colon])
    else Entry(line[first..colon])
  }

  function SkipBlanks(s: string, i: nat): (r: nat)
    requires i <= |s|
    ensures i <= r <= |s|
    decreases |s| - i
  {
    if i == |s| || !Blank(s[i]) then i else SkipBlanks(s, i + 1)
  }

  /** The quote flags after the character at i. */
  function Single(line: string, i: nat, single: bool, double: bool): bool
    requires i < |line|
  {
    if line[i] == '\'' && !double then !single else single
  }

  function Double(line: string, i: nat, single: bool, double: bool): bool
    requires i < |line|
  {
    if line[i] == '"' && !Single(line, i, single, double) && (i == 0 || line[i - 1] != '\\') then !double else double
  }

  predicate CommentHere(line: string, begin: nat, i: nat) {
    i < |line| && line[i] == '#' && (i <= begin || Blank(line[i - 1]))
  }

  /** Where the comment behind the value starts, scanning from i with the given quote flags, or |line|. */
  function CommentAt(line: string, begin: nat, i: nat, single: bool, double: bool): (r: nat)
    requires begin <= i <= |line|
    ensures i <= r <= |line|
    decreases |line| - i
  {
    if i == |line| then i
    else
      var s, d := Single(line, i, single, double), Double(line, i, single, double);
      if !s && !d && CommentHere(line, begin, i) then i else CommentAt(line, begin, i + 1, s, d)
  }

  function TrimEnd(line: string, begin: nat, e: nat): (r: nat)
    requires begin <= e <= |line|
    ensures begin <= r <= e
  {
    if e > begin && Space(line[e - 1]) then TrimEnd(line, begin, e - 1) else e
  }

  function Begin(line: string): (r: nat)
    requires !KindOf(line).Other?
    ensures Colon(line) < r <= |line|
  {
    SkipBlanks(line, Colon(line) + 1)
  }

  function Comment(line: string): (r: nat)
    requires !KindOf(line).Other?
    ensures Begin(line) <= r <= |line|
  {
    CommentAt(line, Begin(line), Begin(line), false, false)
  }

  function End(line: string): (r: nat)
    requires !KindOf(line).Other?
    ensures Begin(line) <= r <= Comment(line)
  {
    TrimEnd(line, Begin(line), Comment(line))
  }

  /** The value of an entry, without the comment and the space around it. */
  function Value(line: string): string
    requires !KindOf(line).Other?
  {
    line[Begin(line)..End(line)]
  }

  function Replace(line: string, value: string): string
    requires !KindOf(line).Other?
  {
    line[..Begin(line)] + value + line[End(line)..]
  }

  /** The loops that find the value in a line. */
  method FindValue(line: string) returns (b: nat, e: nat)
    requires !KindOf(line).Other?
    ensures b == Begin(line) && e == End(line)
  {
    b := Colon(line) + 1;
    while b < |line| && Blank(line[b])
      invariant b <= |line| && SkipBlanks(line, Colon(line) + 1) == SkipBlanks(line, b)
    {
      b := b + 1;
    }
    e := |line|;
    var single, double := false, false;
    var i := b;
    while i < |line|
      invariant b <= i <= |line| == e && Comment(line) == CommentAt(line, b, i, single, double)
    {
      if line[i] == '\'' && !double {
        single := !single;
      }
      if line[i] == '"' && !single && (i == 0 || line[i - 1] != '\\') {
        double := !double;
      }
      if line[i] == '#' && !single && !double && (i == b || Blank(line[i - 1])) {
        e := i;
        break;
      }
      i := i + 1;
    }
    assert e == Comment(line);
    while e > b && Space(line[e - 1])
      invariant b <= e <= |line| && End(line) == TrimEnd(line, b, e)
    {
      e := e - 1;
    }
  }

  // ---- replacing a value does not change what kind of line it is ----

  lemma {:induction false} IndexOfFirst(s: string, c: char, i: nat)
    requires i <= |s|
    ensures var r := IndexOf(s, c, i); (r < |s| ==> s[r] == c) && forall j | i <= j < r :: s[j] != c
    decreases |s| - i
  {
    if i < |s| && s[i] != c {
      IndexOfFirst(s, c, i + 1);
    }
  }

  lemma {:induction false} SkipSpaceFirst(s: string, i: nat)
    requires i <= |s|
    ensures var r := SkipSpace(s, i); (r < |s| ==> !Space(s[r])) && forall j | i <= j < r :: Space(s[j])
    decreases |s| - i
  {
    if i < |s| && Space(s[i]) {
      SkipSpaceFirst(s, i + 1);
    }
  }

  lemma {:induction false} SkipBlanksFirst(s: string, i: nat)
    requires i <= |s|
    ensures var r := SkipBlanks(s, i); (r < |s| ==> !Blank(s[r])) && forall j | i <= j < r :: Blank(s[j])
    decreases |s| - i
  {
    if i < |s| && Blank(s[i]) {
      SkipBlanksFirst(s, i + 1);
    }
  }

  lemma {:induction false} CommentAtIs(line: string, begin: nat, i: nat, single: bool, double: bool)
    requires begin <= i <= |line|
    ensures var r := CommentAt(line, begin, i, single, double); r < |line| ==> CommentHere(line, begin, r)
    decreases |line| - i
  {
    if i == |line| {
    } else {
      var s, d := Single(line, i, single, double), Double(line, i, single, double);
      if s || d || !CommentHere(line, begin, i) {
        CommentAtIs(line, begin, i + 1, s, d);
      }
    }
  }

  lemma {:induction false} TrimEndLast(line: string, begin: nat, e: nat)
    requires begin <= e <= |line|
    ensures var r := TrimEnd(line, begin, e); (r > begin ==> !Space(line[r - 1])) && forall j | r <= j < e :: Space(line[j])
  {
    if e > begin && Space(line[e - 1]) {
      TrimEndLast(line, begin, e - 1);
    }
  }

  /** Where the value lies in its line. */
  lemma ValueLies(line: string)
    requires !KindOf(line).Other?
    ensures line[Colon(line)] == ':' && forall j | Colon(line) < j < Begin(line) :: Blank(line[j])
    ensures var c := Comment(line); c < |line| ==> CommentHere(line, Begin(line), c)
    ensures var e := End(line);
            (e > Begin(line) ==> !Space(line[e - 1])) && forall j | e <= j < Comment(line) :: Space(line[j])
  {
    IndexOfFirst(line, ':', First(line));
    SkipBlanksFirst(line, Colon(line) + 1);
    CommentAtIs(line, Begin(line), Begin(line), false, false);
    TrimEndLast(line, Begin(line), Comment(line));
  }

  lemma {:induction false} SkipSpaceIs(s: string, i: nat, r: nat)
    requires i <= r <= |s| && (r < |s| ==> !Space(s[r])) && forall j | i <= j < r :: Space(s[j])
    ensures SkipSpace(s, i) == r
    decreases r - i
  {
    if i == r {
    } else {
      SkipSpaceIs(s, i + 1, r);
    }
  }

  lemma {:induction false} IndexOfIs(s: string, c: char, i: nat, r: nat)
    requires i <= r < |s| && s[r] == c && forall j | i <= j < r :: s[j] != c
    ensures IndexOf(s, c, i) == r
    decreases r - i
  {
    if i == r {
    } else {
      IndexOfIs(s, c, i + 1, r);
    }
  }

  lemma {:induction false} SkipBlanksIs(s: string, i: nat, r: nat)
    requires i <= r <= |s| && (r < |s| ==> !Blank(s[r])) && forall j | i <= j < r :: Blank(s[j])
    ensures SkipBlanks(s, i) == r
    decreases r - i
  {
    if i == r {
    } else {
      SkipBlanksIs(s, i + 1, r);
    }
  }

  lemma {:induction false} TrimEndIs(line: string, begin: nat, e: nat, r: nat)
    requires begin <= r <= e <= |line| && (r > begin ==> !Space(line[r - 1])) && forall j | r <= j < e :: Space(line[j])
    ensures TrimEnd(line, begin, e) == r
  {
    if e > r {
      TrimEndIs(line, begin, e - 1, r);
    }
  }

  /** Lines that agree up to the colon are of the same kind. */
  lemma KindByPrefix(line: string, other: string)
    requires !KindOf(line).Other? && Colon(line) < |other| && other[..Colon(line) + 1] == line[..Colon(line) + 1]
    ensures KindOf(other) == KindOf(line) && Colon(other) == Colon(line)
  {
    var f, c := First(line), Colon(line);
    assert forall j | 0 <= j <= c :: other[j] == line[j] by {
      forall j | 0 <= j <= c ensures other[j] == line[j] {
        assert other[..c + 1][j] == line[..c + 1][j];
      }
    }
    SkipSpaceFirst(line, 0);
    IndexOfFirst(line, ':', f);
    SkipSpaceIs(other, 0, f);
    IndexOfIs(other, ':', f, c);
    assert other[f..c] == line[f..c];
  }

  lemma ReplaceKeepsKind(line: string, value: string)
    requires !KindOf(line).Other?
    ensures KindOf(Replace(line, value)) == KindOf(line) && Colon(Replace(line, value)) == Colon(line)
  {
    var m := Replace(line, value);
    assert m[..Colon(line) + 1] == line[..Colon(line) + 1];
    KindByPrefix(line, m);
  }

  // ---- where the masked value is found ----

  /** The value is empty and a comment follows at once. */
  predicate Bare(line: string)
    requires !KindOf(line).Other?
  {
    Begin(line) < |line| && line[Begin(line)] == '#'
  }

  /** Characters that neither change the quote flags nor start a comment. */
  ghost predicate Quiet(line: string, i: nat, j: nat, double: bool)
    requires i <= j <= |line|
  {
    forall k | i <= k < j :: line[k] != '\'' && line[k] != '"' && (line[k] != '#' || double)
  }

  lemma {:induction false} CommentSkips(line: string, begin: nat, i: nat, j: nat, double: bool)
    requires begin <= i <= j <= |line| && Quiet(line, i, j, double)
    ensures CommentAt(line, begin, i, false, double) == CommentAt(line, begin, j, false, double)
    decreases j - i
  {
    if i == j {
    } else {
      CommentSkips(line, begin, i + 1, j, double);
    }
  }

  /** A double-quoted text with no quote and no backslash inside. */
  ghost predicate Quote(q: string) {
    && |q| > 2 && q[0] == '"' && q[|q| - 1] == '"' && q[|q| - 2] != '\\'
    && forall k | 0 < k < |q| - 1 :: q[k] != '\'' && q[k] != '"'
  }

  lemma QuotedIsQuote()
    ensures Quote(QUOTED) && |QUOTED| == 22
  {
  }

  lemma Splice(line: string, b: nat, e: nat, q: string, m: string)
    requires b <= e <= |line| && m == line[..b] + q + line[e..]
    ensures m[..b] == line[..b] && m[b..b + |q|] == q && m[b + |q|..] == line[e..]
    ensures m[..b] + line[b..e] + m[b + |q|..] == line
  {
  }

  lemma SpliceAt(line: string, b: nat, e: nat, q: string, m: string)
    requires b <= e <= |line| && m == line[..b] + q + line[e..]
    ensures forall j | 0 <= j < b :: m[j] == line[j]
    ensures forall j | b <= j < b + |q| :: m[j] == q[j - b]
    ensures forall j | b + |q| <= j < |m| :: m[j] == line[j - (b + |q| - e)]
  {
  }

  /** A quoted text at begin is skipped as one string. */
  lemma QuoteIsSkipped(m: string, begin: nat, q: string)
    requires 0 < begin && begin + |q| <= |m| && m[begin - 1] != '\\' && Quote(q)
    requires forall k | begin <= k < begin + |q| :: m[k] == q[k - begin]
    ensures CommentAt(m, begin, begin, false, false) == CommentAt(m, begin, begin + |q|, false, false)
  {
    var e := begin + |q| - 1;
    assert Quiet(m, begin + 1, e, true);
    CommentSkips(m, begin, begin + 1, e, true);
  }

  lemma BeginIs(m: string, b: nat, q: string)
    requires !KindOf(m).Other? && Colon(m) < b && b + |q| <= |m| && Quote(q)
    requires forall j | Colon(m) < j < b :: Blank(m[j])
    requires forall k | b <= k < b + |q| :: m[k] == q[k - b]
    ensures Begin(m) == b && Comment(m) == CommentAt(m, b, b + |q|, false, false)
  {
    SkipBlanksIs(m, Colon(m) + 1, b);
    IndexOfFirst(m, ':', First(m));
    QuoteIsSkipped(m, b, q);
  }

  lemma BlanksBefore(line: string)
    requires !KindOf(line).Other?
    ensures forall j | Colon(line) < j < Begin(line) :: Blank(line[j])
  {
    SkipBlanksFirst(line, Colon(line) + 1);
  }

  lemma SplicedBegin(line: string, b: nat, e: nat, q: string, m: string)
    requires b <= e <= |line| && m == line[..b] + q + line[e..] && Quote(q)
    requires !KindOf(m).Other? && Colon(m) < b && forall j | Colon(m) < j < b :: Blank(line[j])
    ensures Begin(m) == b && Comment(m) == CommentAt(m, b, b + |q|, false, false)
  {
    SpliceAt(line, b, e, q, m);
    BeginIs(m, b, q);
  }

  lemma QuoteBegin(line: string, q: string)
    requires !KindOf(line).Other? && Quote(q)
    ensures !KindOf(Replace(line, q)).Other? && Begin(Replace(line, q)) == Begin(line)
    ensures Comment(Replace(line, q)) == CommentAt(Replace(line, q), Begin(line), Begin(line) + |q|, false, false)
  {
    var m, b := Replace(line, q), Begin(line);
    ReplaceKeepsKind(line, q);
    BlanksBefore(line);
    SplicedBegin(line, b, End(line), q, m);
  }

  /** Where there is a value, or no comment at once, the quoted text is the value of the new line. */
  lemma QuoteEnd(line: string, q: string)
    requires !KindOf(line).Other? && !Bare(line) && Quote(q)
    ensures !KindOf(Replace(line, q)).Other? && Begin(Replace(line, q)) == Begin(line)
    ensures End(Replace(line, q)) == Begin(line) + |q|
  {
    var m, b, e, c := Replace(line, q), Begin(line), End(line), Comment(line);
    QuoteBegin(line, q);
    SpliceAt(line, b, e, q, m);
    ValueLies(line);
    CommentStops(line, m, b, e, c, |q|);
    EndIs(m, b + |q|);
  }

  lemma EndIs(m: string, e: nat)
    requires !KindOf(m).Other? && Begin(m) < e <= Comment(m)
    requires !Space(m[e - 1]) && forall j | e <= j < Comment(m) :: Space(m[j])
    ensures End(m) == e
  {
    TrimEndIs(m, Begin(m), Comment(m), e);
  }

  lemma CommentStops(line: string, m: string, b: nat, e: nat, c: nat, n: nat)
    requires b <= e <= c <= |line| && |m| == |line| + b + n - e
    requires forall j | b + n <= j < |m| :: m[j] == line[j - (b + n - e)]
    requires c < |line| ==> CommentHere(line, b, c) && b < c
    requires (e > b ==> !Space(line[e - 1])) && forall j | e <= j < c :: Space(line[j])
    ensures CommentAt(m, b, b + n, false, false) == c - e + b + n
    ensures forall j | b + n <= j < c - e + b + n :: Space(m[j])
  {
    var d := b + n - e;
    CommentSkips(m, b, b + n, c + d, false);
    if c < |line| {
      assert e < c by {
        assert Space(line[c - 1]);
      }
      assert m[c + d] == '#' && m[c + d - 1] == line[c - 1];
    }
  }

  /** Behind it a comment at once is no comment any more, so more than the quoted text is the value. */
  lemma QuoteBare(line: string, q: string)
    requires !KindOf(line).Other? && Bare(line) && Quote(q)
    ensures !KindOf(Replace(line, q)).Other? && |Value(Replace(line, q))| > |q|
  {
    var m, b, n := Replace(line, q), Begin(line), |q|;
    QuoteBegin(line, q);
    assert Comment(line) == b && End(line) == b;
    SpliceAt(line, b, b, q, m);
    assert m[b + n] == '#' && m[b + n - 1] == '"';
    assert CommentAt(m, b, b + n, false, false) > b + n;
    TrimEndLast(m, b, Comment(m));
    assert End(m) <= b + n ==> Space(m[b + n]);
  }

  lemma QuoteValue(line: string, q: string)
    requires !KindOf(line).Other? && !Bare(line) && Quote(q)
    ensures !KindOf(Replace(line, q)).Other? && Value(Replace(line, q)) == q
    ensures Replace(Replace(line, q), Value(line)) == line
  {
    QuoteEnd(line, q);
    Splice(line, Begin(line), End(line), q, Replace(line, q));
  }

  function Masked(line: string): string
    requires !KindOf(line).Other?
  {
    Replace(line, QUOTED)
  }

  /** Putting the value back gives the line back. */
  lemma UnmaskLine(line: string)
    requires !KindOf(line).Other? && !Bare(line)
    ensures !KindOf(Masked(line)).Other? && Value(Masked(line)) == QUOTED
    ensures Replace(Masked(line), Value(line)) == line
  {
    QuotedIsQuote();
    QuoteValue(line, QUOTED);
  }

  predicate SentinelForm(v: string) { v == SENTINEL || v == QUOTED || v == "'__INFERDECK_SECRET__'" }

  lemma FormsAreShort(v: string)
    requires SentinelForm(v)
    ensures |v| <= 22
  {
  }

  /** In front of a comment that follows at once the masked value cannot be found again. */
  lemma BareIsLost(line: string)
    requires !KindOf(line).Other? && Bare(line)
    ensures !KindOf(Masked(line)).Other? && !SentinelForm(Value(Masked(line)))
  {
    QuotedIsQuote();
    QuoteBare(line, QUOTED);
    if SentinelForm(Value(Masked(line))) {
      FormsAreShort(Value(Masked(line)));
    }
  }

  predicate Contains(s: string, pat: string) { exists i :: 0 <= i <= |s| - |pat| && s[i..][..|pat|] == pat }

  lemma ContainsMiddle(a: string, pat: string, b: string)
    ensures Contains(a + pat + b, pat)
  {
    var s := a + pat + b;
    assert s[|a|..][..|pat|] == pat;
  }

  lemma MaskedHasSentinel(line: string)
    requires !KindOf(line).Other?
    ensures Contains(Masked(line), SENTINEL)
  {
    QuotedContains(line[..Begin(line)], line[End(line)..]);
  }

  lemma QuotedContains(a: string, b: string)
    ensures Contains(a + QUOTED + b, SENTINEL)
  {
    assert QUOTED == "\"" + SENTINEL + "\"";
    Regroup(a, "\"", SENTINEL, b);
    ContainsMiddle(a + "\"", SENTINEL, "\"" + b);
  }

  lemma Regroup(a: string, q: string, s: string, b: string)
    ensures a + (q + s + q) + b == (a + q) + s + (q + b)
  {
  }
}
