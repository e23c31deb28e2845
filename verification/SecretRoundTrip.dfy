/** restore(mask(text), text) gives the text back, and exactly when. */
module SecretRoundTrip {
  import opened SecretLine
  import opened ConfigSecrets

  // ---- replacing in the text is replacing in the line ----

  ghost function Edited(line: string, b: nat, e: nat, v: string): string
    requires b <= e <= |line|
  {
    line[..b] + v + line[e..]
  }

  lemma ShiftEdit(front: string, t: string, b: nat, e: nat, v: string)
    requires b <= e <= |t|
    ensures Edited(front + t, |front| + b, |front| + e, v) == front + Edited(t, b, e, v)
  {
    assert (front + t)[..|front| + b] == front + t[..b];
    assert (front + t)[|front| + e..] == t[e..];
  }

  lemma EditFront(line: string, rest: string, b: nat, e: nat, v: string)
    requires b <= e <= |line|
    ensures Edited(line + rest, b, e, v) == Edited(line, b, e, v) + rest
  {
    assert (line + rest)[..b] == line[..b];
    assert (line + rest)[e..] == line[e..] + rest;
  }

  lemma {:induction false} OffsetFits(ls: seq<string>, i: nat)
    requires i < |ls|
    ensures Offset(ls, i) + |ls[i]| <= |Join(ls)|
  {
    if i == 0 {
    } else {
      OffsetFits(ls[1..], i - 1);
    }
  }

  lemma JoinHead(line: string, ls: seq<string>)
    requires ls != [] && |ls| > 1 && ls[0] == line
    ensures Join(ls) == (line + "\n") + Join(ls[1..])
  {
    assert line + ("\n" + Join(ls[1..])) == (line + "\n") + Join(ls[1..]);
  }

  lemma {:induction false} EditLine(ls: seq<string>, i: nat, b: nat, e: nat, v: string)
    requires i < |ls| && b <= e <= |ls[i]|
    ensures Offset(ls, i) + e <= |Join(ls)|
    ensures Edited(Join(ls), Offset(ls, i) + b, Offset(ls, i) + e, v) == Join(ls[i := Edited(ls[i], b, e, v)])
  {
    OffsetFits(ls, i);
    var ms := ls[i := Edited(ls[i], b, e, v)];
    if i == 0 {
      EditFirst(ls, ms, b, e, v);
    } else {
      assert ms[1..] == ls[1..][i - 1 := Edited(ls[i], b, e, v)];
      EditLine(ls[1..], i - 1, b, e, v);
      EditBehind(ls, ms, Offset(ls[1..], i - 1) + b, Offset(ls[1..], i - 1) + e, v);
    }
  }

  lemma EditFirst(ls: seq<string>, ms: seq<string>, b: nat, e: nat, v: string)
    requires ls != [] && b <= e <= |ls[0]| && ms == ls[0 := Edited(ls[0], b, e, v)]
    ensures e <= |Join(ls)| && Edited(Join(ls), b, e, v) == Join(ms)
  {
    if |ls| > 1 {
      assert ms[1..] == ls[1..];
      EditFront(ls[0], "\n" + Join(ls[1..]), b, e, v);
    }
  }

  /** An edit behind the first line. */
  lemma EditBehind(ls: seq<string>, ms: seq<string>, b: nat, e: nat, v: string)
    requires |ls| == |ms| > 1 && ms[0] == ls[0] && b <= e <= |Join(ls[1..])| && Edited(Join(ls[1..]), b, e, v) == Join(ms[1..])
    ensures |ls[0]| + 1 + e <= |Join(ls)| && Edited(Join(ls), |ls[0]| + 1 + b, |ls[0]| + 1 + e, v) == Join(ms)
  {
    JoinHead(ls[0], ls);
    JoinHead(ls[0], ms);
    ShiftEdit(ls[0] + "\n", Join(ls[1..]), b, e, v);
  }

  lemma {:induction false} LineInText(ls: seq<string>, i: nat)
    requires i < |ls|
    ensures Offset(ls, i) + |ls[i]| <= |Join(ls)|
    ensures Join(ls)[Offset(ls, i)..Offset(ls, i) + |ls[i]|] == ls[i]
    ensures Offset(ls, i) + |ls[i]| < |Join(ls)| ==> Join(ls)[Offset(ls, i) + |ls[i]|] == '\n'
  {
    if i == 0 {
      if |ls| > 1 {
        assert Join(ls)[..|ls[0]|] == ls[0];
      }
    } else {
      LineInText(ls[1..], i - 1);
      JoinHead(ls[0], ls);
      SliceShift(ls[0] + "\n", Join(ls[1..]), Offset(ls[1..], i - 1), |ls[i]|);
    }
  }

  lemma SliceShift(front: string, t: string, o: nat, n: nat)
    requires o + n <= |t|
    ensures (front + t)[|front| + o..|front| + o + n] == t[o..o + n]
    ensures o + n < |t| ==> (front + t)[|front| + o + n] == t[o + n]
  {
  }

  // ---- masking and restoring, line by line ----

  ghost function MaskOne(ls: seq<string>, f: Field): (ms: seq<string>)
    ensures |ms| == |ls|
  {
    var i := Hit(ls, None, f);
    if i < |ls| then ls[i := Masked(ls[i])] else ls
  }

  ghost function MaskLines(ls: seq<string>, fs: seq<Field>): (ms: seq<string>)
    ensures |ms| == |ls|
    decreases |fs|
  {
    if fs == [] then ls else MaskLines(MaskOne(ls, fs[0]), fs[1..])
  }

  /** A line to restore: m as submitted, l as it is now. */
  ghost function RestoreLine(m: string, l: string): string
    requires !KindOf(m).Other? && !KindOf(l).Other?
  {
    if SentinelForm(Value(m)) then Replace(m, Value(l)) else m
  }

  ghost function RestoreOne(ms: seq<string>, ls: seq<string>, f: Field): (rs: seq<string>)
    ensures |rs| == |ms|
  {
    var i, j := Hit(ms, None, f), Hit(ls, None, f);
    if i < |ms| && j < |ls| then ms[i := RestoreLine(ms[i], ls[j])] else ms
  }

  lemma NoNewline(a: string, b: string)
    requires '\n' !in a && '\n' !in b
    ensures '\n' !in a + b
  {
  }

  lemma ReplaceClean(line: string, v: string)
    requires !KindOf(line).Other? && '\n' !in line && '\n' !in v
    ensures '\n' !in Replace(line, v)
  {
    NoNewline(line[..Begin(line)], v);
    NoNewline(line[..Begin(line)] + v, line[End(line)..]);
  }

  lemma UpdateClean(ls: seq<string>, i: nat, line: string)
    requires Clean(ls) && i < |ls| && '\n' !in line
    ensures Clean(ls[i := line])
  {
  }

  lemma UpdateKinds(ls: seq<string>, ms: seq<string>, i: nat, line: string)
    requires SameKinds(ls, ms) && i < |ls| && KindOf(line) == KindOf(ls[i])
    ensures SameKinds(ls, ms[i := line])
  {
  }

  lemma KindsTrans(ls: seq<string>, ms: seq<string>, rs: seq<string>)
    requires SameKinds(ls, ms) && SameKinds(ms, rs)
    ensures SameKinds(ls, rs)
  {
  }

  /** One field: the text operation is the line operation, and nothing else changes. */
  lemma MaskOneText(ls: seq<string>, f: Field)
    requires Clean(ls)
    ensures Clean(MaskOne(ls, f)) && SameKinds(ls, MaskOne(ls, f))
    ensures MaskField(Join(ls), f) == Join(MaskOne(ls, f))
  {
    FindByLines(ls, f);
    var i := Hit(ls, None, f);
    if i < |ls| {
      var line := ls[i];
      PutInLine(ls, f, QUOTED);
      ReplaceKeepsKind(line, QUOTED);
      QuotedClean();
      ReplaceClean(line, QUOTED);
      UpdateClean(ls, i, Masked(line));
      UpdateKinds(ls, ls, i, Masked(line));
    }
  }

  lemma QuotedClean()
    ensures '\n' !in QUOTED
  {
  }

  lemma {:induction false} MaskAllText(ls: seq<string>, fs: seq<Field>)
    requires Clean(ls)
    ensures Clean(MaskLines(ls, fs)) && SameKinds(ls, MaskLines(ls, fs))
    ensures MaskText(Join(ls), fs) == Join(MaskLines(ls, fs))
    decreases |fs|
  {
    if fs == [] {
    } else {
      MaskOneText(ls, fs[0]);
      MaskAllText(MaskOne(ls, fs[0]), fs[1..]);
      KindsTrans(ls, MaskOne(ls, fs[0]), MaskLines(ls, fs));
    }
  }

  ghost predicate HitBy(ls: seq<string>, fs: seq<Field>, i: nat) {
    exists k :: 0 <= k < |fs| && Hit(ls, None, fs[k]) == i
  }

  ghost predicate Distinct(fs: seq<Field>) { forall j, k | 0 <= j < k < |fs| :: fs[j] != fs[k] }

  lemma HitByTail(ls: seq<string>, fs: seq<Field>, i: nat)
    requires fs != [] && Distinct(fs) && i < |ls|
    ensures HitBy(ls, fs, i) <==> Hit(ls, None, fs[0]) == i || HitBy(ls, fs[1..], i)
    ensures Hit(ls, None, fs[0]) == i ==> !HitBy(ls, fs[1..], i)
  {
    if HitBy(ls, fs, i) && Hit(ls, None, fs[0]) != i {
      var k :| 0 <= k < |fs| && Hit(ls, None, fs[k]) == i;
      assert fs[1..][k - 1] == fs[k];
    }
    if HitBy(ls, fs[1..], i) {
      var k :| 0 <= k < |fs[1..]| && Hit(ls, None, fs[1..][k]) == i;
      assert fs[k + 1] == fs[1..][k];
      HitsDistinct(ls, fs[k + 1], fs[0]);
    }
  }

  lemma SameHitBy(ls: seq<string>, ms: seq<string>, fs: seq<Field>, i: nat)
    requires SameKinds(ls, ms)
    ensures HitBy(ls, fs, i) == HitBy(ms, fs, i)
  {
    forall k | 0 <= k < |fs| ensures Hit(ls, None, fs[k]) == Hit(ms, None, fs[k]) {
      SameHits(ls, ms, None, fs[k]);
    }
  }

  /** Masking changes the lines of the fields, each once, and no other line. */
  lemma {:induction false} MaskLinesAt(ls: seq<string>, fs: seq<Field>, i: nat)
    requires Clean(ls) && Distinct(fs) && i < |ls|
    ensures !HitBy(ls, fs, i) ==> MaskLines(ls, fs)[i] == ls[i]
    ensures HitBy(ls, fs, i) ==> !KindOf(ls[i]).Other? && MaskLines(ls, fs)[i] == Masked(ls[i])
    decreases |fs|
  {
    if fs == [] {
    } else {
      var ms := MaskOne(ls, fs[0]);
      MaskOneText(ls, fs[0]);
      SameHitBy(ls, ms, fs[1..], i);
      HitByTail(ls, fs, i);
      MaskLinesAt(ms, fs[1..], i);
    }
  }

  // ---- restoring ----

  lemma SubSlice(t: string, o: nat, line: string, b: nat, e: nat)
    requires o + |line| <= |t| && b <= e <= |line| && t[o..o + |line|] == line
    ensures t[o + b..o + e] == line[b..e]
  {
    forall k | b <= k < e ensures t[o + k] == line[k] {
      assert t[o..o + |line|][k] == t[o + k];
    }
  }

  /** The text at the place the scanner finds is the value in the field's line. */
  lemma SpanOfValue(ls: seq<string>, f: Field)
    requires Clean(ls)
    ensures var i := Hit(ls, None, f);
            match Find(Join(ls), f)
            case None => i == |ls|
            case Some(s) => i < |ls| && Join(ls)[s.begin..s.end] == Value(ls[i])
  {
    FindByLines(ls, f);
    var i := Hit(ls, None, f);
    if i < |ls| {
      InText(ls, i, Begin(ls[i]), End(ls[i]));
    }
  }

  lemma InText(ls: seq<string>, i: nat, b: nat, e: nat)
    requires i < |ls| && b <= e <= |ls[i]|
    ensures Offset(ls, i) + e <= |Join(ls)| && Join(ls)[Offset(ls, i) + b..Offset(ls, i) + e] == ls[i][b..e]
  {
    LineInText(ls, i);
    SubSlice(Join(ls), Offset(ls, i), ls[i], b, e);
  }

  lemma PutInLine(ls: seq<string>, f: Field, v: string)
    requires Clean(ls) && Hit(ls, None, f) < |ls|
    ensures var i := Hit(ls, None, f);
            Find(Join(ls), f).Some? && Put(Join(ls), Find(Join(ls), f).value, v) == Join(ls[i := Replace(ls[i], v)])
  {
    FindByLines(ls, f);
    var i := Hit(ls, None, f);
    EditLine(ls, i, Begin(ls[i]), End(ls[i]), v);
  }

  /** Restoring one field in the text, told by the lines. */
  lemma RestoreFieldText(ms: seq<string>, ls: seq<string>, f: Field)
    requires Clean(ms) && Clean(ls)
    ensures RestoreField(Join(ms), Join(ls), f) == Join(RestoreOne(ms, ls, f))
  {
    SpanOfValue(ms, f);
    SpanOfValue(ls, f);
    var i, j := Hit(ms, None, f), Hit(ls, None, f);
    if i < |ms| && j < |ls| {
      PutInLine(ms, f, Value(ls[j]));
      assert ms[i := ms[i]] == ms;
    }
  }

  lemma RestoreOneShape(ms: seq<string>, ls: seq<string>, f: Field)
    requires Clean(ms) && Clean(ls)
    ensures Clean(RestoreOne(ms, ls, f)) && SameKinds(ms, RestoreOne(ms, ls, f))
  {
    var i, j := Hit(ms, None, f), Hit(ls, None, f);
    if i < |ms| && j < |ls| {
      var m, l := ms[i], ls[j];
      ReplaceKeepsKind(m, Value(l));
      ReplaceClean(m, Value(l));
      UpdateClean(ms, i, RestoreLine(m, l));
      UpdateKinds(ms, ms, i, RestoreLine(m, l));
    }
  }

  /** The line of a field after restoring: as submitted, but with the current value where a sentinel stands. */
  ghost function RestoredTo(ms: seq<string>, ls: seq<string>, f: Field): string
    requires Hit(ms, None, f) < |ms|
  {
    var i, j := Hit(ms, None, f), Hit(ls, None, f);
    if j < |ls| then RestoreLine(ms[i], ls[j]) else ms[i]
  }

  /** Restoring, line by line, whatever was submitted: each field's line is restored from the current text, no other
      line changes. */
  lemma {:induction false} RestoreAllText(ms: seq<string>, ls: seq<string>, fs: seq<Field>) returns (rs: seq<string>)
    requires Clean(ms) && Clean(ls) && Distinct(fs)
    ensures |rs| == |ms| && RestoreFields(Join(ms), Join(ls), fs) == Join(rs)
    ensures forall i | 0 <= i < |ms| && !HitBy(ms, fs, i) :: rs[i] == ms[i]
    ensures forall k | 0 <= k < |fs| && Hit(ms, None, fs[k]) < |ms| :: rs[Hit(ms, None, fs[k])] == RestoredTo(ms, ls, fs[k])
    decreases |fs|
  {
    if fs == [] {
      rs := ms;
    } else {
      RestoreFieldText(ms, ls, fs[0]);
      RestoreOneShape(ms, ls, fs[0]);
      var ns := RestoreOne(ms, ls, fs[0]);
      rs := RestoreAllText(ns, ls, fs[1..]);
      RestoredRest(ms, ls, fs, ns, rs);
    }
  }

  lemma RestoredRest(ms: seq<string>, ls: seq<string>, fs: seq<Field>, ns: seq<string>, rs: seq<string>)
    requires Clean(ms) && Clean(ls) && Distinct(fs) && fs != [] && ns == RestoreOne(ms, ls, fs[0]) && SameKinds(ms, ns)
    requires |rs| == |ns|
    requires forall i | 0 <= i < |ns| && !HitBy(ns, fs[1..], i) :: rs[i] == ns[i]
    requires forall k | 0 <= k < |fs[1..]| && Hit(ns, None, fs[1..][k]) < |ns| ::
               rs[Hit(ns, None, fs[1..][k])] == RestoredTo(ns, ls, fs[1..][k])
    ensures forall i | 0 <= i < |ms| && !HitBy(ms, fs, i) :: rs[i] == ms[i]
    ensures forall k | 0 <= k < |fs| && Hit(ms, None, fs[k]) < |ms| :: rs[Hit(ms, None, fs[k])] == RestoredTo(ms, ls, fs[k])
  {
    forall i | 0 <= i < |ms| && !HitBy(ms, fs, i) ensures rs[i] == ms[i] {
      HitByTail(ms, fs, i);
      SameHitBy(ms, ns, fs[1..], i);
    }
    forall k | 0 <= k < |fs| && Hit(ms, None, fs[k]) < |ms| ensures rs[Hit(ms, None, fs[k])] == RestoredTo(ms, ls, fs[k]) {
      var i := Hit(ms, None, fs[k]);
      HitByTail(ms, fs, i);
      SameHitBy(ms, ns, fs[1..], i);
      SameHits(ms, ns, None, fs[k]);
      if k > 0 {
        assert fs[1..][k - 1] == fs[k];
        HitsDistinct(ms, fs[k], fs[0]);
      }
    }
  }

  // ---- what was edited ----

  lemma SentinelFormContains(v: string)
    requires SentinelForm(v)
    ensures Contains(v, SENTINEL)
  {
    if v == SENTINEL {
      assert v[0..][..|SENTINEL|] == SENTINEL;
    } else {
      assert v[1..][..|SENTINEL|] == SENTINEL;
    }
  }

  lemma {:induction false} NothingToRestore(submitted: string, current: string, fs: seq<Field>)
    requires !Contains(submitted, SENTINEL)
    ensures RestoreFields(submitted, current, fs) == submitted
    decreases |fs|
  {
    if fs == [] {
    } else {
      var s := Find(submitted, fs[0]);
      if s.Some? && SentinelForm(submitted[s.value.begin..s.value.end]) {
        SentinelFormContains(submitted[s.value.begin..s.value.end]);
        ContainsInSlice(submitted, s.value.begin, submitted[s.value.begin..s.value.end], SENTINEL);
      }
      NothingToRestore(submitted, current, fs[1..]);
    }
  }

  /** A text without sentinels is taken as it was submitted. */
  lemma EditsPass(submitted: string, current: string)
    requires !Contains(submitted, SENTINEL)
    ensures RestoreText(submitted, current) == Some(submitted)
  {
    NothingToRestore(submitted, current, FIELDS);
  }

  /** Restoring any submitted text against any current one: the line of a field in which a sentinel stands gets the value
      that the current text has for that field, if it has the field; every other line is as submitted.  The textual path
      gives up exactly if a sentinel is left. */
  lemma RestoreKeepsEdits(submitted: string, current: string) returns (rs: seq<string>)
    ensures var ms, ls := Lines(submitted), Lines(current);
            && |rs| == |ms| && RestoreText(submitted, current) == (if Contains(Join(rs), SENTINEL) then None else Some(Join(rs)))
            && (forall i | 0 <= i < |ms| && !HitBy(ms, FIELDS, i) :: rs[i] == ms[i])
            && forall k | 0 <= k < |FIELDS| && Hit(ms, None, FIELDS[k]) < |ms| ::
                 var i, j := Hit(ms, None, FIELDS[k]), Hit(ls, None, FIELDS[k]);
                 rs[i] == if j < |ls| && SentinelForm(Value(ms[i])) then Replace(ms[i], Value(ls[j])) else ms[i]
  {
    LinesJoin(submitted);
    LinesJoin(current);
    FieldsDistinct();
    rs := RestoreAllText(Lines(submitted), Lines(current), FIELDS);
  }

  // ---- the round trip ----

  /** The field is there, its value is empty, and a comment follows at once. */
  predicate BareComment(text: string, f: Field) {
    match Find(text, f) case None => false case Some(s) => s.begin < |text| && text[s.begin] == '#'
  }

  lemma BareByLines(ls: seq<string>, f: Field)
    requires Clean(ls)
    ensures var i := Hit(ls, None, f);
            BareComment(Join(ls), f) <==> i < |ls| && Bare(ls[i])
  {
    FindByLines(ls, f);
    var i := Hit(ls, None, f);
    if i < |ls| {
      LineInText(ls, i);
      CharInLine(Join(ls), Offset(ls, i), ls[i], Begin(ls[i]), '#');
    }
  }

  lemma CharInLine(t: string, o: nat, line: string, b: nat, c: char)
    requires o + |line| <= |t| && b <= |line| && t[o..o + |line|] == line && c != '\n'
    requires o + |line| < |t| ==> t[o + |line|] == '\n'
    ensures (o + b < |t| && t[o + b] == c) <==> (b < |line| && line[b] == c)
  {
    if b < |line| {
      assert t[o..o + |line|][b] == t[o + b];
    }
  }

  ghost predicate Restorable(text: string) {
    !Contains(text, SENTINEL) && forall k | 0 <= k < |FIELDS| :: !BareComment(text, FIELDS[k])
  }

  lemma FieldsDistinct()
    ensures Distinct(FIELDS)
  {
    assert FIELDS[0].section != FIELDS[1].section && FIELDS[2].section != FIELDS[0].section;
    assert FIELDS[2].section[0] != FIELDS[1].section[0];
  }

  /** A line whose sentinel is found gets its value back, any other keeps the sentinel. */
  lemma RestoreMasked(line: string)
    requires !KindOf(line).Other?
    ensures !KindOf(Masked(line)).Other?
    ensures RestoreLine(Masked(line), line) == if Bare(line) then Masked(line) else line
  {
    if Bare(line) {
      BareIsLost(line);
    } else {
      UnmaskLine(line);
    }
  }

  lemma ContainsInJoin(ls: seq<string>, i: nat, pat: string)
    requires i < |ls| && Contains(ls[i], pat)
    ensures Contains(Join(ls), pat)
  {
    LineInText(ls, i);
    ContainsInSlice(Join(ls), Offset(ls, i), ls[i], pat);
  }

  lemma ContainsInSlice(t: string, o: nat, line: string, pat: string)
    requires o + |line| <= |t| && t[o..o + |line|] == line && Contains(line, pat)
    ensures Contains(t, pat)
  {
    var k :| 0 <= k <= |line| - |pat| && line[k..][..|pat|] == pat;
    SubSlice(t, o, line, k, k + |pat|);
    assert line[k..][..|pat|] == line[k..k + |pat|];
    assert t[o + k..][..|pat|] == t[o + k..o + k + |pat|];
  }

  lemma RestoredAt(ls: seq<string>, ms: seq<string>, rs: seq<string>, f: Field)
    requires SameKinds(ls, ms) && |rs| == |ms| && Hit(ls, None, f) < |ls|
    requires Hit(ms, None, f) < |ms| ==> rs[Hit(ms, None, f)] == RestoredTo(ms, ls, f)
    ensures var i := Hit(ls, None, f);
            !KindOf(ls[i]).Other? && !KindOf(ms[i]).Other? && rs[i] == RestoreLine(ms[i], ls[i])
  {
    SameHits(ls, ms, None, f);
  }

  /** Restoring a text that has the same lines of each kind. */
  lemma RestoredMasked(ls: seq<string>, ms: seq<string>, rs: seq<string>)
    requires SameKinds(ls, ms) && |rs| == |ms|
    requires forall i | 0 <= i < |ms| && !HitBy(ms, FIELDS, i) :: rs[i] == ms[i]
    requires forall k | 0 <= k < |FIELDS| && Hit(ms, None, FIELDS[k]) < |ms| :: rs[Hit(ms, None, FIELDS[k])] == RestoredTo(ms, ls, FIELDS[k])
    ensures |rs| == |ls| && forall i | 0 <= i < |ls| && !HitBy(ls, FIELDS, i) :: rs[i] == ms[i]
    ensures forall i | 0 <= i < |ls| && HitBy(ls, FIELDS, i) ::
              !KindOf(ls[i]).Other? && !KindOf(ms[i]).Other? && rs[i] == RestoreLine(ms[i], ls[i])
  {
    forall i | 0 <= i < |ls|
      ensures !HitBy(ls, FIELDS, i) ==> rs[i] == ms[i]
      ensures HitBy(ls, FIELDS, i) ==> !KindOf(ls[i]).Other? && !KindOf(ms[i]).Other? && rs[i] == RestoreLine(ms[i], ls[i])
    {
      SameHitBy(ls, ms, FIELDS, i);
      if HitBy(ls, FIELDS, i) {
        var k :| 0 <= k < |FIELDS| && Hit(ls, None, FIELDS[k]) == i;
        RestoredAt(ls, ms, rs, FIELDS[k]);
      }
    }
  }

  /** The lines after masking and restoring: as before, except for bare fields. */
  lemma RestoredLines(ls: seq<string>) returns (rs: seq<string>)
    requires Clean(ls)
    ensures |rs| == |ls| && RestoreFields(MaskText(Join(ls), FIELDS), Join(ls), FIELDS) == Join(rs)
    ensures forall i | 0 <= i < |ls| && !HitBy(ls, FIELDS, i) :: rs[i] == ls[i]
    ensures forall i | 0 <= i < |ls| && HitBy(ls, FIELDS, i) ::
              !KindOf(ls[i]).Other? && rs[i] == if Bare(ls[i]) then Masked(ls[i]) else ls[i]
  {
    FieldsDistinct();
    MaskAllText(ls, FIELDS);
    var ms := MaskLines(ls, FIELDS);
    rs := RestoreAllText(ms, ls, FIELDS);
    RestoredMasked(ls, ms, rs);
    forall i | 0 <= i < |ls|
      ensures !HitBy(ls, FIELDS, i) ==> rs[i] == ls[i]
      ensures HitBy(ls, FIELDS, i) ==> !KindOf(ls[i]).Other? && rs[i] == if Bare(ls[i]) then Masked(ls[i]) else ls[i]
    {
      MaskLinesAt(ls, FIELDS, i);
      if HitBy(ls, FIELDS, i) {
        RestoreMasked(ls[i]);
      }
    }
  }

  /** Masking and then restoring against the original gives the original back byte for byte, exactly when
      the text has no sentinel of its own and no secret field is empty with a comment right behind it. */
  lemma RoundTrip(text: string)
    ensures RestoreText(MaskText(text, FIELDS), text) == Some(text) <==> Restorable(text)
  {
    LinesJoin(text);
    var ls := Lines(text);
    var rs := RestoredLines(ls);
    if k :| 0 <= k < |FIELDS| && BareComment(text, FIELDS[k]) {
      BareByLines(ls, FIELDS[k]);
      var i := Hit(ls, None, FIELDS[k]);
      assert HitBy(ls, FIELDS, i);
      MaskedHasSentinel(ls[i]);
      ContainsInJoin(rs, i, SENTINEL);
    } else {
      forall i | 0 <= i < |ls| ensures rs[i] == ls[i] {
        if HitBy(ls, FIELDS, i) {
          var k :| 0 <= k < |FIELDS| && Hit(ls, None, FIELDS[k]) == i;
          BareByLines(ls, FIELDS[k]);
        }
      }
      assert rs == ls;
    }
  }

  /** Masking leaves nothing of a secret: where the scanner finds the field, it finds the sentinel. */
  lemma SecretsHidden(text: string, k: nat)
    requires k < |FIELDS| && !BareComment(text, FIELDS[k])
    ensures var m := MaskText(text, FIELDS);
            match Find(m, FIELDS[k])
            case None => Find(text, FIELDS[k]).None?
            case Some(s) => Find(text, FIELDS[k]).Some? && m[s.begin..s.end] == QUOTED
  {
    LinesJoin(text);
    var ls, f := Lines(text), FIELDS[k];
    var ms := MaskLines(ls, FIELDS);
    FieldsDistinct();
    MaskAllText(ls, FIELDS);
    SpanOfValue(ls, f);
    SpanOfValue(ms, f);
    SameHits(ls, ms, None, f);
    BareByLines(ls, f);
    var i := Hit(ls, None, f);
    if i < |ls| {
      assert HitBy(ls, FIELDS, i);
      MaskLinesAt(ls, FIELDS, i);
      UnmaskLine(ls[i]);
    }
  }

  lemma HeaderExample()
    ensures KindOf("auth:") == Header("auth")
  {
    SkipSpaceIs("auth:", 0, 0);
    IndexOfIs("auth:", ':', 0, 4);
    assert "auth:"[0..4] == "auth";
  }

  lemma EntryExample()
    ensures KindOf("  token: # c") == Entry("token") && Bare("  token: # c")
  {
    var line := "  token: # c";
    SkipSpaceIs(line, 0, 2);
    IndexOfIs(line, ':', 2, 7);
    assert line[2..7] == "token";
    SkipBlanksIs(line, 8, 9);
  }

  /** An empty token with a comment behind it: the textual round trip fails. */
  lemma RoundTripFails(text: string)
    requires text == "auth:" + ("\n" + "  token: # c")
    ensures RestoreText(MaskText(text, FIELDS), text) != Some(text)
  {
    var ls := ["auth:", "  token: # c"];
    var f := FIELDS[0];
    assert ls[1..] == ["  token: # c"];
    assert Clean(ls) && Join(ls) == text;
    HeaderExample();
    EntryExample();
    assert Hit(ls[1..], Enter(ls[0], None), f) == 0;
    BareByLines(ls, f);
    RoundTrip(text);
  }
}
