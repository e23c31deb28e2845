/** Output files of different jobs never share a path: the rendered name can be read back in one
    way only. */
module MediaNames {
  import opened MediaHistory

  const DIGITS := "0123456789"

  predicate Digit(c: char) { c in DIGITS }

  /** Decimal, without leading zeros. */
  function Decimal(n: nat): (s: string)
    ensures s != ""
  {
    if n < 10 then [DIGITS[n]] else Decimal(n / 10) + [DIGITS[n % 10]]
  }

  lemma DigitsDistinct(a: nat, b: nat)
    requires a < 10 && b < 10 && DIGITS[a] == DIGITS[b]
    ensures a == b
  {
  }

  lemma {:induction false} DecimalDigits(n: nat, i: nat)
    requires i < |Decimal(n)|
    ensures Digit(Decimal(n)[i])
  {
    if n >= 10 && i < |Decimal(n / 10)| {
      DecimalDigits(n / 10, i);
    }
  }

  lemma SameEnds(a: string, c: char, b: string, d: char)
    requires a + [c] == b + [d]
    ensures a == b && c == d
  {
    assert (a + [c])[|a|] == c && (b + [d])[|b|] == d;
    assert (a + [c])[..|a|] == a && (b + [d])[..|b|] == b;
  }

  lemma DecimalShape(n: nat)
    ensures |Decimal(n)| == 1 <==> n < 10
  {
  }

  lemma {:induction false} DecimalInjective(m: nat, n: nat)
    requires Decimal(m) == Decimal(n)
    ensures m == n
  {
    DecimalShape(m);
    DecimalShape(n);
    if m < 10 {
      assert Decimal(m)[0] == Decimal(n)[0];
      DigitsDistinct(m, n);
    } else {
      SameEnds(Decimal(m / 10), DIGITS[m % 10], Decimal(n / 10), DIGITS[n % 10]);
      DigitsDistinct(m % 10, n % 10);
      DecimalInjective(m / 10, n / 10);
    }
  }

  lemma DigitsFirst(a: string, x: string)
    requires forall i | 0 <= i < |a| :: Digit(a[i])
    ensures forall i | 0 <= i < |a| :: Digit((a + x)[i])
  {
  }

  /** Digits, then something that does not start with a digit: there is one way to read it. */
  lemma OneReading(a: string, x: string, b: string, y: string)
    requires (forall i | 0 <= i < |a| :: Digit(a[i])) && (forall i | 0 <= i < |b| :: Digit(b[i]))
    requires x != "" && !Digit(x[0]) && y != "" && !Digit(y[0]) && a + x == b + y
    ensures a == b && x == y
  {
    assert (a + x)[|a|] == x[0] && (b + y)[|b|] == y[0];
    DigitsFirst(a, x);
    DigitsFirst(b, y);
    assert (a + x)[..|a|] == a && (b + y)[..|b|] == b;
    assert (a + x)[|a|..] == x && (b + y)[|b|..] == y;
  }

  lemma OneNumber(m: nat, x: string, n: nat, y: string)
    requires x != "" && !Digit(x[0]) && y != "" && !Digit(y[0]) && Decimal(m) + x == Decimal(n) + y
    ensures m == n && x == y
  {
    forall i | 0 <= i < |Decimal(m)| ensures Digit(Decimal(m)[i]) { DecimalDigits(m, i); }
    forall i | 0 <= i < |Decimal(n)| ensures Digit(Decimal(n)[i]) { DecimalDigits(n, i); }
    OneReading(Decimal(m), x, Decimal(n), y);
    DecimalInjective(m, n);
  }

  /** The stem says what kind of output it is. */
  predicate Stem(s: string) { s == "image-" || s == "video-" || s == "music-" }

  predicate WellNamed(f: File) { Stem(f.stem) && f.extension != "" && f.extension[0] == '.' }

  function Path(f: File): string { f.stem + (Decimal(f.id) + ("-" + (Decimal(f.index) + f.extension))) }

  lemma StripStem(s: string, x: string, t: string, y: string)
    requires |s| == |t| && s + x == t + y
    ensures s == t && x == y
  {
    assert (s + x)[..|s|] == s && (t + y)[..|t|] == t;
    assert (s + x)[|s|..] == x && (t + y)[|t|..] == y;
  }

  /** The path of an output tells the job, the place among its outputs and the kind of file. */
  lemma PathsDiffer(f: File, g: File)
    requires WellNamed(f) && WellNamed(g) && Path(f) == Path(g)
    ensures f == g
  {
    var fx, gx := Decimal(f.index) + f.extension, Decimal(g.index) + g.extension;
    StripStem(f.stem, Decimal(f.id) + ("-" + fx), g.stem, Decimal(g.id) + ("-" + gx));
    OneNumber(f.id, "-" + fx, g.id, "-" + gx);
    StripStem("-", fx, "-", gx);
    OneNumber(f.index, f.extension, g.index, g.extension);
  }
}
