/** prepare_batch_order: which runnable task goes first, and how many prompt tokens each prompt may contribute. */
module BatchOrder {
  // Also the token plan that run_loop derives from the order.

  /** What the ordering reads of a task: draft is |spec_draft|, want is how many prompt
      tokens the task could contribute this turn, flagged means cancelled or stopped. */
  datatype Item = Item(id: nat, slot: int, done: bool, draft: nat, want: nat, flagged: bool)

  const MIXED_PREFILL_BUDGET := 1024

  function Min(a: int, b: int): int { if a <= b then a else b }
  function Max(a: int, b: int): int { if a >= b then a else b }

  // ---- std::rotate, std::stable_partition, std::sort by slot ----

  function Rotate<T>(s: seq<T>, k: nat): (r: seq<T>)
    requires k <= |s|
    ensures multiset(r) == multiset(s)
  {
    assert s[..k] + s[k..] == s;
    s[k..] + s[..k]
  }

  function Keep(s: seq<Item>, done: bool): (r: seq<Item>)
    ensures forall x :: x in r ==> x in s && x.done == done
    ensures |r| <= |s|
  {
    if s == [] then []
    else if s[0].done == done then [s[0]] + Keep(s[1..], done)
    else Keep(s[1..], done)
  }

  lemma {:induction false} PartitionIsPermutation(s: seq<Item>)
    ensures multiset(Keep(s, true) + Keep(s, false)) == multiset(s)
  {
    if s == [] {
    } else {
      PartitionIsPermutation(s[1..]);
      assert s == [s[0]] + s[1..];
      PutIn(s[0], Keep(s[1..], true), Keep(s[1..], false), s[1..]);
    }
  }

  lemma PutIn(x: Item, a: seq<Item>, b: seq<Item>, s: seq<Item>)
    requires multiset(a + b) == multiset(s)
    ensures multiset(([x] + a) + b) == multiset([x] + s) == multiset(a + ([x] + b))
  {
    assert ([x] + a) + b == [x] + (a + b);
    assert multiset(a + ([x] + b)) == multiset(a) + multiset{x} + multiset(b);
    assert multiset(a + b) == multiset(a) + multiset(b);
  }

  function Insert(x: Item, s: seq<Item>): seq<Item> {
    if s == [] || x.slot <= s[0].slot then [x] + s else [s[0]] + Insert(x, s[1..])
  }

  function SortBySlot(s: seq<Item>): seq<Item> { if s == [] then [] else Insert(s[0], SortBySlot(s[1..])) }

  ghost predicate BySlot(s: seq<Item>) { forall i, j :: 0 <= i < j < |s| ==> s[i].slot <= s[j].slot }

  lemma {:induction false} InsertPermutes(x: Item, s: seq<Item>)
    ensures multiset(Insert(x, s)) == multiset([x] + s)
  {
    if s != [] && x.slot > s[0].slot {
      InsertPermutes(x, s[1..]);
      assert s == [s[0]] + s[1..];
    }
  }

  lemma {:induction false} InsertSorts(x: Item, s: seq<Item>)
    requires BySlot(s)
    ensures BySlot(Insert(x, s))
  {
    if s != [] && x.slot > s[0].slot {
      InsertSorts(x, s[1..]);
      InsertPermutes(x, s[1..]);
      var t := Insert(x, s[1..]);
      forall i | 0 <= i < |t| ensures s[0].slot <= t[i].slot {
        assert t[i] in multiset([x] + s[1..]);
      }
    }
  }

  /** The sort puts the same tasks into the order of their slots. */
  lemma {:induction false} SortSorts(s: seq<Item>)
    ensures multiset(SortBySlot(s)) == multiset(s) && BySlot(SortBySlot(s))
  {
    if s == [] {
    } else {
      SortSorts(s[1..]);
      InsertPermutes(s[0], SortBySlot(s[1..]));
      InsertSorts(s[0], SortBySlot(s[1..]));
      assert s == [s[0]] + s[1..];
    }
  }

  // ---- demand ----

  function Demand(x: Item): nat { 1 + x.draft }

  /** Tokens the live decoders ask for. */
  function DecodeTokens(s: seq<Item>): nat {
    if s == [] then 0
    else DecodeTokens(s[..|s| - 1]) +
         (if s[|s| - 1].done && !s[|s| - 1].flagged then Demand(s[|s| - 1]) else 0)
  }

  /** Number of live prompts. */
  function Prompts(s: seq<Item>): nat {
    if s == [] then 0
    else Prompts(s[..|s| - 1]) + (if !s[|s| - 1].done && !s[|s| - 1].flagged then 1 else 0)
  }

  function Available(capacity: int, decode: nat, prompts: nat): (r: nat)
    ensures r <= Max(0, capacity - decode)
  {
    var available := Max(0, capacity - decode);
    if decode > 0 && prompts > 0 then
      var quota := Max(1, MIXED_PREFILL_BUDGET / prompts);
      assert quota * prompts >= 0;
      Min(available, quota * prompts)
    else available
  }

  function PrefillLimit(available: nat, prompts: nat): nat {
    if prompts > 0 then (available + prompts - 1) / prompts else 0
  }

  /** The order and the per-prompt limit for one turn. */
  function Order(s: seq<Item>, capacity: int, turn: nat): (r: (seq<Item>, nat)) {
    if s == [] then ([], 0) else
      var rotated := Rotate(s, turn % |s|);
      var decoders, waiting := Keep(rotated, true), Keep(rotated, false);
      var decode, prompts := DecodeTokens(decoders + waiting), Prompts(decoders + waiting);
      var available := Available(capacity, decode, prompts);
      var first := if decode <= capacity then SortBySlot(decoders) else decoders;
      var second := if prompts > 0 && available >= prompts && available % prompts == 0
                    then SortBySlot(waiting) else waiting;
      (first + second, PrefillLimit(available, prompts))
  }

  lemma OrderIsPermutation(s: seq<Item>, capacity: int, turn: nat)
    ensures multiset(Order(s, capacity, turn).0) == multiset(s)
  {
    if s != [] {
      var rotated := Rotate(s, turn % |s|);
      PartitionIsPermutation(rotated);
      var decoders, waiting := Keep(rotated, true), Keep(rotated, false);
      assert multiset(decoders + waiting) == multiset(decoders) + multiset(waiting);
      SortSorts(decoders);
      SortSorts(waiting);
      var r := Order(s, capacity, turn).0;
      assert multiset(r) == multiset(decoders) + multiset(waiting);
    }
  }

  // ---- the token plan ----

  /** Tokens a task puts into a batch that already holds used tokens. */
  function Take(x: Item, used: nat, capacity: int, limit: nat): nat {
    if x.flagged then 0
    else if x.done then (if used + Demand(x) <= capacity then Demand(x) else 0)
    else Max(0, Min(x.want, Min(capacity - used, limit)))
  }

  /** Tokens in the batch after the tasks of s have contributed in order. */
  function Used(s: seq<Item>, capacity: int, limit: nat): nat {
    if s == [] then 0
    else var u := Used(s[..|s| - 1], capacity, limit);
         u + Take(s[|s| - 1], u, capacity, limit)
  }

  function PromptUsed(s: seq<Item>, capacity: int, limit: nat): nat {
    if s == [] then 0
    else PromptUsed(s[..|s| - 1], capacity, limit) +
         (if s[|s| - 1].done then 0
          else Take(s[|s| - 1], Used(s[..|s| - 1], capacity, limit), capacity, limit))
  }

  /** What the task at index k of the order contributes. */
  function Share(s: seq<Item>, k: nat, capacity: int, limit: nat): nat
    requires k < |s|
  {
    Take(s[k], Used(s[..k], capacity, limit), capacity, limit)
  }

  /** Whatever the order and the limit, a batch never exceeds n_batch. */
  lemma {:induction false} BatchFits(s: seq<Item>, capacity: int, limit: nat)
    requires capacity >= 0
    ensures Used(s, capacity, limit) <= capacity
  {
    if s == [] {
    } else {
      BatchFits(s[..|s| - 1], capacity, limit);
    }
  }

  // ---- sums over concatenations and permutations ----

  lemma {:induction false} CountsConcat(a: seq<Item>, b: seq<Item>)
    ensures DecodeTokens(a + b) == DecodeTokens(a) + DecodeTokens(b)
    ensures Prompts(a + b) == Prompts(a) + Prompts(b)
  {
    if b == [] {
      assert a + b == a;
    } else {
      var n := |b| - 1;
      assert (a + b)[..|a + b| - 1] == a + b[..n];
      CountsConcat(a, b[..n]);
    }
  }

  /** Taking one occurrence of an element out of a sequence. */
  lemma CountsExtract(a: seq<Item>, i: nat)
    requires i < |a|
    ensures var rest := a[..i] + a[i + 1..];
            && multiset(rest) == multiset(a) - multiset{a[i]}
            && DecodeTokens(a) == DecodeTokens([a[i]]) + DecodeTokens(rest)
            && Prompts(a) == Prompts([a[i]]) + Prompts(rest)
  {
    assert a == a[..i] + ([a[i]] + a[i + 1..]);
    CountsConcat(a[..i], [a[i]] + a[i + 1..]);
    CountsConcat([a[i]], a[i + 1..]);
    CountsConcat(a[..i], a[i + 1..]);
  }

  lemma {:induction false} CountsPermute(a: seq<Item>, b: seq<Item>)
    requires multiset(a) == multiset(b)
    ensures DecodeTokens(a) == DecodeTokens(b)
    ensures Prompts(a) == Prompts(b)
    decreases |a|
  {
    if a == [] {
      assert |multiset(b)| == 0;
    } else {
      assert a[0] in multiset(b);
      var i :| 0 <= i < |b| && b[i] == a[0];
      CountsExtract(a, 0);
      CountsExtract(b, i);
      var x, y := a[..0] + a[1..], b[..i] + b[i + 1..];
      CountsPermute(x, y);
    }
  }

  lemma {:induction false} KindCounts(s: seq<Item>, done: bool)
    requires forall x :: x in s ==> x.done == done
    ensures done ==> Prompts(s) == 0
    ensures !done ==> DecodeTokens(s) == 0
  {
    if s == [] {
    } else {
      KindCounts(s[..|s| - 1], done);
    }
  }

  lemma PermuteMembers(a: seq<Item>, b: seq<Item>)
    requires multiset(a) == multiset(b)
    ensures forall x :: x in a ==> x in b
  {
    forall x | x in a ensures x in b { assert x in multiset(a); }
  }

  // ---- arithmetic ----

  lemma MulMono(a: int, b: int, n: int)
    ensures a <= b && 0 <= n ==> a * n <= b * n
  {
  }

  lemma MulSucc(a: int, n: int)
    ensures (a + 1) * n == a * n + n
  {
  }

  lemma DivUnique(a: nat, n: nat, q: nat, r: nat)
    requires n > 0 && a == q * n + r && r < n
    ensures a / n == q
  {
    var d := a / n;
    MulMono(d + 1, q, n);
    MulSucc(d, n);
    MulMono(q + 1, d, n);
    MulSucc(q, n);
  }

  /** (a + p - 1) / p rounds a / p up. */
  lemma CeilLe(a: nat, p: nat, q: nat)
    requires p > 0 && a <= q * p
    ensures (a + p - 1) / p <= q
  {
    var d := (a + p - 1) / p;
    assert d * p <= a + p - 1;
    MulMono(q + 1, d, p);
    MulSucc(q, p);
  }

  lemma CeilExact(q: nat, p: nat)
    requires p > 0
    ensures (q * p + p - 1) / p == q
  {
    DivUnique(q * p + p - 1, p, q, p - 1);
  }

  lemma CeilPositive(a: nat, p: nat)
    requires a > 0 && p > 0
    ensures (a + p - 1) / p >= 1
  {
    DivUnique(p, p, 1, 0);
    DivMono(p, a + p - 1, p);
  }

  lemma DivMono(a: nat, b: nat, p: nat)
    requires p > 0 && a <= b
    ensures a / p <= b / p
  {
    MulMono(b / p + 1, a / p, p);
    MulSucc(b / p, p);
  }

  // ---- batch budget ----

  function Decoders(s: seq<Item>, turn: nat): seq<Item>
    requires s != []
  {
    Keep(Rotate(s, turn % |s|), true)
  }

  function Waiting(s: seq<Item>, turn: nat): seq<Item>
    requires s != []
  {
    Keep(Rotate(s, turn % |s|), false)
  }

  lemma SplitCounts(s: seq<Item>, turn: nat)
    requires s != []
    ensures var all := Decoders(s, turn) + Waiting(s, turn);
            DecodeTokens(all) == DecodeTokens(s) && Prompts(all) == Prompts(s)
    ensures DecodeTokens(Decoders(s, turn)) == DecodeTokens(s)
    ensures Prompts(Waiting(s, turn)) == Prompts(s)
  {
    PartitionIsPermutation(Rotate(s, turn % |s|));
    CountsPermute(Decoders(s, turn) + Waiting(s, turn), s);
    CountsConcat(Decoders(s, turn), Waiting(s, turn));
    KindCounts(Decoders(s, turn), true);
    KindCounts(Waiting(s, turn), false);
  }

  lemma SortKeepsKind(s: seq<Item>, done: bool)
    requires forall x :: x in s ==> x.done == done
    ensures forall x :: x in SortBySlot(s) ==> x.done == done
    ensures DecodeTokens(SortBySlot(s)) == DecodeTokens(s)
    ensures Prompts(SortBySlot(s)) == Prompts(s)
  {
    SortSorts(s);
    PermuteMembers(SortBySlot(s), s);
    CountsPermute(SortBySlot(s), s);
  }

  /** The shape of an order: decoders first, then prompts, counted as in the input. */
  lemma OrderShape(s: seq<Item>, capacity: int, turn: nat) returns (d: seq<Item>, p: seq<Item>)
    requires s != []
    ensures Order(s, capacity, turn) ==
            (d + p, PrefillLimit(Available(capacity, DecodeTokens(s), Prompts(s)), Prompts(s)))
    ensures d == Decoders(s, turn) || (DecodeTokens(s) <= capacity && d == SortBySlot(Decoders(s, turn)))
    ensures p == Waiting(s, turn) ||
            (p == SortBySlot(Waiting(s, turn)) && Prompts(s) > 0 &&
             Available(capacity, DecodeTokens(s), Prompts(s)) % Prompts(s) == 0)
    ensures forall x :: x in d ==> x.done
    ensures forall x :: x in p ==> !x.done
    ensures DecodeTokens(d) == DecodeTokens(s) && Prompts(p) == Prompts(s)
  {
    var decoders, waiting := Decoders(s, turn), Waiting(s, turn);
    SplitCounts(s, turn);
    SortKeepsKind(decoders, true);
    SortKeepsKind(waiting, false);
    var available := Available(capacity, DecodeTokens(s), Prompts(s));
    d := if DecodeTokens(s) <= capacity then SortBySlot(decoders) else decoders;
    p := if Prompts(s) > 0 && available >= Prompts(s) && available % Prompts(s) == 0
         then SortBySlot(waiting) else waiting;
  }

  /** Decoders that together fit are all placed in full. */
  lemma {:induction false} DecodersPlaced(d: seq<Item>, capacity: int, limit: nat)
    requires forall x :: x in d ==> x.done
    requires DecodeTokens(d) <= capacity
    ensures Used(d, capacity, limit) == DecodeTokens(d)
    ensures forall k :: 0 <= k < |d| && !d[k].flagged ==> Share(d, k, capacity, limit) == Demand(d[k])
  {
    if d == [] {
    } else {
      var n := |d| - 1;
      DecodersPlaced(d[..n], capacity, limit);
      forall k | 0 <= k < |d| && !d[k].flagged
        ensures Share(d, k, capacity, limit) == Demand(d[k])
      {
        if k < n {
          assert d[..n][k] == d[k] && d[..n][..k] == d[..k];
          assert Share(d[..n], k, capacity, limit) == Demand(d[k]);
        }
      }
    }
  }

  /** One limit for each live prompt. */
  function Budget(p: seq<Item>, limit: nat): nat {
    if p == [] then 0
    else Budget(p[..|p| - 1], limit) + (if !p[|p| - 1].done && !p[|p| - 1].flagged then limit else 0)
  }

  lemma {:induction false} BudgetIsProduct(p: seq<Item>, limit: nat)
    ensures Budget(p, limit) == Prompts(p) * limit
  {
    if p == [] {
    } else {
      BudgetIsProduct(p[..|p| - 1], limit);
      MulSucc(Prompts(p[..|p| - 1]), limit);
    }
  }

  lemma {:induction false} PromptBudget(d: seq<Item>, p: seq<Item>, capacity: int, limit: nat)
    requires forall x :: x in d ==> x.done
    requires forall x :: x in p ==> !x.done
    ensures PromptUsed(d + p, capacity, limit) <= Budget(p, limit)
    decreases |d| + |p|
  {
    if p != [] {
      var n := |p| - 1;
      assert (d + p)[..|d + p| - 1] == d + p[..n];
      PromptBudget(d, p[..n], capacity, limit);
    } else if d != [] {
      var n := |d| - 1;
      assert d + p == d && d[..n] + p == d[..n];
      PromptBudget(d[..n], p, capacity, limit);
    } else {
      assert d + p == [];
    }
  }

  lemma MixedLimit(available: nat, prompts: nat)
    requires prompts > 0
    requires available <= Max(1, MIXED_PREFILL_BUDGET / prompts) * prompts
    ensures prompts * PrefillLimit(available, prompts) <= Max(MIXED_PREFILL_BUDGET, prompts)
  {
    var quota := Max(1, MIXED_PREFILL_BUDGET / prompts);
    CeilLe(available, prompts, quota);
    MulMono(PrefillLimit(available, prompts), quota, prompts);
  }

  /** The same tasks, some of them cancelled or stopped since. */
  ghost predicate LessLive(a: seq<Item>, b: seq<Item>) {
    |a| == |b| && forall i :: 0 <= i < |a| ==> a[i] == b[i] || a[i] == b[i].(flagged := true)
  }

  lemma {:induction false} LessCounts(a: seq<Item>, b: seq<Item>)
    requires LessLive(a, b)
    ensures DecodeTokens(a) <= DecodeTokens(b) && Prompts(a) <= Prompts(b)
  {
    if a == [] {
    } else {
      LessCounts(a[..|a| - 1], b[..|b| - 1]);
    }
  }

  lemma LessKind(a: seq<Item>, b: seq<Item>, done: bool)
    requires LessLive(a, b) && forall x :: x in b ==> x.done == done
    ensures forall x :: x in a ==> x.done == done
  {
    assert forall i :: 0 <= i < |b| ==> b[i] in b;
  }

  lemma LessSplit(r: seq<Item>, d: seq<Item>, p: seq<Item>)
    requires LessLive(r, d + p)
    ensures r == r[..|d|] + r[|d|..] && LessLive(r[..|d|], d) && LessLive(r[|d|..], p)
  {
    forall i | 0 <= i < |d| ensures r[..|d|][i] == d[i] || r[..|d|][i] == d[i].(flagged := true) {
      assert (d + p)[i] == d[i];
    }
    forall i | 0 <= i < |p| ensures r[|d|..][i] == p[i] || r[|d|..][i] == p[i].(flagged := true) {
      assert (d + p)[|d| + i] == p[i] && r[|d|..][i] == r[|d| + i];
    }
  }

  /** Decoders first, then prompts: so it stays when tasks are cancelled or stopped. */
  lemma LessParts(r: seq<Item>, d: seq<Item>, p: seq<Item>) returns (d1: seq<Item>, p1: seq<Item>)
    requires LessLive(r, d + p)
    requires forall x :: x in d ==> x.done
    requires forall x :: x in p ==> !x.done
    ensures r == d1 + p1 && LessLive(d1, d) && LessLive(p1, p)
    ensures forall x :: x in d1 ==> x.done
    ensures forall x :: x in p1 ==> !x.done
    ensures DecodeTokens(d1) <= DecodeTokens(d) && Prompts(p1) <= Prompts(p)
  {
    d1, p1 := r[..|d|], r[|d|..];
    LessSplit(r, d, p);
    LessKind(d1, d, true);
    LessKind(p1, p, false);
    LessCounts(d1, d);
    LessCounts(p1, p);
  }

  lemma KindsCount(d: seq<Item>, p: seq<Item>)
    requires forall x :: x in d ==> x.done
    requires forall x :: x in p ==> !x.done
    ensures DecodeTokens(d + p) == DecodeTokens(d) && Prompts(d + p) == Prompts(p)
  {
    CountsConcat(d, p);
    KindCounts(d, true);
    KindCounts(p, false);
  }

  /** An order keeps its shape when tasks are cancelled or stopped after it was made. */
  lemma RaisedShape(s: seq<Item>, capacity: int, turn: nat, r: seq<Item>) returns (d: seq<Item>, p: seq<Item>)
    requires s != [] && LessLive(r, Order(s, capacity, turn).0)
    ensures r == d + p
    ensures forall x :: x in d ==> x.done
    ensures forall x :: x in p ==> !x.done
    ensures DecodeTokens(d) == DecodeTokens(r) <= DecodeTokens(s) && Prompts(p) == Prompts(r) <= Prompts(s)
  {
    var d0, p0 := OrderShape(s, capacity, turn);
    d, p := LessParts(r, d0, p0);
    KindsCount(d, p);
  }

  lemma FewerPrompts(n: nat, all: nat, limit: nat)
    requires n <= all && all * limit <= Max(MIXED_PREFILL_BUDGET, all)
    ensures n * limit <= Max(MIXED_PREFILL_BUDGET, n)
  {
    MulMono(n, all, limit);
    if limit <= 1 {
      MulMono(limit, 1, n);
    } else {
      MulMono(2, limit, all);
    }
  }

  /** Batch budget, also if tasks are cancelled or stopped after the order was made: whenever the live decoders fit
      together, each of them gets all its rows, and a batch built with live decoders carries at most
      max(1024, #prompts) prompt tokens. */
  lemma BatchBudget(s: seq<Item>, capacity: int, turn: nat, r: seq<Item>)
    requires capacity >= 0 && LessLive(r, Order(s, capacity, turn).0)
    ensures var limit := Order(s, capacity, turn).1;
            && Used(r, capacity, limit) <= capacity
            && (DecodeTokens(r) <= capacity ==>
                  forall k :: 0 <= k < |r| && r[k].done && !r[k].flagged ==>
                    Share(r, k, capacity, limit) == Demand(r[k]))
            && (DecodeTokens(r) > 0 ==>
                  PromptUsed(r, capacity, limit) <= Max(MIXED_PREFILL_BUDGET, Prompts(r)))
  {
    var limit := Order(s, capacity, turn).1;
    BatchFits(r, capacity, limit);
    if s != [] {
      var d, p := RaisedShape(s, capacity, turn, r);
      if DecodeTokens(r) <= capacity {
        AllDecodersRun(d, p, capacity, limit);
      }
      if DecodeTokens(r) > 0 {
        PromptBudget(d, p, capacity, limit);
        BudgetIsProduct(p, limit);
        MixedBudget(s, capacity, turn);
        FewerPrompts(Prompts(r), Prompts(s), limit);
      }
    }
  }

  lemma MixedBudget(s: seq<Item>, capacity: int, turn: nat)
    requires s != [] && DecodeTokens(s) > 0
    ensures Prompts(s) * Order(s, capacity, turn).1 <= Max(MIXED_PREFILL_BUDGET, Prompts(s))
  {
    var d, p := OrderShape(s, capacity, turn);
    if Prompts(s) > 0 {
      MixedLimit(Available(capacity, DecodeTokens(s), Prompts(s)), Prompts(s));
    }
  }

  lemma AllDecodersRun(d: seq<Item>, p: seq<Item>, capacity: int, limit: nat)
    requires forall x :: x in d ==> x.done
    requires forall x :: x in p ==> !x.done
    requires DecodeTokens(d) <= capacity
    ensures forall k :: 0 <= k < |d + p| && (d + p)[k].done && !(d + p)[k].flagged ==>
              Share(d + p, k, capacity, limit) == Demand((d + p)[k])
  {
    DecodersPlaced(d, capacity, limit);
    forall k | 0 <= k < |d + p| && (d + p)[k].done && !(d + p)[k].flagged
      ensures Share(d + p, k, capacity, limit) == Demand((d + p)[k])
    {
      assert k < |d|;
      assert (d + p)[k] == d[k] && (d + p)[..k] == d[..k];
      assert Share(d, k, capacity, limit) == Demand(d[k]);
    }
  }

  // ---- rotation fairness ----

  lemma HeadOfKind(s: seq<Item>, turn: nat)
    requires s != []
    ensures var x := s[turn % |s|];
            var kind := if x.done then Decoders(s, turn) else Waiting(s, turn);
            kind != [] && kind[0] == x
  {
    assert Rotate(s, turn % |s|)[0] == s[turn % |s|];
  }

  lemma AvailablePositive(capacity: int, decode: nat, prompts: nat)
    requires prompts > 0 && decode < capacity
    ensures Available(capacity, decode, prompts) > 0
    ensures PrefillLimit(Available(capacity, decode, prompts), prompts) >= 1
  {
    MulMono(1, Max(1, MIXED_PREFILL_BUDGET / prompts), prompts);
    CeilPositive(Available(capacity, decode, prompts), prompts);
  }

  lemma {:induction false} LivePromptCounts(p: seq<Item>, j: nat)
    requires j < |p| && !p[j].done && !p[j].flagged
    ensures Prompts(p[..j]) + 1 <= Prompts(p)
  {
    if j < |p| - 1 {
      assert p[..|p| - 1][..j] == p[..j];
      LivePromptCounts(p[..|p| - 1], j);
    }
  }

  lemma {:induction false} UsedAfterPrompts(d: seq<Item>, p: seq<Item>, capacity: int, limit: nat)
    requires forall x :: x in p ==> !x.done
    ensures Used(d + p, capacity, limit) <= Used(d, capacity, limit) + Budget(p, limit)
  {
    if p == [] {
      assert d + p == d;
    } else {
      var n := |p| - 1;
      assert (d + p)[..|d + p| - 1] == d + p[..n];
      UsedAfterPrompts(d, p[..n], capacity, limit);
    }
  }

  lemma EqualQuota(available: nat, prompts: nat)
    requires prompts > 0 && available % prompts == 0
    ensures prompts * PrefillLimit(available, prompts) == available
  {
    var q := available / prompts;
    assert available == q * prompts;
    CeilExact(q, prompts);
  }

  /** When the prefill room divides evenly, every live prompt gets its share. */
  lemma EqualShare(d: seq<Item>, p: seq<Item>, j: nat, capacity: int, limit: nat, available: nat)
    requires forall x :: x in p ==> !x.done
    requires j < |p| && !p[j].flagged && p[j].want > 0
    requires Used(d, capacity, limit) + available <= capacity
    requires limit >= 1 && Prompts(p) * limit <= available
    ensures Share(d + p, |d| + j, capacity, limit) >= 1
  {
    LivePromptCounts(p, j);
    assert (d + p)[..|d| + j] == d + p[..j];
    UsedAfterPrompts(d, p[..j], capacity, limit);
    LeavesQuota(p[..j], Prompts(p), limit);
  }

  lemma LeavesQuota(p: seq<Item>, prompts: nat, limit: nat)
    requires Prompts(p) + 1 <= prompts
    ensures Budget(p, limit) + limit <= prompts * limit
  {
    BudgetIsProduct(p, limit);
    MulMono(Prompts(p) + 1, prompts, limit);
    MulSucc(Prompts(p), limit);
  }

  /** With decode demand below n_batch, the prompt at the head of the rotation advances, unless it is cancelled or
      stopped in the meantime. */
  lemma HeadPromptAdvances(s: seq<Item>, capacity: int, turn: nat, r: seq<Item>) returns (k: nat)
    requires s != [] && LessLive(r, Order(s, capacity, turn).0)
    requires var x := s[turn % |s|]; !x.done && !x.flagged && x.want > 0
    requires DecodeTokens(s) < capacity
    ensures var (o, limit) := Order(s, capacity, turn);
            k < |o| && o[k] == s[turn % |s|] && (!r[k].flagged ==> Share(r, k, capacity, limit) >= 1)
  {
    HeadOfKind(s, turn);
    SplitCounts(s, turn);
    LivePromptCounts(Waiting(s, turn), 0);
    AvailablePositive(capacity, DecodeTokens(s), Prompts(s));
    var available := Available(capacity, DecodeTokens(s), Prompts(s));
    var d, p := OrderShape(s, capacity, turn);
    if p != Waiting(s, turn) {
      EqualQuota(available, Prompts(s));
      SortSorts(Waiting(s, turn));
      PermuteMembers(Waiting(s, turn), p);
    }
    k := HeadShare(d, p, s[turn % |s|], capacity, available, PrefillLimit(available, Prompts(s)), r);
  }

  lemma HeadShare(d: seq<Item>, p: seq<Item>, x: Item, capacity: int, available: nat, limit: nat, r: seq<Item>)
    returns (k: nat)
    requires forall y :: y in d ==> y.done
    requires forall y :: y in p ==> !y.done
    requires DecodeTokens(d) + available <= capacity && available > 0 && limit >= 1
    requires !x.done && !x.flagged && x.want > 0
    requires (p != [] && p[0] == x) || (x in p && Prompts(p) * limit == available)
    requires LessLive(r, d + p)
    ensures k < |d + p| && (d + p)[k] == x && (!r[k].flagged ==> Share(r, k, capacity, limit) >= 1)
  {
    var d1, p1 := LessParts(r, d, p);
    DecodersPlaced(d1, capacity, limit);
    var j := if p != [] && p[0] == x then 0 else IndexOf(p, x);
    k := |d| + j;
    if !p1[j].flagged {
      if j == 0 {
        FirstShare(d1, p1, capacity, limit);
      } else {
        MulMono(Prompts(p1), Prompts(p), limit);
        EqualShare(d1, p1, j, capacity, limit, available);
      }
    }
  }

  function IndexOf(p: seq<Item>, x: Item): (j: nat)
    requires x in p
    ensures j < |p| && p[j] == x
  {
    if p[0] == x then 0 else 1 + IndexOf(p[1..], x)
  }

  /** The first prompt after the decoders finds room. */
  lemma FirstShare(d: seq<Item>, p: seq<Item>, capacity: int, limit: nat)
    requires p != [] && !p[0].done && !p[0].flagged && p[0].want > 0
    requires Used(d, capacity, limit) < capacity && limit >= 1
    ensures Share(d + p, |d|, capacity, limit) >= 1
  {
    assert (d + p)[..|d|] == d;
  }

  /** The decoder at the head of the rotation is decoded if it fits at all, unless it is cancelled or stopped in the
      meantime: with demand up to n_batch all decoders are, with more it comes first. */
  lemma HeadDecoderRuns(s: seq<Item>, capacity: int, turn: nat, r: seq<Item>) returns (k: nat)
    requires s != [] && LessLive(r, Order(s, capacity, turn).0)
    requires var x := s[turn % |s|]; x.done && Demand(x) <= capacity
    ensures var (o, limit) := Order(s, capacity, turn);
            k < |o| && o[k] == s[turn % |s|] && (!r[k].flagged ==> Share(r, k, capacity, limit) == Demand(r[k]))
  {
    if DecodeTokens(s) <= capacity {
      k := AmongAll(s, capacity, turn, r);
    } else {
      HeadOfKind(s, turn);
      var d, p := OrderShape(s, capacity, turn);
      k := 0;
      assert r[..0] == [];
    }
  }

  lemma AmongAll(s: seq<Item>, capacity: int, turn: nat, r: seq<Item>) returns (k: nat)
    requires s != [] && LessLive(r, Order(s, capacity, turn).0)
    requires s[turn % |s|].done && DecodeTokens(s) <= capacity
    ensures var (o, limit) := Order(s, capacity, turn);
            k < |o| && o[k] == s[turn % |s|] && (!r[k].flagged ==> Share(r, k, capacity, limit) == Demand(r[k]))
  {
    OrderIsPermutation(s, capacity, turn);
    PermuteMembers(s, Order(s, capacity, turn).0);
    k := IndexOf(Order(s, capacity, turn).0, s[turn % |s|]);
    var d, p := RaisedShape(s, capacity, turn, r);
    BatchBudget(s, capacity, turn, r);
  }

  /** The turn, among n consecutive ones, in which index x is the head of the rotation. */
  function HeadTurn(x: nat, start: nat, n: nat): (k: nat)
    requires x < n
    ensures k < n && (start + k) % n == x
  {
    var k := if x >= start % n then x - start % n else x - start % n + n;
    ModAdd(start, k, n, x);
    k
  }

  lemma ModAdd(a: nat, k: nat, n: nat, x: nat)
    requires x < n && k < n
    requires a % n + k == x || a % n + k == x + n
    ensures (a + k) % n == x
  {
    var q := a / n;
    MulSucc(q, n);
    if a % n + k == x {
      DivUnique(a + k, n, q, x);
    } else {
      DivUnique(a + k, n, q + 1, x);
    }
  }

  /** The task at index x of one turn's list was not passed over by that turn's batch. */
  ghost predicate Served(s: seq<Item>, x: nat, capacity: int, turn: nat)
    requires x < |s|
  {
    var (r, limit) := Order(s, capacity, turn);
    exists k: nat :: k < |r| && r[k] == s[x] && Share(r, k, capacity, limit) >= 1
  }

  /** Rotation fairness over |runnable| consecutive turns with the same runnable tasks: the
      statuses, drafts and remaining prompts may change from turn to turn (views[j] is turn
      start + j).  If every turn leaves room for prefill, each live prompt advances in one of
      them; each live decoder that fits a batch runs in one. */
  lemma RotationFairness(views: seq<seq<Item>>, capacity: int, start: nat, x: nat)
    requires forall j :: 0 <= j < |views| ==> |views[j]| == |views|
    requires x < |views| && capacity >= 0
    requires forall j :: 0 <= j < |views| ==> !views[j][x].flagged
    requires forall j :: 0 <= j < |views| ==>
               if views[j][x].done then Demand(views[j][x]) <= capacity
               else views[j][x].want > 0 && DecodeTokens(views[j]) < capacity
    ensures exists j :: 0 <= j < |views| && Served(views[j], x, capacity, start + j)
  {
    var j := HeadTurn(x, start, |views|);
    HeadServed(views[j], capacity, start + j);
    assert Served(views[j], x, capacity, start + j);
  }

  lemma HeadServed(s: seq<Item>, capacity: int, turn: nat)
    requires s != []
    requires var x := s[turn % |s|];
             !x.flagged && if x.done then Demand(x) <= capacity else x.want > 0 && DecodeTokens(s) < capacity
    ensures Served(s, turn % |s|, capacity, turn)
  {
    var r := Order(s, capacity, turn).0;
    if s[turn % |s|].done {
      var k := HeadDecoderRuns(s, capacity, turn, r);
    } else {
      var k := HeadPromptAdvances(s, capacity, turn, r);
    }
  }

  // ---- the in-place routine ----

  method CountDemand(all: seq<Item>) returns (decode: nat, prompts: nat)
    ensures decode == DecodeTokens(all) && prompts == Prompts(all)
  {
    decode, prompts := 0, 0;
    for i := 0 to |all|
      invariant decode == DecodeTokens(all[..i]) && prompts == Prompts(all[..i])
    {
      assert all[..i + 1][..i] == all[..i];
      if !all[i].flagged {
        if all[i].done {
          decode := decode + 1 + all[i].draft;
        } else {
          prompts := prompts + 1;
        }
      }
    }
    assert all[..|all|] == all;
  }

  /** prepare_batch_order, permuting the caller's vector in place. */
  method PrepareBatchOrder(tasks: array<Item>, capacity: int, turn: nat) returns (limit: nat)
    modifies tasks
    ensures (tasks[..], limit) == Order(old(tasks[..]), capacity, turn)
    ensures multiset(tasks[..]) == multiset(old(tasks[..]))
  {
    if tasks.Length == 0 {
      return 0;
    }
    ghost var before := tasks[..];
    var rotated := Rotate(tasks[..], turn % tasks.Length);
    var decoders, waiting := Keep(rotated, true), Keep(rotated, false);
    var decode, prompts := CountDemand(decoders + waiting);
    if decode <= capacity {
      decoders := SortBySlot(decoders);
    }
    var available := Available(capacity, decode, prompts);
    if prompts > 0 && available >= prompts && available % prompts == 0 {
      waiting := SortBySlot(waiting);
    }
    limit := PrefillLimit(available, prompts);
    OrderIsPermutation(before, capacity, turn);
    Overwrite(tasks, decoders + waiting);
  }

  method Overwrite(tasks: array<Item>, result: seq<Item>)
    requires multiset(result) == multiset(tasks[..])
    modifies tasks
    ensures tasks[..] == result
  {
    assert |multiset(result)| == |multiset(tasks[..])|;
    forall i | 0 <= i < tasks.Length {
      tasks[i] := result[i];
    }
  }
}
