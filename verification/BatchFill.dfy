/** How the batch order is arranged, and that prompts fill the room they are given in equal shares. */
module BatchFill {
  import opened BatchOrder

  // ---- the arrangement ----

  lemma SortedPart(s: seq<Item>)
    ensures BySlot(SortBySlot(s)) && multiset(SortBySlot(s)) == multiset(s)
    ensures forall x :: x in SortBySlot(s) ==> x in s
  {
    SortSorts(s);
    PermuteMembers(SortBySlot(s), s);
  }

  lemma Arranged(s: seq<Item>, capacity: int, turn: nat) returns (d: seq<Item>, p: seq<Item>)
    requires s != []
    ensures Order(s, capacity, turn).0 == d + p
    ensures (forall x :: x in d ==> x.done) && forall x :: x in p ==> !x.done
    ensures d == if DecodeTokens(s) <= capacity then SortBySlot(Decoders(s, turn)) else Decoders(s, turn)
    ensures Even(s, capacity) ==> p == SortBySlot(Waiting(s, turn))
    ensures !Even(s, capacity) ==> p == Waiting(s, turn)
  {
    SplitCounts(s, turn);
    SortedPart(Decoders(s, turn));
    SortedPart(Waiting(s, turn));
    d := if DecodeTokens(s) <= capacity then SortBySlot(Decoders(s, turn)) else Decoders(s, turn);
    p := if Even(s, capacity) then SortBySlot(Waiting(s, turn)) else Waiting(s, turn);
    EvenIs(s, capacity);
    OrderOf(s, capacity, turn, Available(capacity, DecodeTokens(s), Prompts(s)), Even(s, capacity));
  }

  lemma EvenIs(s: seq<Item>, capacity: int)
    ensures var available := Available(capacity, DecodeTokens(s), Prompts(s));
            Even(s, capacity) <==> Prompts(s) > 0 && available >= Prompts(s) && available % Prompts(s) == 0
  {
  }

  lemma OrderOf(s: seq<Item>, capacity: int, turn: nat, available: nat, even: bool)
    requires s != [] && available == Available(capacity, DecodeTokens(s), Prompts(s))
    requires even <==> Prompts(s) > 0 && available >= Prompts(s) && available % Prompts(s) == 0
    ensures Order(s, capacity, turn).0
         == (if DecodeTokens(s) <= capacity then SortBySlot(Decoders(s, turn)) else Decoders(s, turn))
            + (if even then SortBySlot(Waiting(s, turn)) else Waiting(s, turn))
  {
    SplitCounts(s, turn);
  }

  /** Decoders go first.  They go in the order of their slots if they all fit; so do prompts if the room divides evenly
      among them.  Whoever is not sorted comes in the order of the rotation. */
  lemma OrderArranges(s: seq<Item>, capacity: int, turn: nat, i: nat, j: nat)
    requires i < j < |Order(s, capacity, turn).0|
    ensures var o := Order(s, capacity, turn).0;
            && (o[j].done ==> o[i].done)
            && (o[j].done && DecodeTokens(s) <= capacity ==> o[i].slot <= o[j].slot)
            && (!o[i].done && Even(s, capacity) ==> o[i].slot <= o[j].slot)
  {
    var d, p := Arranged(s, capacity, turn);
    SortedPart(Decoders(s, turn));
    SortedPart(Waiting(s, turn));
    InParts(d, p, i, j, DecodeTokens(s) <= capacity, Even(s, capacity));
  }

  lemma InParts(d: seq<Item>, p: seq<Item>, i: nat, j: nat, first: bool, second: bool)
    requires i < j < |d + p| && (forall x :: x in d ==> x.done) && (forall x :: x in p ==> !x.done)
    requires (first ==> BySlot(d)) && (second ==> BySlot(p))
    ensures var o := d + p;
            && (o[j].done ==> o[i].done)
            && (o[j].done && first ==> o[i].slot <= o[j].slot)
            && (!o[i].done && second ==> o[i].slot <= o[j].slot)
  {
    if i < |d| {
      assert d[i] in d;
      assert j >= |d| ==> p[j - |d|] in p;
    } else {
      assert p[i - |d|] in p && p[j - |d|] in p;
    }
  }

  // ---- the shares ----

  /** The prompt tokens that a turn may read: what the decoders leave, and next to live decoders no more than about 1024,
      the same for every prompt and at least one. */
  function Room(s: seq<Item>, capacity: int): int {
    var left := capacity - DecodeTokens(s);
    if DecodeTokens(s) == 0 || Prompts(s) == 0 then left
    else Min(left, Max(1, MIXED_PREFILL_BUDGET / Prompts(s)) * Prompts(s))
  }

  predicate Even(s: seq<Item>, capacity: int) {
    Prompts(s) > 0 && Room(s, capacity) >= Prompts(s) && Room(s, capacity) % Prompts(s) == 0
  }

  lemma RoomIs(s: seq<Item>, capacity: int)
    requires DecodeTokens(s) <= capacity
    ensures Available(capacity, DecodeTokens(s), Prompts(s)) == Room(s, capacity)
  {
  }

  /** a shared out among p: q for each is enough, and less would not be. */
  predicate EqualShareOf(a: int, p: nat, q: nat) { p * q >= a && (q > 0 ==> p * (q - 1) < a) }

  lemma CeilBounds(a: nat, p: nat)
    requires p > 0
    ensures EqualShareOf(a, p, PrefillLimit(a, p))
  {
    var q := (a + p - 1) / p;
    var r := (a + p - 1) % p;
    DivMod(a + p - 1, p, q, r);
    MulSucc(q - 1, p);
  }

  lemma DivMod(a: nat, p: nat, q: nat, r: nat)
    requires p > 0 && q == a / p && r == a % p
    ensures a == q * p + r && r < p
  {
  }

  lemma LimitIs(s: seq<Item>, capacity: int, turn: nat)
    requires s != [] && DecodeTokens(s) <= capacity
    ensures Room(s, capacity) >= 0 && Order(s, capacity, turn).1 == PrefillLimit(Room(s, capacity), Prompts(s))
  {
    var d, p := OrderShape(s, capacity, turn);
    RoomIs(s, capacity);
  }

  /** The limit of a turn is an equal share of the room, rounded up. */
  lemma LimitIsShare(s: seq<Item>, capacity: int, turn: nat)
    requires s != [] && Prompts(s) > 0 && DecodeTokens(s) <= capacity
    ensures EqualShareOf(Room(s, capacity), Prompts(s), Order(s, capacity, turn).1)
  {
    LimitIs(s, capacity, turn);
    CeilBounds(Room(s, capacity), Prompts(s));
  }

  /** Every live prompt has at least q tokens left to read. */
  ghost predicate Hungry(s: seq<Item>, q: nat) { forall x :: x in s && !x.done && !x.flagged ==> x.want >= q }

  /** Behind the decoders, prompts that have tokens left take their limit until the batch is full. */
  lemma {:induction false} PromptsFill(d: seq<Item>, p: seq<Item>, capacity: int, limit: nat)
    requires (forall x :: x in p ==> !x.done) && Hungry(p, limit) && Used(d, capacity, limit) <= capacity
    ensures Used(d + p, capacity, limit) == Min(capacity, Used(d, capacity, limit) + Budget(p, limit))
  {
    if p == [] {
      assert d + p == d;
    } else {
      var n := |p| - 1;
      assert (d + p)[..|d + p| - 1] == d + p[..n];
      PromptsFill(d, p[..n], capacity, limit);
    }
  }

  /** The batch of a turn takes up the whole room: if every live prompt has its share left to read, the prompts read at
      least as much as there is room for, and all that fits when no decoder is live. */
  lemma RoomIsUsed(s: seq<Item>, capacity: int, turn: nat)
    requires s != [] && Prompts(s) > 0 && DecodeTokens(s) <= capacity && Hungry(s, Order(s, capacity, turn).1)
    ensures var (o, limit) := Order(s, capacity, turn);
            && DecodeTokens(s) + Room(s, capacity) <= Used(o, capacity, limit) <= capacity
            && (DecodeTokens(s) == 0 ==> Used(o, capacity, limit) == capacity)
  {
    var limit := Order(s, capacity, turn).1;
    var d, p := OrderParts(s, capacity, turn, limit, Order(s, capacity, turn).0);
    RoomFits(s, capacity);
    EnoughShare(s, capacity, turn, p);
    PartsUse(d, p, capacity, limit, Room(s, capacity));
  }

  lemma EnoughShare(s: seq<Item>, capacity: int, turn: nat, p: seq<Item>)
    requires s != [] && Prompts(s) > 0 && DecodeTokens(s) <= capacity && Prompts(p) == Prompts(s)
    ensures Budget(p, Order(s, capacity, turn).1) >= Room(s, capacity)
  {
    BudgetIsProduct(p, Order(s, capacity, turn).1);
    LimitIsShare(s, capacity, turn);
  }

  lemma RoomFits(s: seq<Item>, capacity: int)
    ensures Room(s, capacity) <= capacity - DecodeTokens(s)
    ensures DecodeTokens(s) == 0 ==> Room(s, capacity) == capacity
  {
  }

  lemma PartsUse(d: seq<Item>, p: seq<Item>, capacity: int, limit: nat, room: int)
    requires (forall x :: x in d ==> x.done) && (forall x :: x in p ==> !x.done)
    requires room <= capacity - DecodeTokens(d) && DecodeTokens(d) <= capacity && Hungry(p, limit) && room <= Budget(p, limit)
    ensures DecodeTokens(d) + room <= Used(d + p, capacity, limit) <= capacity
  {
    DecodersPlaced(d, capacity, limit);
    PromptsFill(d, p, capacity, limit);
  }

  lemma OrderParts(s: seq<Item>, capacity: int, turn: nat, limit: nat, o: seq<Item>) returns (d: seq<Item>, p: seq<Item>)
    requires s != [] && o == Order(s, capacity, turn).0 && Hungry(s, limit)
    ensures o == d + p && (forall x :: x in d ==> x.done) && (forall x :: x in p ==> !x.done) && Hungry(p, limit)
    ensures DecodeTokens(d) == DecodeTokens(s) && Prompts(p) == Prompts(s)
  {
    OrderIsPermutation(s, capacity, turn);
    PermuteMembers(o, s);
    d, p := OrderShape(s, capacity, turn);
    forall x | x in p ensures x in o { assert x in d + p; }
  }

  /** A prompt reads less than the smaller of what it has left and the limit only where the batch is full. */
  lemma ShareIsAllOrFull(s: seq<Item>, k: nat, capacity: int, limit: nat)
    requires k < |s| && !s[k].done && !s[k].flagged && 0 <= capacity
    ensures Share(s, k, capacity, limit) == Min(s[k].want, limit) || Used(s[..k + 1], capacity, limit) == capacity
    ensures Share(s, k, capacity, limit) <= Min(s[k].want, limit)
  {
    assert s[..k + 1][..k] == s[..k];
    BatchFits(s[..k], capacity, limit);
  }
}
