/** fit_chat_history: drop old turns until the rendered conversation fits. */
module ChatFit {

  datatype Message = Message(role: string, content: string)

  type Fits = seq<Message> -> bool

  predicate Leading(m: Message) { m.role == "system" || m.role == "developer" }

  predicate User(m: Message) { m.role == "user" }

  /** How many system and developer messages the conversation starts with. */
  function SystemEnd(ms: seq<Message>): (n: nat)
    ensures n <= |ms| && (n < |ms| ==> !Leading(ms[n])) && forall i | 0 <= i < n :: Leading(ms[i])
  {
    if ms == [] || !Leading(ms[0]) then 0 else 1 + SystemEnd(ms[1..])
  }

  /** The leading messages, then the conversation from start on. */
  function Cut(ms: seq<Message>, start: nat): (r: seq<Message>)
    requires SystemEnd(ms) <= start <= |ms|
    ensures |r| + (start - SystemEnd(ms)) == |ms|
  {
    ms[..SystemEnd(ms)] + ms[start..]
  }

  /** Where the history may be cut: at a user message behind the first turn. */
  predicate Boundary(ms: seq<Message>, i: int) { SystemEnd(ms) < i < |ms| && User(ms[i]) }

  /** A later cut of a conversation that fits also fits. */
  ghost predicate SuffixMonotone(ms: seq<Message>, fits: Fits) {
    forall a, b | Boundary(ms, a) && Boundary(ms, b) && a <= b :: fits(Cut(ms, a)) ==> fits(Cut(ms, b))
  }

  ghost predicate Untouched(ms: seq<Message>, fits: Fits) { fits(ms) || forall i :: !Boundary(ms, i) }

  /** The cut at b is right: nothing to the left of it fits, and it fits unless it is the last one possible. */
  ghost predicate EarliestFit(ms: seq<Message>, fits: Fits, b: int) {
    && Boundary(ms, b)
    && (forall a | Boundary(ms, a) && a < b :: !fits(Cut(ms, a)))
    && (fits(Cut(ms, b)) || forall a | Boundary(ms, a) :: a <= b)
  }

  /** Whatever fits says: the cut fits or is the last, and the boundary before it does not fit. */
  ghost predicate LocallyRight(ms: seq<Message>, fits: Fits, b: int) {
    && Boundary(ms, b)
    && (fits(Cut(ms, b)) || forall a | Boundary(ms, a) :: a <= b)
    && (forall a | Boundary(ms, a) && a < b && (forall c | Boundary(ms, c) && c < b :: c <= a) :: !fits(Cut(ms, a)))
  }

  /** All boundaries, in order. */
  ghost predicate Boundaries(ms: seq<Message>, bs: seq<nat>) {
    && (forall i | 0 <= i < |bs| :: Boundary(ms, bs[i]))
    && (forall i, j | 0 <= i < j < |bs| :: bs[i] < bs[j])
    && (forall b | Boundary(ms, b) :: b in bs)
  }

  class Inputs {
    var messages: seq<Message>

    constructor (messages: seq<Message>)
      ensures this.messages == messages
    {
      this.messages := messages;
    }
  }

  method CollectBoundaries(ms: seq<Message>, systemEnd: nat) returns (bs: seq<nat>)
    requires systemEnd == SystemEnd(ms)
    ensures Boundaries(ms, bs)
  {
    bs := [];
    var index := systemEnd + 1;
    while index < |ms|
      invariant systemEnd < index
      invariant forall i | 0 <= i < |bs| :: Boundary(ms, bs[i]) && bs[i] < index
      invariant forall i, j | 0 <= i < j < |bs| :: bs[i] < bs[j]
      invariant forall b | Boundary(ms, b) && b < index :: b in bs
      decreases |ms| - index
    {
      if User(ms[index]) {
        bs := bs + [index];
      }
      index := index + 1;
    }
  }

  /** What the binary search knows: below lower the last probe failed, and upper fits unless it is the last. */
  ghost predicate Narrowed(ms: seq<Message>, fits: Fits, bs: seq<nat>, lower: nat, upper: nat)
    requires Boundaries(ms, bs)
  {
    && lower <= upper < |bs|
    && (lower > 0 ==> !fits(Cut(ms, bs[lower - 1])))
    && (fits(Cut(ms, bs[upper])) || upper == |bs| - 1)
  }

  lemma FoundLocally(ms: seq<Message>, fits: Fits, bs: seq<nat>, k: nat)
    requires Boundaries(ms, bs) && Narrowed(ms, fits, bs, k, k)
    ensures LocallyRight(ms, fits, bs[k])
  {
    forall a | Boundary(ms, a) && a < bs[k] && (forall c | Boundary(ms, c) && c < bs[k] :: c <= a)
      ensures !fits(Cut(ms, a))
    {
      var i :| 0 <= i < |bs| && bs[i] == a;
      assert i < k;
      assert bs[k - 1] <= a;
      assert i == k - 1;
    }
    if !fits(Cut(ms, bs[k])) {
      forall a | Boundary(ms, a) ensures a <= bs[k] {
        var i :| 0 <= i < |bs| && bs[i] == a;
      }
    }
  }

  lemma FoundEarliest(ms: seq<Message>, fits: Fits, bs: seq<nat>, k: nat)
    requires Boundaries(ms, bs) && Narrowed(ms, fits, bs, k, k) && SuffixMonotone(ms, fits)
    ensures EarliestFit(ms, fits, bs[k])
  {
    FoundLocally(ms, fits, bs, k);
    forall a | Boundary(ms, a) && a < bs[k] ensures !fits(Cut(ms, a)) {
      var i :| 0 <= i < |bs| && bs[i] == a;
      assert i <= k - 1 && bs[i] <= bs[k - 1];
    }
  }

  /** The conversation ends as it was, or as its leading messages and a suffix that starts at a user message;
      dropped says how many messages went. */
  ghost predicate Fitted(ms: seq<Message>, fits: Fits, after: seq<Message>, dropped: nat) {
    && |after| + dropped == |ms|
    && (dropped == 0 <==> Untouched(ms, fits))
    && (dropped == 0 ==> after == ms)
    && (dropped > 0 ==> CutRight(ms, fits, after, SystemEnd(ms) + dropped))
  }

  ghost predicate CutRight(ms: seq<Message>, fits: Fits, after: seq<Message>, b: nat) {
    LocallyRight(ms, fits, b) && after == Cut(ms, b) && (SuffixMonotone(ms, fits) ==> EarliestFit(ms, fits, b))
  }

  lemma SearchFits(ms: seq<Message>, fits: Fits, bs: seq<nat>, k: nat)
    requires Boundaries(ms, bs) && Narrowed(ms, fits, bs, k, k) && !fits(ms)
    ensures bs[k] > SystemEnd(ms) && Fitted(ms, fits, Cut(ms, bs[k]), bs[k] - SystemEnd(ms))
  {
    FoundLocally(ms, fits, bs, k);
    if SuffixMonotone(ms, fits) {
      FoundEarliest(ms, fits, bs, k);
    }
  }

  method FitChatHistory(inputs: Inputs, fits: Fits) returns (dropped: nat)
    modifies inputs
    ensures Fitted(old(inputs.messages), fits, inputs.messages, dropped)
  {
    var ms := inputs.messages;
    if fits(ms) {
      return 0;
    }
    var systemEnd := CountLeading(ms);
    var bs := CollectBoundaries(ms, systemEnd);
    if bs == [] {
      return 0;
    }
    var lower := Search(inputs, ms, fits, bs);
    SearchFits(ms, fits, bs, lower);
    return bs[lower] - systemEnd;
  }

  method CountLeading(ms: seq<Message>) returns (n: nat)
    ensures n == SystemEnd(ms)
  {
    n := 0;
    while n < |ms| && Leading(ms[n])
      invariant n <= |ms| && forall i | 0 <= i < n :: Leading(ms[i])
    {
      n := n + 1;
    }
    SystemEndIs(ms, n);
  }

  lemma SystemEndIs(ms: seq<Message>, n: nat)
    requires n <= |ms| && (n < |ms| ==> !Leading(ms[n])) && forall i | 0 <= i < n :: Leading(ms[i])
    ensures SystemEnd(ms) == n
  {
    var k := SystemEnd(ms);
    assert k < |ms| ==> !Leading(ms[k]);
  }

  /** The binary search: each probe writes the shortened conversation into the inputs. */
  method Search(inputs: Inputs, ms: seq<Message>, fits: Fits, bs: seq<nat>) returns (lower: nat)
    requires Boundaries(ms, bs) && bs != []
    modifies inputs
    ensures Narrowed(ms, fits, bs, lower, lower) && inputs.messages == Cut(ms, bs[lower])
  {
    var current := 0;
    lower := 0;
    var upper: nat := |bs| - 1;
    while lower < upper
      invariant Narrowed(ms, fits, bs, lower, upper)
      invariant current == 0 || (SystemEnd(ms) <= current <= |ms| && inputs.messages == Cut(ms, current))
      decreases upper - lower
    {
      var middle := lower + (upper - lower) / 2;
      assert Boundary(ms, bs[middle]);
      inputs.messages := Cut(ms, bs[middle]);
      current := bs[middle];
      if fits(inputs.messages) {
        upper := middle;
      } else {
        lower := middle + 1;
      }
    }
    assert Boundary(ms, bs[lower]);
    if current != bs[lower] {
      inputs.messages := Cut(ms, bs[lower]);
    }
  }
}
