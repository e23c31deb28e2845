/** How large a shared context pool fits into memory: searches over probes that may fail. */
module ContextPoolFit {

  const INT_MAX: int := 2147483647
  const SIZE_MAX: int := 18446744073709551615

  datatype Option<T> = None | Some(value: T)
  datatype Error = OutOfMemory | Internal | InvalidArgument | Cancelled | Timeout | ResourceBusy
  datatype Result<T> = Ok(value: T) | Err(error: Error)

  // ---- does one configuration fit ----

  function CheckedAdd(a: int, b: int): (r: Result<int>)
    requires 0 <= a <= SIZE_MAX && 0 <= b <= SIZE_MAX
    ensures r.Ok? <==> a + b <= SIZE_MAX
    ensures r.Ok? ==> r.value == a + b
  {
    if b > SIZE_MAX - a then Err(OutOfMemory) else Ok(a + b)
  }

  datatype Memory = Memory(free: int, total: int)

  /** What a device needs, has, and would get back. */
  datatype Demand = Demand(required: int, memory: Memory, credit: int, margin: int)

  predicate Sizes(d: Demand) {
    && 0 <= d.required <= SIZE_MAX && 0 <= d.memory.free <= SIZE_MAX && 0 <= d.memory.total <= SIZE_MAX
    && 0 <= d.credit <= SIZE_MAX && 0 <= d.margin
  }

  function CheckDevice(d: Demand): (r: Result<bool>)
    requires Sizes(d)
  {
    if d.memory.free == 0 && d.memory.total == 0 then Err(Internal)
    else
      match CheckedAdd(d.memory.free, d.credit)
      case Err(e) => Err(e)
      case Ok(credited) =>
        var free := if d.memory.total < credited then d.memory.total else credited;
        Ok(free >= d.margin && d.required <= free - d.margin)
  }

  /** The host, if it is needed, comes first; then every device. */
  method CheckAvailable(demands: seq<Demand>) returns (r: Result<bool>)
    requires forall i | 0 <= i < |demands| :: Sizes(demands[i])
    ensures r == Ok(true) <==> forall i | 0 <= i < |demands| :: CheckDevice(demands[i]) == Ok(true)
    ensures r.Err? <==> exists i :: 0 <= i < |demands| && CheckDevice(demands[i]).Err?
    ensures r.Err? ==> exists i :: 0 <= i < |demands| && CheckDevice(demands[i]) == r && forall j | 0 <= j < i :: CheckDevice(demands[j]).Ok?
  {
    var fits := true;
    var k := 0;
    while k < |demands|
      invariant k <= |demands| && forall i | 0 <= i < k :: CheckDevice(demands[i]).Ok?
      invariant fits <==> forall i | 0 <= i < k :: CheckDevice(demands[i]) == Ok(true)
    {
      var device := CheckDevice(demands[k]);
      if device.Err? {
        return Err(device.error);
      }
      fits := fits && device.value;
      k := k + 1;
    }
    return Ok(fits);
  }

  /** A device that meets a demand has room for it under the margin, and meets every smaller one: this is why
      fitting is downward closed in what the context requires. */
  lemma FitIsDownwardClosed(d: Demand, smaller: int)
    requires Sizes(d) && 0 <= smaller <= d.required
    ensures CheckDevice(d) == Ok(true) ==> CheckDevice(d.(required := smaller)) == Ok(true)
    ensures CheckDevice(d) == Ok(true) <==>
              && !(d.memory.free == 0 && d.memory.total == 0) && d.memory.free + d.credit <= SIZE_MAX
              && d.required + d.margin <= d.memory.total && d.required + d.margin <= d.memory.free + d.credit
  {
  }

  // ---- probing ----

  /** What building a context of this capacity and number of sequences shows. */
  datatype Answer = Fits(actual: int) | TooLarge | Failed(error: Error)

  /** The answer to the n-th probe; memory may change between probes. */
  type Oracle = (int, int, nat) -> Answer

  /** The error, if any, that a probe reports. */
  function ErrorOf(a: Answer): Option<Error> {
    match a
    case Fits(actual) => if actual > INT_MAX then Some(InvalidArgument) else None
    case TooLarge => None
    case Failed(e) => Some(e)
  }

  /** The last probe reported this error. */
  ghost predicate Reported(q: Prober, e: Error)
    reads q
  {
    ErrorOf(q.oracle(q.lastCapacity, q.lastSequences, q.count)) == Some(e)
  }

  ghost predicate Steady(o: Oracle) { forall c: int, s: int, n: nat :: o(c, s, n) == o(c, s, 0) }

  predicate Good(o: Oracle, c: int, s: int) { o(c, s, 0).Fits? }

  /** What fits still fits with less capacity and fewer sequences.  No sequences at all means that their number is left
      at its default, so such probes compare only with one another. */
  ghost predicate Closed(o: Oracle) {
    forall c: int, s: int, c': int, s': int | 0 < c' <= c && (1 <= s' <= s || s == s' == 0) && Good(o, c, s) :: Good(o, c', s')
  }

  /** A larger capacity is not rounded to less. */
  ghost predicate Rounds(o: Oracle) {
    forall c: int, c': int, n: nat, m: nat | c' <= c && o(c, 0, n).Fits? && o(c', 0, m).Fits? ::
      o(c', 0, m).actual <= o(c, 0, n).actual
  }

  class Prober {
    const oracle: Oracle
    var count: nat
    var selectedActual: int
    ghost var lastCapacity: int
    ghost var lastSequences: int

    constructor (oracle: Oracle)
      ensures this.oracle == oracle && count == 0 && selectedActual == 0
    {
      this.oracle, count, selectedActual := oracle, 0, 0;
      lastCapacity, lastSequences := 0, 0;
    }

    method Probe(capacity: int, sequences: int) returns (r: Result<bool>)
      requires 0 < capacity <= INT_MAX && 0 <= sequences <= INT_MAX
      modifies this
      ensures count == old(count) + 1 && lastCapacity == capacity && lastSequences == sequences
      ensures match oracle(capacity, sequences, count)
              case Failed(e) => r == Err(e) && selectedActual == old(selectedActual)
              case TooLarge => r == Ok(false) && selectedActual == old(selectedActual)
              case Fits(actual) =>
                if actual > INT_MAX then r == Err(InvalidArgument) && selectedActual == old(selectedActual)
                else r == Ok(true) && selectedActual == if actual > old(selectedActual) then actual else old(selectedActual)
    {
      count, lastCapacity, lastSequences := count + 1, capacity, sequences;
      match oracle(capacity, sequences, count)
      case Failed(e) => return Err(e);
      case TooLarge => return Ok(false);
      case Fits(actual) =>
        if actual > INT_MAX {
          return Err(InvalidArgument);
        }
        if actual > selectedActual {
          selectedActual := actual;
        }
        return Ok(true);
    }
  }

  // ---- the automatic mode: galloping and bisection, twice ----

  /** The capacity at which n sequences are tried. */
  datatype Plan = PerRequest(minimum: int) | OnePool(pool: int)

  function CapacityFor(p: Plan, n: int): int {
    match p case PerRequest(minimum) => n * minimum case OnePool(pool) => pool
  }

  /** Every candidate up to the limit has a capacity that is an int. */
  predicate Representable(p: Plan, limit: int) {
    forall n | 1 <= n <= limit :: 0 < CapacityFor(p, n) <= INT_MAX
  }

  predicate PlanGood(o: Oracle, p: Plan, n: int) { Good(o, CapacityFor(p, n), n) }

  ghost predicate PlanClosed(o: Oracle, p: Plan, limit: int) {
    forall m: int, n: int | 1 <= m <= n <= limit && PlanGood(o, p, n) :: PlanGood(o, p, m)
  }

  /** n is the largest number of sequences, between from and limit, that the plan fits. */
  ghost predicate Largest(o: Oracle, p: Plan, from: int, limit: int, n: int) {
    from <= n <= limit && PlanGood(o, p, n) && forall m | n < m <= limit :: !PlanGood(o, p, m)
  }

  function Min(a: int, b: int): int { if a < b then a else b }

  /** Doubles until a probe fails or the limit is passed. */
  method Gallop(q: Prober, p: Plan, start: int, first: int, limit: int) returns (r: Result<(int, int)>)
    requires 1 <= start <= limit && limit <= INT_MAX / 2 && start < first <= limit + 1 && Representable(p, limit)
    modifies q
    ensures q.count >= old(q.count) && (r.Err? ==> Reported(q, r.error))
    ensures r.Ok? ==>
              && start <= r.value.0 < r.value.1 <= limit + 1
              && (Steady(q.oracle) && PlanGood(q.oracle, p, start) ==>
                    PlanGood(q.oracle, p, r.value.0) && (r.value.1 <= limit ==> !PlanGood(q.oracle, p, r.value.1)))
  {
    var good, upper := start, first;
    while upper <= limit
      invariant start <= good < upper <= limit + 1 && q.count >= old(q.count)
      invariant Steady(q.oracle) && PlanGood(q.oracle, p, start) ==> PlanGood(q.oracle, p, good)
      decreases limit + 1 - upper
    {
      var fits := q.Probe(CapacityFor(p, upper), upper);
      if fits.Err? {
        return Err(fits.error);
      }
      if !fits.value {
        break;
      }
      good := upper;
      upper := Min(limit + 1, upper * 2);
    }
    return Ok((good, upper));
  }

  /** start fits, and first, unless it is past the limit, does not. */
  ghost predicate Bracketed(o: Oracle, p: Plan, start: int, first: int, limit: int) {
    PlanGood(o, p, start) && (first <= limit ==> !PlanGood(o, p, first))
  }

  method Bisect(q: Prober, p: Plan, start: int, first: int, limit: int) returns (r: Result<int>)
    requires 1 <= start < first <= limit + 1 && limit <= INT_MAX / 2 && Representable(p, limit)
    modifies q
    ensures q.count >= old(q.count) && (r.Err? ==> Reported(q, r.error))
    ensures r.Ok? ==> start <= r.value <= limit
    ensures r.Ok? && Steady(q.oracle) && PlanGood(q.oracle, p, start) ==> PlanGood(q.oracle, p, r.value)
    ensures r.Ok? && Steady(q.oracle) && PlanClosed(q.oracle, p, limit) && Bracketed(q.oracle, p, start, first, limit) ==>
              Largest(q.oracle, p, start, limit, r.value)
  {
    var good, upper := start, first;
    while good + 1 < upper
      invariant start <= good < upper <= limit + 1 && q.count >= old(q.count)
      invariant Steady(q.oracle) && PlanGood(q.oracle, p, start) ==> PlanGood(q.oracle, p, good)
      invariant Steady(q.oracle) && (first <= limit ==> !PlanGood(q.oracle, p, first)) && upper <= limit ==>
                  !PlanGood(q.oracle, p, upper)
      decreases upper - good
    {
      var candidate := good + (upper - good) / 2;
      var fits := q.Probe(CapacityFor(p, candidate), candidate);
      if fits.Err? {
        return Err(fits.error);
      }
      if fits.value {
        good := candidate;
      } else {
        upper := candidate;
      }
    }
    return Ok(good);
  }

  datatype Choice = Choice(sequences: int, fullRequests: int, actual: int)

  /** So many sequences may be tried: the library takes them, a batch holds a row of each, and the capacity for as many
      full requests is an int. */
  predicate MayTry(maxParallel: int, nBatch: int, minimum: int, n: int) {
    1 <= n <= maxParallel && (n == 1 || n <= nBatch) && n * minimum <= INT_MAX
  }

  /** limit is the largest number of sequences that may be tried. */
  ghost predicate IsLimit(maxParallel: int, nBatch: int, minimum: int, limit: int) {
    MayTry(maxParallel, nBatch, minimum, limit) && forall n | n > limit :: !MayTry(maxParallel, nBatch, minimum, n)
  }

  function MaximumSequences(maxParallel: int, nBatch: int, minimum: int): (r: int)
    requires 1 <= maxParallel && 0 <= nBatch && 0 < minimum <= INT_MAX
    ensures IsLimit(maxParallel, nBatch, minimum, r)
  {
    var r := Min(maxParallel, Min(if nBatch < 1 then 1 else nBatch, INT_MAX / minimum));
    ProductFits(r, minimum);
    MoreDoNotFit(maxParallel, nBatch, minimum, r);
    r
  }

  lemma MoreDoNotFit(maxParallel: int, nBatch: int, minimum: int, r: int)
    requires 1 <= maxParallel && 0 <= nBatch && 0 < minimum <= INT_MAX
    requires r == Min(maxParallel, Min(if nBatch < 1 then 1 else nBatch, INT_MAX / minimum))
    ensures forall n | n > r :: !MayTry(maxParallel, nBatch, minimum, n)
  {
    forall n | n > INT_MAX / minimum ensures n * minimum > INT_MAX {
      assert n * minimum >= (INT_MAX / minimum + 1) * minimum;
    }
  }

  lemma ProductFits(n: int, minimum: int)
    requires 0 < minimum <= INT_MAX && n <= INT_MAX / minimum
    ensures n * minimum <= INT_MAX && INT_MAX / minimum >= 1
  {
    assert n * minimum <= (INT_MAX / minimum) * minimum;
  }

  /** No product of a number of sequences and the request capacity leaves the range of int. */
  lemma RequestsRepresentable(minimum: int, limit: int)
    requires 0 < minimum && limit * minimum <= INT_MAX
    ensures Representable(PerRequest(minimum), limit)
  {
    forall n | 1 <= n <= limit ensures 0 < n * minimum <= INT_MAX {
      assert n * minimum <= limit * minimum;
    }
  }

  lemma ClosedPlans(o: Oracle, p: Plan, limit: int)
    requires Closed(o) && Representable(p, limit) && (p.PerRequest? ==> p.minimum > 0)
    ensures PlanClosed(o, p, limit)
  {
    forall m: int, n: int | 1 <= m <= n <= limit && PlanGood(o, p, n) ensures PlanGood(o, p, m) {
      if p.PerRequest? {
        assert m * p.minimum <= n * p.minimum;
      }
      assert 0 < CapacityFor(p, m) <= CapacityFor(p, n);
    }
  }

  /** Gallop, then bisect: the largest number of sequences that fits. */
  method LargestFor(q: Prober, p: Plan, start: int, first: int, limit: int) returns (r: Result<int>)
    requires 1 <= start <= limit && limit <= INT_MAX / 2 && start < first <= limit + 1 && Representable(p, limit)
    requires p.PerRequest? ==> p.minimum > 0
    modifies q
    ensures q.count >= old(q.count) && (r.Err? ==> Reported(q, r.error))
    ensures r.Ok? ==> start <= r.value <= limit
    ensures r.Ok? && Steady(q.oracle) && PlanGood(q.oracle, p, start) ==> PlanGood(q.oracle, p, r.value)
    ensures r.Ok? && Steady(q.oracle) && Closed(q.oracle) && PlanGood(q.oracle, p, start) ==>
              Largest(q.oracle, p, start, limit, r.value)
  {
    if Closed(q.oracle) {
      ClosedPlans(q.oracle, p, limit);
    }
    var bracket := Gallop(q, p, start, first, limit);
    if bracket.Err? {
      return Err(bracket.error);
    }
    r := Bisect(q, p, bracket.value.0, bracket.value.1, limit);
  }

  /** The largest number of whole requests that fits, then the largest number of sequences that share that pool. */
  ghost predicate Best(o: Oracle, minimum: int, limit: int, c: Choice) {
    && Largest(o, PerRequest(minimum), 1, limit, c.fullRequests)
    && Largest(o, OnePool(c.fullRequests * minimum), c.fullRequests, limit, c.sequences)
    && o(c.fullRequests * minimum, c.sequences, 0) == Fits(c.actual)
  }

  method FitSequences(q: Prober, minimum: int, limit: int) returns (r: Result<Choice>)
    requires 0 < minimum && 1 <= limit <= INT_MAX / 2 && limit * minimum <= INT_MAX
    modifies q
    ensures r.Err? ==> Reported(q, r.error)
                       || (r.error == OutOfMemory && (Steady(q.oracle) ==> !Good(q.oracle, minimum, 1)))
    ensures r.Ok? ==> 1 <= r.value.fullRequests <= r.value.sequences <= limit
    ensures r.Ok? && Steady(q.oracle) ==> Good(q.oracle, r.value.fullRequests * minimum, r.value.sequences)
    ensures r.Ok? && Steady(q.oracle) && Closed(q.oracle) && Positive(q.oracle) ==> Best(q.oracle, minimum, limit, r.value)
  {
    RequestsRepresentable(minimum, limit);
    assert CapacityFor(PerRequest(minimum), 1) == minimum;
    var one := q.Probe(minimum, 1);
    if one.Err? {
      return Err(one.error);
    }
    if !one.value {
      return Err(OutOfMemory);
    }
    assert Steady(q.oracle) ==> PlanGood(q.oracle, PerRequest(minimum), 1);
    var full := LargestFor(q, PerRequest(minimum), 1, Min(2, limit + 1), limit);
    if full.Err? {
      return Err(full.error);
    }
    var n := full.value;
    var pool := CapacityFor(PerRequest(minimum), n);
    var shared := LargestFor(q, OnePool(pool), n, Min(limit + 1, n * 2), limit);
    if shared.Err? {
      return Err(shared.error);
    }
    q.selectedActual := 0;
    var final := q.Probe(pool, shared.value);
    if final.Err? {
      return Err(final.error);
    }
    if !final.value {
      return Err(OutOfMemory);
    }
    return Ok(Choice(shared.value, n, q.selectedActual));
  }

  /** A context that fits has a positive size. */
  ghost predicate Positive(o: Oracle) { forall c: int, s: int, n: nat | o(c, s, n).Fits? :: o(c, s, n).actual > 0 }

  // ---- the bounded mode: twelve halvings ----

  function Pow2(k: nat): (p: nat)
    ensures p >= 1
  {
    if k == 0 then 1 else 2 * Pow2(k - 1)
  }

  lemma Halve(gap: int, half: int, p: int, whole: int)
    requires p >= 1 && gap * p < whole + p && 2 * half <= gap + 1
    ensures half * (2 * p) < whole + 2 * p
  {
    assert (2 * half) * p <= (gap + 1) * p;
    assert (gap + 1) * p == gap * p + p;
    assert half * (2 * p) == (2 * half) * p;
  }

  function Ceil(a: int, b: int): int
    requires b > 0
  {
    (a + b - 1) / b
  }

  /** threshold is the largest capacity between minimum and maximum that fits. */
  ghost predicate Threshold(o: Oracle, minimum: int, maximum: int, threshold: int) {
    minimum <= threshold <= maximum && Good(o, threshold, 0) && forall c | threshold < c <= maximum :: !Good(o, c, 0)
  }

  /** What is known after some probes: selected fits, failure does not, and the gap has been halved k times. */
  ghost predicate Bracket(o: Oracle, selected: int, failure: int, k: nat, width: int) {
    selected < failure && Good(o, selected, 0) && !Good(o, failure, 0) && (failure - selected) * Pow2(k) < width + Pow2(k)
  }

  lemma BracketHalves(o: Oracle, selected: int, failure: int, k: nat, width: int)
    requires Bracket(o, selected, failure, k, width) && selected + 1 < failure
    ensures var mid := selected + (failure - selected) / 2;
            if Good(o, mid, 0) then Bracket(o, mid, failure, k + 1, width) else Bracket(o, selected, mid, k + 1, width)
  {
    var mid := selected + (failure - selected) / 2;
    Halve(failure - selected, failure - mid, Pow2(k), width);
    Halve(failure - selected, mid - selected, Pow2(k), width);
  }

  lemma BracketIsClose(o: Oracle, selected: int, failure: int, k: nat, minimum: int, maximum: int, threshold: int)
    requires Closed(o) && 0 < minimum <= selected < failure <= maximum && Threshold(o, minimum, maximum, threshold)
    requires Bracket(o, selected, failure, k, maximum - minimum) && (k == 12 || (k < 12 && selected + 1 == failure))
    ensures selected <= threshold < failure && threshold - selected < Ceil(maximum - minimum, 4096)
  {
    assert threshold >= failure ==> Good(o, failure, 0);
    assert Pow2(12) == 4096 by {
      assert Pow2(4) == 16;
      assert Pow2(8) == 256;
    }
    if k == 12 {
      assert (failure - selected) * 4096 < maximum - minimum + 4096;
    }
  }

  /** What the bounded mode promises of the capacity it asks for. */
  ghost predicate Near(o: Oracle, minimum: int, maximum: int, selected: int) {
    minimum <= selected <= maximum && Good(o, selected, 0)
    && forall t | Threshold(o, minimum, maximum, t) ::
         selected <= t && (t == selected || t - selected < Ceil(maximum - minimum, 4096))
  }

  /** selected is the largest capacity probed so far that fits, and the prober has kept its size. */
  ghost predicate Kept(q: Prober, selected: int)
    reads q
  {
    exists n: nat :: q.oracle(selected, 0, n) == Fits(q.selectedActual)
  }

  /** A probe of a larger capacity that fits replaces the size kept. */
  lemma KeptLarger(o: Oracle, selected: int, larger: int, n: nat, m: nat)
    requires Rounds(o) && selected <= larger && o(selected, 0, n).Fits? && o(larger, 0, m).Fits?
    ensures o(selected, 0, n).actual <= o(larger, 0, m).actual
  {
  }

  method ProbeLarger(q: Prober, selected: int, capacity: int) returns (r: Result<bool>)
    requires 0 < selected <= capacity <= INT_MAX
    modifies q
    ensures q.count == old(q.count) + 1 && (r.Err? ==> Reported(q, r.error))
    ensures r.Ok? && Steady(q.oracle) ==> r.value == Good(q.oracle, capacity, 0)
    ensures r.Ok? && Rounds(q.oracle) && old(Kept(q, selected)) ==> Kept(q, if r.value then capacity else selected)
  {
    r := q.Probe(capacity, 0);
    ghost var before := old(q.selectedActual);
    if r == Ok(true) && Rounds(q.oracle) && old(Kept(q, selected)) {
      ghost var n: nat :| q.oracle(selected, 0, n) == Fits(before);
      KeptLarger(q.oracle, selected, capacity, n, q.count);
      assert q.oracle(capacity, 0, q.count) == Fits(q.selectedActual);
    }
  }

  /** fit_context_pool without automatic concurrency: selected is the capacity asked for, actual what it is rounded
      to.  At most 14 probes. */
  method FitCapacity(q: Prober, minimum: int, maximum: int) returns (r: Result<int>, selected: int)
    requires 0 < minimum <= maximum <= INT_MAX && q.count == 0 && q.selectedActual == 0
    modifies q
    ensures q.count <= 14
    ensures r.Err? ==> Reported(q, r.error)
                       || (r.error == OutOfMemory && (Steady(q.oracle) ==> !Good(q.oracle, minimum, 0)))
    ensures r.Ok? ==> r.value == q.selectedActual
    ensures r.Ok? && Steady(q.oracle) && Closed(q.oracle) ==> Near(q.oracle, minimum, maximum, selected)
    ensures r.Ok? && Rounds(q.oracle) && Positive(q.oracle) ==> Kept(q, selected)
  {
    selected := minimum;
    var fits := q.Probe(minimum, 0);
    if fits.Err? {
      return Err(fits.error), selected;
    }
    if !fits.value {
      return Err(OutOfMemory), selected;
    }
    assert Positive(q.oracle) ==> q.oracle(minimum, 0, 1) == Fits(q.selectedActual);
    if maximum == minimum {
      return Ok(q.selectedActual), selected;
    }
    fits := ProbeLarger(q, minimum, maximum);
    if fits.Err? {
      return Err(fits.error), selected;
    }
    if fits.value {
      return Ok(q.selectedActual), maximum;
    }
    r, selected := Narrow(q, minimum, maximum);
  }

  method Narrow(q: Prober, minimum: int, maximum: int) returns (r: Result<int>, selected: int)
    requires 0 < minimum < maximum <= INT_MAX && q.count == 2
    requires Steady(q.oracle) ==> Good(q.oracle, minimum, 0) && !Good(q.oracle, maximum, 0)
    modifies q
    ensures q.count <= 14 && (r.Err? ==> Reported(q, r.error))
    ensures r.Ok? ==> r.value == q.selectedActual
    ensures r.Ok? && Steady(q.oracle) && Closed(q.oracle) ==> Near(q.oracle, minimum, maximum, selected)
    ensures r.Ok? && Rounds(q.oracle) && old(Kept(q, minimum)) ==> Kept(q, selected)
  {
    selected := minimum;
    var failure := maximum;
    var k := 0;
    while k < 12 && selected + 1 < failure
      invariant k <= 12 && minimum <= selected < failure <= maximum && q.count == 2 + k
      invariant Steady(q.oracle) ==> Bracket(q.oracle, selected, failure, k, maximum - minimum)
      invariant Rounds(q.oracle) && old(Kept(q, minimum)) ==> Kept(q, selected)
    {
      if Steady(q.oracle) {
        BracketHalves(q.oracle, selected, failure, k, maximum - minimum);
      }
      var midpoint := selected + (failure - selected) / 2;
      var fits := ProbeLarger(q, selected, midpoint);
      if fits.Err? {
        return Err(fits.error), selected;
      }
      if fits.value {
        selected := midpoint;
      } else {
        failure := midpoint;
      }
      k := k + 1;
    }
    if Steady(q.oracle) && Closed(q.oracle) {
      forall t | Threshold(q.oracle, minimum, maximum, t) ensures selected <= t && t - selected < Ceil(maximum - minimum, 4096) {
        BracketIsClose(q.oracle, selected, failure, k, minimum, maximum, t);
      }
    }
    return Ok(q.selectedActual), selected;
  }

  // ---- the whole call ----

  datatype Request = Request(pathEmpty: bool, minimum: int, maximum: int, marginMb: int, stopped: Option<Error>,
                             automatic: bool, maxParallel: int, nBatch: int)

  predicate ValidRequest(a: Request) { !a.pathEmpty && 0 < a.minimum <= a.maximum && a.marginMb >= 0 }

  datatype Outcome = Capacity(asked: int, actual: int) | Concurrency(choice: Choice)

  /** maxParallel is the library's bound on parallel sequences; doubling a number below it stays an int. */
  method FitContextPool(q: Prober, a: Request) returns (r: Result<Outcome>)
    requires a.minimum <= INT_MAX && a.maximum <= INT_MAX && 1 <= a.maxParallel <= INT_MAX / 2 && 0 <= a.nBatch
    requires q.count == 0 && q.selectedActual == 0
    modifies q
    ensures !ValidRequest(a) ==> r == Err(InvalidArgument) && q.count == 0
    ensures ValidRequest(a) && a.stopped.Some? ==> r == Err(a.stopped.value) && q.count == 0
    ensures ValidRequest(a) && a.stopped.None? && !a.automatic ==>
              && q.count <= 14
              && (r.Err? ==> Reported(q, r.error)
                             || (r.error == OutOfMemory && (Steady(q.oracle) ==> !Good(q.oracle, a.minimum, 0))))
              && (r.Ok? ==>
                    && r.value.Capacity? && r.value.actual == q.selectedActual
                    && (Steady(q.oracle) && Closed(q.oracle) ==> Near(q.oracle, a.minimum, a.maximum, r.value.asked))
                    && (Rounds(q.oracle) && Positive(q.oracle) ==> Kept(q, r.value.asked)))
    ensures ValidRequest(a) && a.stopped.None? && a.automatic ==>
              && (r.Err? ==> Reported(q, r.error)
                             || (r.error == OutOfMemory && (Steady(q.oracle) ==> !Good(q.oracle, a.minimum, 1))))
              && (r.Ok? ==> r.value.Concurrency? && (Steady(q.oracle) && Closed(q.oracle) && Positive(q.oracle) ==>
                    forall limit | IsLimit(a.maxParallel, a.nBatch, a.minimum, limit) ::
                      Best(q.oracle, a.minimum, limit, r.value.choice)))
  {
    if a.pathEmpty || a.minimum <= 0 || a.maximum < a.minimum || a.marginMb < 0 {
      return Err(InvalidArgument);
    }
    if a.stopped.Some? {
      return Err(a.stopped.value);
    }
    if a.automatic {
      var choice := FitSequences(q, a.minimum, MaximumSequences(a.maxParallel, a.nBatch, a.minimum));
      return if choice.Ok? then Ok(Concurrency(choice.value)) else Err(choice.error);
    }
    var actual, asked := FitCapacity(q, a.minimum, a.maximum);
    return if actual.Ok? then Ok(Capacity(asked, actual.value)) else Err(actual.error);
  }
}
