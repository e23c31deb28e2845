/** Runs of calls on the key store: coherence, revocation for good, and one lease holder at a time. */
module KeyStoreRun {
  import opened KeyStore

  datatype Call =
    | CreateCall(name: string, priority: int, attempts: Attempts)
    | UpdateCall(key: string, rename: Option<string>, reprioritise: Option<int>, at: int, io: Io)
    | RevokeCall(key: string, at: int, io: Io)
    | InspectCall(now: int, io: Io)
    | AcquireCall(owner: string, now: int, duration: int, nonce: Option<string>, io: Io)
    | RenewCall(owner: string, lease: string, now: int, duration: int, io: Io)
    | ReleaseCall(owner: string, lease: string, io: Io)
    | ReopenCall(loads: bool)

  datatype Reply =
    | Created(key: Result<string>)
    | Updated(row: Result<Row>)
    | Done(done: Result<()>)
    | Seen(seen: Result<Option<Lease>>)
    | Granted(grant: Result<Grant>)
    | Renewed(renewed: Result<Lease>)
    | Opened

  function Apply(s: Store, c: Call): (Store, Reply) {
    match c
    case CreateCall(n, p, a) => var r := CreateKey(s, n, p, a); (r.0, Created(r.1))
    case UpdateCall(k, n, p, t, io) => var r := UpdateKey(s, k, n, p, t, io); (r.0, Updated(r.1))
    case RevokeCall(k, t, io) => var r := RevokeKey(s, k, t, io); (r.0, Done(r.1))
    case InspectCall(t, io) => var r := Inspect(s, t, io); (r.0, Seen(r.1))
    case AcquireCall(o, t, d, x, io) => var r := Acquire(s, o, t, d, x, io); (r.0, Granted(r.1))
    case RenewCall(o, l, t, d, io) => var r := Renew(s, o, l, t, d, io); (r.0, Renewed(r.1))
    case ReleaseCall(o, l, io) => var r := Release(s, o, l, io); (r.0, Done(r.1))
    case ReopenCall(loads) => (Reopen(s, loads), Opened)
  }

  /** A failing statement, a failing commit, an error of any kind or a reopening: the store stays coherent. */
  lemma StepCoherent(s: Store, c: Call)
    requires Coherent(s)
    ensures Coherent(Apply(s, c).0)
  {
    match c
    case CreateCall(n, p, a) => if s.healthy { CreateCoherent(s, n, p, a, 0); }
    case UpdateCall(k, n, p, t, io) => UpdateCoherent(s, k, n, p, t, io);
    case RevokeCall(k, t, io) => RevokeCoherent(s, k, t, io);
    case InspectCall(t, io) => LeaseCoherent(s, Expire(s.db.lease, t));
    case AcquireCall(o, t, d, x, io) => AcquireCoherent(s, o, t, d, x, io);
    case RenewCall(o, l, t, d, io) => RenewCoherent(s, o, l, t, d, io);
    case ReleaseCall(o, l, io) =>
    case ReopenCall(loads) =>
  }

  lemma AcquireCoherent(s: Store, owner: string, now: int, duration: int, nonce: Option<string>, io: Io)
    requires Coherent(s)
    ensures Coherent(Acquire(s, owner, now, duration, nonce, io).0)
  {
    assert s.healthy && owner in s.active ==> Live(s.db.rows, owner);
  }

  lemma RenewCoherent(s: Store, owner: string, id: string, now: int, duration: int, io: Io)
    requires Coherent(s)
    ensures Coherent(Renew(s, owner, id, now, duration, io).0)
  {
  }

  function Run(s: Store, calls: seq<Call>): Store {
    if calls == [] then s else Apply(Run(s, calls[..|calls| - 1]), calls[|calls| - 1]).0
  }

  lemma {:induction false} RunCoherent(s: Store, calls: seq<Call>)
    requires Coherent(s)
    ensures Coherent(Run(s, calls))
  {
    if calls == [] {
    } else {
      RunCoherent(s, calls[..|calls| - 1]);
      StepCoherent(Run(s, calls[..|calls| - 1]), calls[|calls| - 1]);
    }
  }

  // ---- revocation is for good ----

  predicate Revoked(s: Store, key: string) { key in s.db.rows && s.db.rows[key].revoked.Some? }

  lemma StepKeepsRevoked(s: Store, c: Call, key: string)
    requires Coherent(s) && Revoked(s, key)
    ensures Revoked(Apply(s, c).0, key)
  {
    match c
    case CreateCall(n, p, a) => if s.healthy { CreateCoherent(s, n, p, a, 0); }
    case UpdateCall(k, n, p, t, io) => assert s.healthy && k in s.active ==> s.db.rows[k].revoked.None?;
    case RevokeCall(k, t, io) =>
    case InspectCall(t, io) =>
    case AcquireCall(o, t, d, x, io) =>
    case RenewCall(o, l, t, d, io) =>
    case ReleaseCall(o, l, io) =>
    case ReopenCall(loads) =>
  }

  lemma {:induction false} RunKeepsRevoked(s: Store, calls: seq<Call>, key: string)
    requires Coherent(s) && Revoked(s, key)
    ensures Revoked(Run(s, calls), key)
  {
    if calls == [] {
    } else {
      var before := Run(s, calls[..|calls| - 1]);
      RunKeepsRevoked(s, calls[..|calls| - 1], key);
      RunCoherent(s, calls[..|calls| - 1]);
      StepKeepsRevoked(before, calls[|calls| - 1], key);
    }
  }

  /** authenticate_bearer after parsing and hashing: the index entry whose hash matches. */
  function Authenticate(s: Store, key: string, digest: seq<int>): Option<(string, int)> {
    if s.healthy && key in s.active && s.active[key].hash == digest
    then Some((s.active[key].name, s.active[key].priority)) else None
  }

  /** A key authenticates exactly if the table has it unrevoked with that hash. */
  lemma AuthenticateIsTable(s: Store, key: string, digest: seq<int>)
    requires Coherent(s) && s.healthy
    ensures Authenticate(s, key, digest)
         == if Live(s.db.rows, key) && s.db.rows[key].hash == digest
            then Some((s.db.rows[key].name, s.db.rows[key].priority)) else None
  {
  }

  /** A key whose revocation was answered with success never authenticates, acquires or renews again, whatever is called
      and fails afterwards. */
  lemma RevokedForGood(before: Store, at: int, io: Io, calls: seq<Call>, key: string, digest: seq<int>, c: Call)
    requires Coherent(before) && Apply(before, RevokeCall(key, at, io)).1 == Done(Ok(()))
    ensures var s := Run(Apply(before, RevokeCall(key, at, io)).0, calls);
            && Revoked(s, key) && Authenticate(s, key, digest).None?
            && (c.AcquireCall? && c.owner == key ==> Apply(s, c).1.grant.Err?)
            && (c.RenewCall? && c.owner == key ==> Apply(s, c).1.renewed.Err?)
            && (s.db.lease.Some? ==> s.db.lease.value.owner != key)
  {
    var s := Apply(before, RevokeCall(key, at, io)).0;
    RevokeEffect(before, key, at, io);
    StepCoherent(before, RevokeCall(key, at, io));
    RunKeepsRevoked(s, calls, key);
    RunCoherent(s, calls);
    assert key !in Run(s, calls).active;
  }

  // ---- one holder at a time ----

  /** What the callers know from the replies: who was last granted the lease, as last renewed, and neither
      released nor revoked since. */
  function Track(held: Option<Lease>, c: Call, reply: Reply): Option<Lease> {
    match c
    case AcquireCall(_, _, _, _, _) =>
      if reply.Granted? && reply.grant.Ok? && reply.grant.value.Acquired? then Some(reply.grant.value.lease) else held
    case RenewCall(_, _, _, _, _) =>
      if reply.Renewed? && reply.renewed.Ok? then Some(reply.renewed.value) else held
    case ReleaseCall(o, l, _) =>
      if reply.Done? && reply.done.Ok? && Holds(held, o, l) then None else held
    case RevokeCall(k, _, _) =>
      if reply.Done? && reply.done.Ok? then ReleaseOwner(held, k) else held
    case _ => held
  }

  predicate Timed(c: Call) { c.InspectCall? || c.AcquireCall? || c.RenewCall? }

  /** The clock is the latest lease time so far. */
  datatype World = World(s: Store, held: Option<Lease>, clock: int)

  function Step(w: World, c: Call): World {
    var r := Apply(w.s, c);
    World(r.0, Track(w.held, c, r.1), if Timed(c) && c.now > w.clock then c.now else w.clock)
  }

  /** The call's time does not lie before an earlier one. */
  predicate InOrder(w: World, c: Call) { Timed(c) ==> w.clock <= c.now }

  predicate Past(held: Option<Lease>, t: int) { held.Some? ==> held.value.expires <= t }

  /** The stored lease is the one the callers know of; without one, theirs has expired. */
  predicate Tied(w: World) {
    Coherent(w.s) && if w.s.db.lease.Some? then w.held == w.s.db.lease else Past(w.held, w.clock)
  }

  /** What a reply says about the lease is true. */
  ghost predicate ReplyTrue(held: Option<Lease>, c: Call, reply: Reply) {
    match c
    case AcquireCall(o, t, d, _, _) => reply.Granted? && (reply.grant.Ok? ==>
      match reply.grant.value
      case Acquired(l) => Past(held, t) && l.owner == o && l.expires == t + d && l.expires > t
      case Existing(l) => held == Some(l) && t < l.expires && l.owner == o
      case Occupied(l) => held == Some(l) && t < l.expires && l.owner != o)
    case RenewCall(o, id, t, d, _) => reply.Renewed? && (reply.renewed.Ok? ==>
      Holds(held, o, id) && t < held.value.expires && reply.renewed.value == held.value.(expires := t + d))
    case InspectCall(t, _) => reply.Seen? && (reply.seen.Ok? ==>
      match reply.seen.value
      case None => Past(held, t)
      case Some(l) => held == Some(l) && t < l.expires)
    case _ => true
  }

  /** The reply says that nobody holds the lease: it is granted, or not seen. */
  predicate SaysFree(reply: Reply) {
    (reply.Granted? && reply.grant.Ok? && reply.grant.value.Acquired?) || reply == Seen(Ok(None))
  }

  /** The lease that the callers know of is gone from the table and would not have expired yet at the call's time. */
  predicate GoneTooSoon(w: World, c: Call) { Timed(c) && w.s.db.lease.None? && !Past(w.held, c.now) }

  lemma AcquireTied(w: World, c: Call)
    requires Tied(w) && c.AcquireCall?
    ensures Tied(Step(w, c))
    ensures ReplyTrue(w.held, c, Apply(w.s, c).1) <==> !(SaysFree(Apply(w.s, c).1) && GoneTooSoon(w, c))
  {
    AcquireCoherent(w.s, c.owner, c.now, c.duration, c.nonce, c.io);
  }

  lemma RenewTied(w: World, c: Call)
    requires Tied(w) && c.RenewCall?
    ensures Tied(Step(w, c)) && ReplyTrue(w.held, c, Apply(w.s, c).1)
  {
    RenewCoherent(w.s, c.owner, c.lease, c.now, c.duration, c.io);
  }

  lemma InspectTied(w: World, c: Call)
    requires Tied(w) && c.InspectCall?
    ensures Tied(Step(w, c))
    ensures ReplyTrue(w.held, c, Apply(w.s, c).1) <==> !(SaysFree(Apply(w.s, c).1) && GoneTooSoon(w, c))
  {
    StepCoherent(w.s, c);
  }

  lemma OtherTied(w: World, c: Call)
    requires Tied(w) && !Timed(c)
    ensures Tied(Step(w, c))
  {
    StepCoherent(w.s, c);
    match c
    case CreateCall(n, p, a) => if w.s.healthy { CreateCoherent(w.s, n, p, a, 0); }
    case UpdateCall(k, n, p, t, io) =>
    case RevokeCall(k, t, io) =>
      assert w.s.db.lease.Some? ==> !Revoked(w.s, w.s.db.lease.value.owner);
    case ReleaseCall(o, l, io) =>
    case ReopenCall(loads) =>
  }

  /** Whatever the time of a call, the table and what the callers know stay tied, and the reply is true except when it
      calls a lease free that went too soon. */
  lemma StepTied(w: World, c: Call)
    requires Tied(w)
    ensures Tied(Step(w, c))
    ensures ReplyTrue(w.held, c, Apply(w.s, c).1) <==> !(SaysFree(Apply(w.s, c).1) && GoneTooSoon(w, c))
  {
    match c
    case AcquireCall(_, _, _, _, _) => AcquireTied(w, c);
    case RenewCall(_, _, _, _, _) => RenewTied(w, c);
    case InspectCall(_, _) => InspectTied(w, c);
    case _ => OtherTied(w, c);
  }

  function Play(w: World, calls: seq<Call>): World {
    if calls == [] then w else Step(Play(w, calls[..|calls| - 1]), calls[|calls| - 1])
  }

  lemma {:induction false} PlayTied(w: World, calls: seq<Call>)
    requires Tied(w)
    ensures Tied(Play(w, calls))
  {
    if calls == [] {
    } else {
      PlayTied(w, calls[..|calls| - 1]);
      StepTied(Play(w, calls[..|calls| - 1]), calls[|calls| - 1]);
    }
  }

  /** In every run, with call times in any order: a reply about the lease is untrue exactly if it says that the lease is
      free while the one the callers know of went from the table before the time of the call. */
  lemma UntrueIff(s: Store, clock: int, calls: seq<Call>, c: Call)
    requires Coherent(s)
    ensures var w := Play(World(s, s.db.lease, clock), calls);
            ReplyTrue(w.held, c, Apply(w.s, c).1) <==> !(SaysFree(Apply(w.s, c).1) && GoneTooSoon(w, c))
  {
    var start := World(s, s.db.lease, clock);
    PlayTied(start, calls);
    StepTied(Play(start, calls), c);
  }

  /** So in every run every reply about the lease is true whose call's time does not lie before an earlier one: a lease
      is granted only when the one the callers know of has expired as last renewed, was released by its owner or lost
      its owner; only an unexpired lease is renewed, by its holder; "existing" and "occupied" name the current holder. */
  lemma RepliesAreTrue(s: Store, clock: int, calls: seq<Call>, c: Call)
    requires Coherent(s) && InOrder(Play(World(s, s.db.lease, clock), calls), c)
    ensures var w := Play(World(s, s.db.lease, clock), calls); ReplyTrue(w.held, c, Apply(w.s, c).1)
  {
    PlayTied(World(s, s.db.lease, clock), calls);
    UntrueIff(s, clock, calls, c);
  }

  // ---- between two grants ----

  function ReplyAt(w: World, calls: seq<Call>): Reply
    requires calls != []
  {
    Apply(Play(w, calls[..|calls| - 1]).s, calls[|calls| - 1]).1
  }

  /** The call ends the lease: its owner releases it, or the owner's key is revoked. */
  predicate Ends(lease: Lease, c: Call, reply: Reply) {
    && reply.Done? && reply.done.Ok?
    && ((c.ReleaseCall? && c.owner == lease.owner && c.lease == lease.id) || (c.RevokeCall? && c.key == lease.owner))
  }

  predicate Grants(reply: Reply) { reply.Granted? && reply.grant.Ok? && reply.grant.value.Acquired? }

  /** From call i on up to the end of calls, nothing ends the lease and nothing is granted. */
  ghost predicate Quiet(w: World, calls: seq<Call>, i: nat, lease: Lease) {
    |calls| > i ==>
      && Quiet(w, calls[..|calls| - 1], i, lease)
      && !Grants(ReplyAt(w, calls)) && !Ends(lease, calls[|calls| - 1], ReplyAt(w, calls))
  }

  /** When the lease runs out, as the last successful renewal since call i says. */
  ghost function Expiry(w: World, calls: seq<Call>, i: nat, lease: Lease): int {
    if |calls| <= i then lease.expires
    else
      var reply := ReplyAt(w, calls);
      if reply.Renewed? && reply.renewed.Ok? then reply.renewed.value.expires
      else Expiry(w, calls[..|calls| - 1], i, lease)
  }

  lemma {:induction false} HeldSince(w: World, calls: seq<Call>, i: nat, lease: Lease)
    requires Tied(w) && i <= |calls|
    requires Play(w, calls[..i]).held == Some(lease) && Quiet(w, calls, i, lease)
    ensures Play(w, calls).held == Some(lease.(expires := Expiry(w, calls, i, lease)))
  {
    if |calls| == i {
      assert calls[..i] == calls;
    } else {
      var front, c := calls[..|calls| - 1], calls[|calls| - 1];
      assert front[..i] == calls[..i];
      HeldSince(w, front, i, lease);
      PlayTied(w, front);
      StepTied(Play(w, front), c);
    }
  }

  /** Two grants in one run: if nothing ended the first lease in between, it had expired, as last renewed, when the
      second was granted. */
  lemma SecondGrant(s: Store, clock: int, calls: seq<Call>, i: nat, lease: Lease, c: Call)
    requires Coherent(s) && 0 < i <= |calls|
    requires InOrder(Play(World(s, s.db.lease, clock), calls), c) && c.AcquireCall?
    requires ReplyAt(World(s, s.db.lease, clock), calls[..i]) == Granted(Ok(Acquired(lease))) && calls[i - 1].AcquireCall?
    requires Quiet(World(s, s.db.lease, clock), calls, i, lease)
    requires Grants(Apply(Play(World(s, s.db.lease, clock), calls).s, c).1)
    ensures Expiry(World(s, s.db.lease, clock), calls, i, lease) <= c.now
  {
    var start := World(s, s.db.lease, clock);
    GrantHolds(start, calls[..i], lease);
    HeldSince(start, calls, i, lease);
    RepliesAreTrue(s, clock, calls, c);
  }

  /** Right behind a grant its lease is the one the callers know of. */
  lemma GrantHolds(w: World, calls: seq<Call>, lease: Lease)
    requires calls != [] && calls[|calls| - 1].AcquireCall? && ReplyAt(w, calls) == Granted(Ok(Acquired(lease)))
    ensures Play(w, calls).held == Some(lease)
  {
  }

  // ---- the clock must not go back ----

  const ALL_OK := Io(true, true, true, true, true, true)

  /** With a clock that goes back, a second owner can be granted a lease while the first has not expired. */
  lemma ClockBackBreaksExclusion(s: Store, clock: int, a: string, b: string, x: Lease)
    requires Coherent(s) && s.healthy && a in s.active && b in s.active && a != b
    requires s.db.lease == Some(x) && x.owner == a && x.expires == 10
    ensures var w := Play(World(s, s.db.lease, clock), [InspectCall(20, ALL_OK)]);
            var c := AcquireCall(b, 5, 10, Some("n"), ALL_OK);
            && w.held == Some(x) && GoneTooSoon(w, c)
            && Apply(w.s, c).1 == Granted(Ok(Acquired(Lease("n", b, 5, 15))))
  {
    var start, c := World(s, s.db.lease, clock), InspectCall(20, ALL_OK);
    assert [c][..0] == [] && Play(start, []) == start;
    assert Play(start, [c]) == Step(start, c);
  }
}
