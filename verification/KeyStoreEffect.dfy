/** What the calls on the key store bring about, and when they succeed. */
module KeyStoreEffect {
  import opened KeyStore
  import opened KeyStoreRun

  // ---- keys ----

  /** No other key, and nothing about the lease, has changed. */
  predicate OnlyKey(s: Store, s1: Store, id: string) {
    && s1.db.lease == s.db.lease && s1.healthy == s.healthy
    && s1.db.rows.Keys == s.db.rows.Keys + {id} && forall j | j in s.db.rows && j != id :: s1.db.rows[j] == s.db.rows[j]
  }

  /** The k-th attempt is the first whose identifier is not taken, and it goes through. */
  predicate CreatesAt(s: Store, attempts: Attempts, k: nat) {
    && k < 4 && (forall j | 0 <= j < k :: attempts[j].random && attempts[j].prepare && attempts[j].id in s.db.rows)
    && attempts[k].random && attempts[k].prepare && attempts[k].insert && attempts[k].id !in s.db.rows
  }

  lemma {:induction false} CreateFinds(s: Store, name: string, priority: int, attempts: Attempts, k: nat)
    requires k <= 4 && forall j | 0 <= j < k :: attempts[j].random && attempts[j].prepare && attempts[j].id in s.db.rows
    ensures var r := Create(s, name, priority, attempts, k);
            && (r.1.Ok? <==> exists i: nat :: CreatesAt(s, attempts, i))
            && forall i: nat | CreatesAt(s, attempts, i) ::
                 var a := attempts[i];
                 r.1 == Ok(a.id) && OnlyKey(s, r.0, a.id) && r.0.active == s.active[a.id := r.0.db.rows[a.id]]
                 && r.0.db.rows[a.id] == Row(name, a.prefix, a.hash, priority, a.now, a.now, None)
    decreases 4 - k
  {
    forall i: nat | CreatesAt(s, attempts, i) ensures i >= k { }
    if k < 4 && attempts[k].random && attempts[k].prepare && attempts[k].id in s.db.rows {
      CreateFinds(s, name, priority, attempts, k + 1);
      forall i: nat | CreatesAt(s, attempts, i) ensures i != k { }
    } else if k < 4 {
      forall i: nat | CreatesAt(s, attempts, i) ensures i == k { }
      if attempts[k].random && attempts[k].prepare && attempts[k].insert {
        assert CreatesAt(s, attempts, k);
      }
    }
  }

  /** create succeeds exactly if its arguments are valid and one of four attempts goes through; the new key then
      authenticates with the hash of that attempt, under the name and priority asked for. */
  lemma CreateEffect(s: Store, name: string, priority: int, attempts: Attempts)
    requires Coherent(s)
    ensures var r := CreateKey(s, name, priority, attempts);
            && (r.1.Ok? <==> ValidName(name) && ValidPriority(priority) && s.healthy && exists i: nat :: CreatesAt(s, attempts, i))
            && (r.1.Err? ==> r.0 == s)
            && (r.1.Ok? ==> forall i: nat | CreatesAt(s, attempts, i) ::
                  var a := attempts[i];
                  && r.1.value == a.id && OnlyKey(s, r.0, a.id)
                  && Authenticate(r.0, a.id, a.hash) == Some((name, priority)))
  {
    if ValidName(name) && ValidPriority(priority) && s.healthy {
      CreateFinds(s, name, priority, attempts, 0);
      CreateCoherent(s, name, priority, attempts, 0);
    }
  }

  /** update succeeds exactly if it has something valid to change, the key is live and the statement works; it then
      changes what was asked for, in table and index, and the rest of the key stays. */
  lemma UpdateEffect(s: Store, id: string, name: Option<string>, priority: Option<int>, now: int, io: Io)
    requires Coherent(s)
    ensures var r := UpdateKey(s, id, name, priority, now, io);
            && (r.1.Ok? <==> (name.Some? || priority.Some?) && (name.Some? ==> ValidName(name.value))
                             && (priority.Some? ==> ValidPriority(priority.value)) && s.healthy && Live(s.db.rows, id) && io.write)
            && (r.1.Err? ==> r.0 == s)
            && (r.1.Ok? ==>
                  && id in s.db.rows && OnlyKey(s, r.0, id) && id in r.0.active
                  && var before, after := s.db.rows[id], r.0.db.rows[id];
                     && r.1.value == after == r.0.active[id]
                     && (name.Some? ==> after.name == name.value) && (name.None? ==> after.name == before.name)
                     && (priority.Some? ==> after.priority == priority.value) && (priority.None? ==> after.priority == before.priority)
                     && after.(name := before.name, priority := before.priority, updated := before.updated) == before && after.updated == now)
  {
    if s.healthy && id in s.active {
      assert s.active[id] == s.db.rows[id];
    }
  }

  /** Opening again keeps the table and the lease, and makes every unrevoked key usable if the table can be read. */
  lemma ReopenEffect(s: Store, loads: bool)
    ensures var s1 := Reopen(s, loads);
            && s1.db == s.db
            && (s1.healthy <==> loads && forall id | Live(s.db.rows, id) :: |s.db.rows[id].hash| == 32)
            && (s1.healthy ==> forall id :: id in s1.active <==> Live(s.db.rows, id))
  {
    assert forall id :: id in Unrevoked(s.db.rows) <==> Live(s.db.rows, id);
  }

  /** The call revokes the key. */
  predicate Revokes(s: Store, c: Call, key: string) { c.RevokeCall? && c.key == key && Apply(s, c).1 == Done(Ok(())) }

  lemma StepKeepsLive(s: Store, c: Call, key: string)
    requires Coherent(s) && Live(s.db.rows, key) && !Revokes(s, c, key)
    ensures Live(Apply(s, c).0.db.rows, key) && Apply(s, c).0.db.rows[key].hash == s.db.rows[key].hash
  {
    match c
    case CreateCall(n, p, a) => if s.healthy { CreateCoherent(s, n, p, a, 0); }
    case UpdateCall(k, n, p, t, io) => UpdateEffect(s, k, n, p, t, io);
    case RevokeCall(k, t, io) => RevokeEffect(s, k, t, io);
    case InspectCall(t, io) =>
    case AcquireCall(o, t, d, x, io) =>
    case RenewCall(o, l, t, d, io) =>
    case ReleaseCall(o, l, io) =>
    case ReopenCall(loads) =>
  }

  ghost predicate NeverRevoked(s: Store, calls: seq<Call>, key: string) {
    calls != [] ==>
      NeverRevoked(s, calls[..|calls| - 1], key) && !Revokes(Run(s, calls[..|calls| - 1]), calls[|calls| - 1], key)
  }

  lemma {:induction false} RunKeepsLive(s: Store, calls: seq<Call>, key: string)
    requires Coherent(s) && Live(s.db.rows, key) && NeverRevoked(s, calls, key)
    ensures Live(Run(s, calls).db.rows, key) && Run(s, calls).db.rows[key].hash == s.db.rows[key].hash
  {
    if calls == [] {
    } else {
      RunKeepsLive(s, calls[..|calls| - 1], key);
      RunCoherent(s, calls[..|calls| - 1]);
      StepKeepsLive(Run(s, calls[..|calls| - 1]), calls[|calls| - 1], key);
    }
  }

  /** A created key authenticates with its hash, and with no other, in every run and whatever fails, until a revocation
      of it is answered with success; only while the store is unavailable does nothing authenticate. */
  lemma CreatedUntilRevoked(s: Store, name: string, priority: int, attempts: Attempts, i: nat, calls: seq<Call>, digest: seq<int>)
    requires Coherent(s) && CreateKey(s, name, priority, attempts).1.Ok? && CreatesAt(s, attempts, i)
    requires NeverRevoked(CreateKey(s, name, priority, attempts).0, calls, attempts[i].id)
    ensures var now := Run(CreateKey(s, name, priority, attempts).0, calls);
            Authenticate(now, attempts[i].id, digest).Some? <==> now.healthy && digest == attempts[i].hash
  {
    var s1, key := CreateKey(s, name, priority, attempts).0, attempts[i].id;
    CreateFinds(s, name, priority, attempts, 0);
    StepCoherent(s, CreateCall(name, priority, attempts));
    assert s1 == Apply(s, CreateCall(name, priority, attempts)).0;
    RunKeepsLive(s1, calls, key);
    RunCoherent(s1, calls);
    if Run(s1, calls).healthy {
      AuthenticateIsTable(Run(s1, calls), key, digest);
    }
  }

  // ---- the lease ----

  /** At this time nobody holds the lease in the table. */
  predicate Free(s: Store, now: int) { s.db.lease.None? || s.db.lease.value.expires <= now }

  /** The call may use the lease: the store is available, the window valid, the key live, and reading works. */
  predicate MayAsk(s: Store, owner: string, now: int, duration: int, io: Io) {
    ValidWindow(now, duration) && s.healthy && Live(s.db.rows, owner) && io.begin && io.clean && io.select && io.commit
  }

  /** acquire grants a free lease for the time asked for, tells who holds one that is not free, and fails exactly if a
      statement fails or the caller may not ask; a failure changes nothing. */
  lemma AcquireEffect(s: Store, owner: string, now: int, duration: int, nonce: Option<string>, io: Io)
    requires Coherent(s)
    ensures var r := Acquire(s, owner, now, duration, nonce, io);
            && (r.1.Ok? <==> MayAsk(s, owner, now, duration, io) && (Free(s, now) ==> nonce.Some? && io.write))
            && (r.1.Err? ==> r.0 == s)
            && (r.1.Ok? && Free(s, now) ==>
                  r.1.value == Acquired(Lease(nonce.value, owner, now, now + duration)) && r.0 == WithLease(s, Some(r.1.value.lease)))
            && (r.1.Ok? && !Free(s, now) ==>
                  && r.0 == s && (s.db.lease.value.owner == owner ==> r.1.value == Existing(s.db.lease.value))
                  && (s.db.lease.value.owner != owner ==> r.1.value == Occupied(s.db.lease.value)))
  {
  }

  /** renew succeeds exactly for the holder of an unexpired lease, and extends it. */
  lemma RenewEffect(s: Store, owner: string, id: string, now: int, duration: int, io: Io)
    requires Coherent(s)
    ensures var r := Renew(s, owner, id, now, duration, io);
            && (r.1.Ok? <==> MayAsk(s, owner, now, duration, io) && io.write && !Free(s, now) && Holds(s.db.lease, owner, id))
            && (r.1.Ok? ==> r.1.value == s.db.lease.value.(expires := now + duration) && r.0 == WithLease(s, Some(r.1.value)))
            && (r.1.Err? ==> r.0 == s || (Free(s, now) && r.0 == WithLease(s, None)))
  {
  }

  /** release frees the lease of its holder, and no other. */
  lemma ReleaseEffect(s: Store, owner: string, id: string, io: Io)
    ensures var r := Release(s, owner, id, io);
            && (r.1.Ok? <==> s.healthy && io.begin && io.write && io.commit)
            && (r.1.Ok? && Holds(s.db.lease, owner, id) ==> r.0 == WithLease(s, None))
            && (r.1.Err? || !Holds(s.db.lease, owner, id) ==> r.0 == s)
  {
  }

  /** inspect shows the lease that is held, and removes one that has expired. */
  lemma InspectEffect(s: Store, now: int, io: Io)
    ensures var r := Inspect(s, now, io);
            && (r.1.Ok? <==> now >= 0 && s.healthy && io.begin && io.clean && io.select && io.commit)
            && (r.1.Ok? ==> r.1.value == (if Free(s, now) then None else s.db.lease) && r.0 == WithLease(s, r.1.value))
            && (r.1.Err? ==> r.0 == s)
  {
  }
}
