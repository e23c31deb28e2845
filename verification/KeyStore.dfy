/** The API key table, its in-memory index and the single background lease. */
module KeyStore {

  datatype Option<T> = None | Some(value: T)
  datatype Error = InvalidArgument | Unavailable | NotFound | IoError | AlreadyExists | Internal
  datatype Result<T> = Ok(value: T) | Err(error: Error)

  const INT64_MAX: int := 9223372036854775807

  /** A row of the key table; the index holds the rows that are not revoked. */
  datatype Row = Row(name: string, prefix: string, hash: seq<int>, priority: int,
                     created: int, updated: int, revoked: Option<int>)

  datatype Lease = Lease(id: string, owner: string, acquired: int, expires: int)

  datatype Db = Db(rows: map<string, Row>, lease: Option<Lease>)

  datatype Store = Store(db: Db, active: map<string, Row>, healthy: bool)

  /** Which of a call's statements succeed. */
  datatype Io = Io(begin: bool, clean: bool, select: bool, write: bool, release: bool, commit: bool)

  predicate ValidName(name: string) {
    0 < |name| <= 80
    && (forall c | c in name :: c >= ' ' && c as int != 0x7f)
    && exists i :: 0 <= i < |name| && name[i] != ' '
  }

  predicate ValidPriority(p: int) { -100 <= p <= 100 }

  /** The window ends within the range of a 64-bit integer. */
  predicate ValidWindow(now: int, duration: int) { now >= 0 && duration > 0 && now <= INT64_MAX - duration }

  predicate Live(rows: map<string, Row>, id: string) { id in rows && rows[id].revoked.None? }

  function Unrevoked(rows: map<string, Row>): map<string, Row> {
    map id | id in rows && rows[id].revoked.None? :: rows[id]
  }

  /** The index is the table's unrevoked rows, and a lease belongs to an unrevoked key. */
  predicate Coherent(s: Store) {
    && (if s.healthy then s.active == Unrevoked(s.db.rows) else s.active == map[])
    && (s.db.lease.Some? ==>
          && Live(s.db.rows, s.db.lease.value.owner)
          && 0 <= s.db.lease.value.expires <= INT64_MAX)
  }

  // ---- what each call makes of the store ----

  /** One attempt of create: what the random source and the hash give, and whether the insert works. */
  datatype Attempt = Attempt(random: bool, id: string, prefix: string, hash: seq<int>, now: int, prepare: bool, insert: bool)

  /** create tries four times. */
  type Attempts = a: seq<Attempt> | |a| == 4 witness seq(4, _ => Attempt(false, "", "", [], 0, false, false))

  function Create(s: Store, name: string, priority: int, attempts: Attempts, k: nat): (r: (Store, Result<string>))
    requires k <= 4
    decreases 4 - k
  {
    if k == 4 then (s, Err(AlreadyExists))
    else
      var a := attempts[k];
      if !a.random then (s, Err(Internal))
      else if !a.prepare then (s, Err(IoError))
      else if a.id in s.db.rows then Create(s, name, priority, attempts, k + 1)
      else if !a.insert then (s, Err(IoError))
      else
        var row := Row(name, a.prefix, a.hash, priority, a.now, a.now, None);
        (s.(db := s.db.(rows := s.db.rows[a.id := row]), active := s.active[a.id := row]), Ok(a.id))
  }

  function CreateKey(s: Store, name: string, priority: int, attempts: Attempts): (r: (Store, Result<string>)) {
    if !ValidName(name) || !ValidPriority(priority) then (s, Err(InvalidArgument))
    else if !s.healthy then (s, Err(Unavailable))
    else Create(s, name, priority, attempts, 0)
  }

  function Renamed(row: Row, name: Option<string>, priority: Option<int>, now: int): Row {
    row.(name := if name.Some? then name.value else row.name,
         priority := if priority.Some? then priority.value else row.priority,
         updated := now)
  }

  function UpdateKey(s: Store, id: string, name: Option<string>, priority: Option<int>, now: int, io: Io): (r: (Store, Result<Row>)) {
    if (name.None? && priority.None?) || (name.Some? && !ValidName(name.value))
       || (priority.Some? && !ValidPriority(priority.value)) then (s, Err(InvalidArgument))
    else if !s.healthy then (s, Err(Unavailable))
    else if id !in s.active then (s, Err(NotFound))
    else
      var row := Renamed(s.active[id], name, priority, now);
      if !io.write || !Live(s.db.rows, id) then (s, Err(IoError))
      else
        var changed := s.db.rows[id].(name := row.name, priority := row.priority, updated := row.updated);
        (s.(db := s.db.(rows := s.db.rows[id := changed]), active := s.active[id := row]), Ok(row))
  }

  function ReleaseOwner(lease: Option<Lease>, owner: string): Option<Lease> {
    if lease.Some? && lease.value.owner == owner then None else lease
  }

  function RevokeKey(s: Store, id: string, now: int, io: Io): (r: (Store, Result<()>)) {
    if !s.healthy then (s, Err(Unavailable))
    else if !io.begin || !io.select then (s, Err(IoError))
    else if id !in s.db.rows then (s, Err(NotFound))
    else if s.db.rows[id].revoked.Some? then (s, if io.commit then Ok(()) else Err(IoError))
    else if !io.write || !io.release || !io.commit then (s, Err(IoError))
    else
      var row := s.db.rows[id].(revoked := Some(now), updated := now);
      (s.(db := Db(s.db.rows[id := row], ReleaseOwner(s.db.lease, id)), active := s.active - {id}), Ok(()))
  }

  function Expire(lease: Option<Lease>, now: int): Option<Lease> {
    if lease.Some? && lease.value.expires <= now then None else lease
  }

  function WithLease(s: Store, lease: Option<Lease>): Store { s.(db := s.db.(lease := lease)) }

  function Inspect(s: Store, now: int, io: Io): (r: (Store, Result<Option<Lease>>)) {
    if now < 0 then (s, Err(InvalidArgument))
    else if !s.healthy then (s, Err(Unavailable))
    else if !io.begin || !io.clean || !io.select || !io.commit then (s, Err(IoError))
    else (WithLease(s, Expire(s.db.lease, now)), Ok(Expire(s.db.lease, now)))
  }

  datatype Grant = Acquired(lease: Lease) | Existing(lease: Lease) | Occupied(lease: Lease)

  function Acquire(s: Store, owner: string, now: int, duration: int, nonce: Option<string>, io: Io): (r: (Store, Result<Grant>)) {
    if !ValidWindow(now, duration) then (s, Err(InvalidArgument))
    else if !s.healthy then (s, Err(Unavailable))
    else if owner !in s.active then (s, Err(NotFound))
    else if !io.begin || !io.clean || !io.select then (s, Err(IoError))
    else
      var current := Expire(s.db.lease, now);
      if current.Some? then
        if !io.commit then (s, Err(IoError))
        else (WithLease(s, current), Ok(if current.value.owner == owner then Existing(current.value) else Occupied(current.value)))
      else if nonce.None? then (s, Err(Internal))
      else
        var lease := Lease(nonce.value, owner, now, now + duration);
        if !io.write || !io.commit then (s, Err(IoError)) else (WithLease(s, Some(lease)), Ok(Acquired(lease)))
  }

  predicate Holds(lease: Option<Lease>, owner: string, id: string) {
    lease.Some? && lease.value.owner == owner && lease.value.id == id
  }

  function Renew(s: Store, owner: string, id: string, now: int, duration: int, io: Io): (r: (Store, Result<Lease>)) {
    if !ValidWindow(now, duration) then (s, Err(InvalidArgument))
    else if !s.healthy then (s, Err(Unavailable))
    else if owner !in s.active then (s, Err(NotFound))
    else if !io.begin || !io.clean || !io.select then (s, Err(IoError))
    else
      var current := Expire(s.db.lease, now);
      if !Holds(current, owner, id) then (if io.commit then (WithLease(s, current), Err(NotFound)) else (s, Err(IoError)))
      else
        var renewed := current.value.(expires := now + duration);
        if !io.write || !io.commit then (s, Err(IoError)) else (WithLease(s, Some(renewed)), Ok(renewed))
  }

  function Release(s: Store, owner: string, id: string, io: Io): (r: (Store, Result<()>)) {
    if !s.healthy then (s, Err(Unavailable))
    else if !io.begin || !io.write || !io.commit then (s, Err(IoError))
    else (WithLease(s, if Holds(s.db.lease, owner, id) then None else s.db.lease), Ok(()))
  }

  /** Closing and opening again: the index is read from the table, or the store is unavailable. */
  function Reopen(s: Store, loads: bool): Store {
    if loads && forall id | id in Unrevoked(s.db.rows) :: |s.db.rows[id].hash| == 32
    then Store(s.db, Unrevoked(s.db.rows), true) else Store(s.db, map[], false)
  }

  // ---- every call keeps the store coherent ----

  lemma {:induction false} CreateCoherent(s: Store, name: string, priority: int, attempts: Attempts, k: nat)
    requires Coherent(s) && s.healthy && k <= 4
    ensures Coherent(Create(s, name, priority, attempts, k).0)
    ensures var r := Create(s, name, priority, attempts, k);
            match r.1
            case Err(_) => r.0 == s
            case Ok(id) => id !in s.db.rows && Live(r.0.db.rows, id) && r.0.db.lease == s.db.lease
                           && r.0.db.rows.Keys == s.db.rows.Keys + {id} && forall j | j in s.db.rows :: r.0.db.rows[j] == s.db.rows[j]
    decreases 4 - k
  {
    if k < 4 && attempts[k].id in s.db.rows {
      CreateCoherent(s, name, priority, attempts, k + 1);
    }
  }

  lemma UpdateCoherent(s: Store, id: string, name: Option<string>, priority: Option<int>, now: int, io: Io)
    requires Coherent(s)
    ensures Coherent(UpdateKey(s, id, name, priority, now, io).0)
  {
    var r := UpdateKey(s, id, name, priority, now, io);
    if r.1.Ok? {
      assert s.active[id] == s.db.rows[id];
      assert r.0.active == Unrevoked(r.0.db.rows);
    }
  }

  lemma RevokeCoherent(s: Store, id: string, now: int, io: Io)
    requires Coherent(s)
    ensures Coherent(RevokeKey(s, id, now, io).0)
  {
    var r := RevokeKey(s, id, now, io);
    if r.0 != s {
      assert r.0.active == Unrevoked(r.0.db.rows);
    }
  }

  /** revoke succeeds exactly if the key is in the table and the statements it needs work.  The key is then revoked, in
      the table and in the index, its lease is gone, and nothing else has changed; a failure changes nothing. */
  lemma RevokeEffect(s: Store, id: string, now: int, io: Io)
    requires Coherent(s)
    ensures var r := RevokeKey(s, id, now, io);
            && (r.1.Ok? <==> s.healthy && io.begin && io.select && io.commit && id in s.db.rows
                             && (Live(s.db.rows, id) ==> io.write && io.release))
            && (r.1.Err? ==> r.0 == s)
            && (r.1.Ok? ==>
                  && r.0.db.rows.Keys == s.db.rows.Keys && r.0.db.rows[id].revoked.Some? && id !in r.0.active
                  && (forall j | j in s.db.rows && j != id :: r.0.db.rows[j] == s.db.rows[j])
                  && (forall j | j != id :: j in r.0.active <==> j in s.active)
                  && r.0.db.lease == ReleaseOwner(s.db.lease, id) && r.0.healthy == s.healthy)
  {
  }

  lemma LeaseCoherent(s: Store, lease: Option<Lease>)
    requires Coherent(s)
    requires lease.Some? ==> Live(s.db.rows, lease.value.owner) && 0 <= lease.value.expires <= INT64_MAX
    ensures Coherent(WithLease(s, lease))
  {
  }
}
