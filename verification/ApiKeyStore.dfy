/** The store as an object over its database, with transactions that may fail at every statement and
    are rolled back then. */
module ApiKeyStore {
  import opened KeyStore

  class Database {
    var rows: map<string, Row>
    var lease: Option<Lease>
    var open: bool
    var saved: Db

    function Content(): Db
      reads this
    {
      Db(rows, lease)
    }

    constructor ()
      ensures Content() == Db(map[], None) && !open
    {
      rows, lease, open, saved := map[], None, false, Db(map[], None);
    }

    method Begin(ok: bool) returns (started: bool)
      requires !open
      modifies this
      ensures started == ok == open && Content() == old(Content())
      ensures open ==> saved == Content()
    {
      if ok {
        saved, open := Db(rows, lease), true;
      }
      return ok;
    }

    method Commit(ok: bool) returns (done: bool)
      requires open
      modifies this`open
      ensures done == ok && open == !ok
    {
      open := !ok;
      return ok;
    }

    /** The end of a transaction object: what is not committed is rolled back. */
    method Finish()
      modifies this
      ensures !open && Content() == if old(open) then old(saved) else old(Content())
    {
      if open {
        rows, lease, open := saved.rows, saved.lease, false;
      }
    }

    /** Removes an expired lease and reads what is left. */
    method ReadLease(now: int, io: Io) returns (r: Result<Option<Lease>>)
      modifies this`lease
      ensures r == if io.clean && io.select then Ok(Expire(old(lease), now)) else Err(IoError)
      ensures lease == if io.clean then Expire(old(lease), now) else old(lease)
    {
      if !io.clean {
        return Err(IoError);
      }
      if lease.Some? && lease.value.expires <= now {
        lease := None;
      }
      if !io.select {
        return Err(IoError);
      }
      return Ok(lease);
    }
  }

  class ApiKeyStore {
    const db: Database
    var active: map<string, Row>
    var healthy: bool

    function Abs(): Store
      reads this, db
    {
      Store(db.Content(), active, healthy)
    }

    /** The index agrees with the table and no transaction is open. */
    predicate Valid()
      reads this, db
    {
      Coherent(Abs()) && !db.open
    }

    /** Opens a database; cursor is the order in which the unrevoked rows are read, which may break off. */
    constructor (db: Database, cursor: seq<string>, breaks: bool)
      requires !db.open && Coherent(Store(db.Content(), map[], false))
      requires forall id :: id in cursor <==> Live(db.rows, id)
      ensures this.db == db && Valid() && Abs() == Reopen(Store(db.Content(), map[], false), !breaks)
    {
      this.db := db;
      this.active, this.healthy := map[], false;
      new;
      var loaded := LoadActive(cursor, breaks);
      if loaded {
        healthy := true;
      } else {
        active := map[];
      }
    }

    method LoadActive(cursor: seq<string>, breaks: bool) returns (ok: bool)
      requires active == map[] && forall id :: id in cursor <==> Live(db.rows, id)
      modifies this`active
      ensures ok <==> !breaks && forall id | id in Unrevoked(db.rows) :: |db.rows[id].hash| == 32
      ensures ok ==> active == Unrevoked(db.rows)
    {
      var k := 0;
      while k < |cursor|
        invariant k <= |cursor|
        invariant forall j | 0 <= j < k :: cursor[j] in db.rows && |db.rows[cursor[j]].hash| == 32
        invariant active == map id | id in db.rows && id in cursor[..k] :: db.rows[id]
      {
        var id := cursor[k];
        assert id in cursor;
        if |db.rows[id].hash| != 32 {
          assert id in Unrevoked(db.rows);
          return false;
        }
        active := active[id := db.rows[id]];
        assert cursor[..k + 1] == cursor[..k] + [id];
        k := k + 1;
      }
      assert cursor[..k] == cursor;
      assert active == Unrevoked(db.rows);
      return !breaks;
    }

    method Create(name: string, priority: int, attempts: Attempts) returns (r: Result<string>)
      requires Valid()
      modifies this, db
      ensures Valid() && (Abs(), r) == CreateKey(old(Abs()), name, priority, attempts)
    {
      if !ValidName(name) || !ValidPriority(priority) {
        return Err(InvalidArgument);
      }
      if !healthy {
        return Err(Unavailable);
      }
      CreateCoherent(Abs(), name, priority, attempts, 0);
      var k := 0;
      while k < 4
        invariant k <= 4 && Abs() == old(Abs()) && !db.open
        invariant KeyStore.Create(Abs(), name, priority, attempts, k) == CreateKey(old(Abs()), name, priority, attempts)
      {
        var a := attempts[k];
        if !a.random {
          return Err(Internal);
        }
        if !a.prepare {
          return Err(IoError);
        }
        if a.id in db.rows {
          k := k + 1;
          continue;
        }
        if !a.insert {
          return Err(IoError);
        }
        var row := Row(name, a.prefix, a.hash, priority, a.now, a.now, None);
        db.rows := db.rows[a.id := row];
        active := active[a.id := row];
        return Ok(a.id);
      }
      return Err(AlreadyExists);
    }

    method Update(id: string, name: Option<string>, priority: Option<int>, now: int, io: Io) returns (r: Result<Row>)
      requires Valid()
      modifies this, db
      ensures Valid() && (Abs(), r) == UpdateKey(old(Abs()), id, name, priority, now, io)
    {
      UpdateCoherent(Abs(), id, name, priority, now, io);
      if name.None? && priority.None? {
        return Err(InvalidArgument);
      }
      if name.Some? && !ValidName(name.value) {
        return Err(InvalidArgument);
      }
      if priority.Some? && !ValidPriority(priority.value) {
        return Err(InvalidArgument);
      }
      if !healthy {
        return Err(Unavailable);
      }
      if id !in active {
        return Err(NotFound);
      }
      var row := active[id];
      if name.Some? {
        row := row.(name := name.value);
      }
      if priority.Some? {
        row := row.(priority := priority.value);
      }
      row := row.(updated := now);
      if !io.write || !Live(db.rows, id) {
        return Err(IoError);
      }
      db.rows := db.rows[id := db.rows[id].(name := row.name, priority := row.priority, updated := row.updated)];
      active := active[id := row];
      return Ok(row);
    }

    /** The statements of revoke inside its transaction; true to erase the key from the index. */
    method RevokeRow(id: string, now: int, io: Io) returns (r: Result<()>, erase: bool)
      requires db.open && db.saved == db.Content()
      modifies db
      ensures db.saved == old(db.saved)
      ensures erase ==> r.Ok? && !db.open
      ensures !db.open <==> r.Ok?
      ensures (Store(if db.open then db.saved else db.Content(), if erase then active - {id} else active, true), r)
           == RevokeKey(Store(old(db.Content()), active, true), id, now, io.(begin := true))
    {
      if !io.select {
        return Err(IoError), false;
      }
      if id !in db.rows {
        return Err(NotFound), false;
      }
      if db.rows[id].revoked.Some? {
        var done := db.Commit(io.commit);
        if !done {
          return Err(IoError), false;
        }
        return Ok(()), false;
      }
      if !io.write {
        return Err(IoError), false;
      }
      db.rows := db.rows[id := db.rows[id].(revoked := Some(now), updated := now)];
      if !io.release {
        return Err(IoError), false;
      }
      db.lease := ReleaseOwner(db.lease, id);
      var done := db.Commit(io.commit);
      if !done {
        return Err(IoError), false;
      }
      return Ok(()), true;
    }

    method Revoke(id: string, now: int, io: Io) returns (r: Result<()>)
      requires Valid()
      modifies this, db
      ensures Valid() && (Abs(), r) == RevokeKey(old(Abs()), id, now, io)
    {
      RevokeCoherent(Abs(), id, now, io);
      if !healthy {
        return Err(Unavailable);
      }
      var started := db.Begin(io.begin);
      if !started {
        return Err(IoError);
      }
      var erase;
      r, erase := RevokeRow(id, now, io);
      db.Finish();
      if erase {
        active := active - {id};
      }
    }

    method ActiveLease(now: int, io: Io) returns (r: Result<Option<Lease>>)
      requires Valid()
      modifies db
      ensures Valid() && (Abs(), r) == Inspect(old(Abs()), now, io)
    {
      if now < 0 {
        return Err(InvalidArgument);
      }
      if !healthy {
        return Err(Unavailable);
      }
      var started := db.Begin(io.begin);
      if !started {
        return Err(IoError);
      }
      r := db.ReadLease(now, io);
      if r.Ok? {
        var done := db.Commit(io.commit);
        r := if done then r else Err(IoError);
      }
      db.Finish();
    }

    /** The statements of acquire inside its transaction. */
    method AcquireRow(owner: string, now: int, duration: int, nonce: Option<string>, io: Io) returns (r: Result<Grant>)
      requires db.open && db.saved == db.Content() && ValidWindow(now, duration) && owner in active
      modifies db
      ensures db.saved == old(db.saved) && (!db.open <==> r.Ok?)
      ensures (Store(if db.open then db.saved else db.Content(), active, true), r)
           == Acquire(Store(old(db.Content()), active, true), owner, now, duration, nonce, io.(begin := true))
    {
      var current := db.ReadLease(now, io);
      if current.Err? {
        return Err(current.error);
      }
      if current.value.Some? {
        var lease := current.value.value;
        var done := db.Commit(io.commit);
        if !done {
          return Err(IoError);
        }
        return Ok(if lease.owner == owner then Existing(lease) else Occupied(lease));
      }
      if nonce.None? {
        return Err(Internal);
      }
      var lease := Lease(nonce.value, owner, now, now + duration);
      if !io.write {
        return Err(IoError);
      }
      db.lease := Some(lease);
      var done := db.Commit(io.commit);
      if !done {
        return Err(IoError);
      }
      return Ok(Acquired(lease));
    }

    method AcquireLease(owner: string, now: int, duration: int, nonce: Option<string>, io: Io) returns (r: Result<Grant>)
      requires Valid()
      modifies db
      ensures Valid() && (Abs(), r) == Acquire(old(Abs()), owner, now, duration, nonce, io)
    {
      if !ValidWindow(now, duration) {
        return Err(InvalidArgument);
      }
      if !healthy {
        return Err(Unavailable);
      }
      if owner !in active {
        return Err(NotFound);
      }
      var started := db.Begin(io.begin);
      if !started {
        return Err(IoError);
      }
      r := AcquireRow(owner, now, duration, nonce, io);
      db.Finish();
    }

    /** The statements of renew inside its transaction; commits also when there is nothing to renew. */
    method RenewRow(owner: string, id: string, now: int, duration: int, io: Io) returns (r: Result<Lease>)
      requires db.open && db.saved == db.Content() && ValidWindow(now, duration) && owner in active
      modifies db
      ensures db.saved == old(db.saved)
      ensures (Store(if db.open then db.saved else db.Content(), active, true), r)
           == Renew(Store(old(db.Content()), active, true), owner, id, now, duration, io.(begin := true))
    {
      var current := db.ReadLease(now, io);
      if current.Err? {
        return Err(current.error);
      }
      if !Holds(current.value, owner, id) {
        var done := db.Commit(io.commit);
        if !done {
          return Err(IoError);
        }
        return Err(NotFound);
      }
      var renewed := current.value.value.(expires := now + duration);
      if !io.write {
        return Err(IoError);
      }
      db.lease := Some(renewed);
      var done := db.Commit(io.commit);
      if !done {
        return Err(IoError);
      }
      return Ok(renewed);
    }

    method RenewLease(owner: string, id: string, now: int, duration: int, io: Io) returns (r: Result<Lease>)
      requires Valid()
      modifies db
      ensures Valid() && (Abs(), r) == Renew(old(Abs()), owner, id, now, duration, io)
    {
      if !ValidWindow(now, duration) {
        return Err(InvalidArgument);
      }
      if !healthy {
        return Err(Unavailable);
      }
      if owner !in active {
        return Err(NotFound);
      }
      var started := db.Begin(io.begin);
      if !started {
        return Err(IoError);
      }
      r := RenewRow(owner, id, now, duration, io);
      db.Finish();
    }

    method ReleaseLease(owner: string, id: string, io: Io) returns (r: Result<()>)
      requires Valid()
      modifies db
      ensures Valid() && (Abs(), r) == Release(old(Abs()), owner, id, io)
    {
      if !healthy {
        return Err(Unavailable);
      }
      var started := db.Begin(io.begin);
      if !started {
        return Err(IoError);
      }
      r := Err(IoError);
      if io.write {
        if Holds(db.lease, owner, id) {
          db.lease := None;
        }
        var done := db.Commit(io.commit);
        if done {
          r := Ok(());
        }
      }
      db.Finish();
    }
  }
}
