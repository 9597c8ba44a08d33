/**
 `CachedDB`, one call at a time: the device table behind the secret cache. Whatever the cache
 has kept, lost or buried, the answers are those of the bare table.
 */
module CachedDb {
  import opened Wrappers
  import opened Secrets
  import opened Devices

  /** Every live entry repeats its row. Tombstones promise nothing. */
  ghost predicate Coherent(rows: Rows, secrets: map<DeviceId, Secret>) {
    forall d :: d in secrets && !secrets[d].Deleted() ==> Selected(rows, d) == Success(secrets[d])
  }

  ghost predicate RealSecrets(rows: Rows) {
    forall d :: d in rows ==> rows[d].secret != ""
  }

  /** The cache after a lookup: what was found in the table is offered to it. */
  function Filled(secrets: map<DeviceId, Secret>, rows: Rows, device: DeviceId): map<DeviceId, Secret> {
    if Hit(Lookup(secrets, device)).Some? then secrets else Offered(secrets, rows, device)
  }

  /** The cache after the row, as it is now, is offered to it. */
  function Offered(secrets: map<DeviceId, Secret>, rows: Rows, device: DeviceId): map<DeviceId, Secret> {
    if device !in rows then secrets
    else secrets[device := Newer(Lookup(secrets, device), Secret(rows[device].secret, rows[device].generation))]
  }

  /** Unless a tombstone stands, a row that has been looked up or updated is live in the cache. */
  lemma OfferedIsLive(secrets: map<DeviceId, Secret>, rows: Rows, device: DeviceId)
    requires device in rows && rows[device].secret != "" && !(device in secrets && secrets[device].Deleted())
    requires device in secrets ==>
      secrets[device].generation < rows[device].generation || Selected(rows, device) == Success(secrets[device])
    ensures var row := Secret(rows[device].secret, rows[device].generation);
      && Hit(Lookup(Offered(secrets, rows, device), device)) == Some(row)
      && forall d :: d != device ==> Lookup(Offered(secrets, rows, device), d) == Lookup(secrets, d)
  {
  }

  class CachedDb {
    const database: Database
    const cache: MemorySecretCache

    constructor (database: Database)
      ensures this.database == database && fresh(cache) && cache.secrets == map[]
      ensures Coherent(database.rows, cache.secrets)
    {
      this.database := database;
      cache := new MemorySecretCache();
    }

    ghost predicate Valid()
      reads database, cache
    {
      Coherent(database.rows, cache.secrets) && RealSecrets(database.rows)
    }

    method SaveDeviceSecret(owner: Email, secret: string, device: DeviceId) returns (r: Result<DeviceId, DbError>)
      requires Valid() && secret != ""
      modifies database`rows
      ensures Valid()
      ensures database.rows == RowsInserted(old(database.rows), database.users.Keys, owner, secret, device)
      ensures r == InsertAnswer(old(database.rows), database.users.Keys, owner, device)
    {
      r := database.SaveDeviceSecret(owner, secret, device);
    }

    method GetDeviceSecret(device: DeviceId) returns (r: Result<Secret, DbError>)
      requires Valid()
      modifies cache
      ensures Valid()
      ensures r == LookedUp(database.rows, device)
      ensures cache.secrets == Filled(old(cache.secrets), database.rows, device)
    {
      var hit := cache.GetSecret(device);
      if hit.Some? {
        return Success(hit.value);
      }
      r := database.GetDeviceSecret(device);
      if r.Failure? {
        return Failure(DeviceNotFound);
      }
      cache.SetSecret(device, r.value);
    }

    method UpdateDeviceSecret(device: DeviceId) returns (r: Result<int, DbError>)
      requires Valid()
      modifies database`rows, cache
      ensures Valid()
      ensures database.rows == RowsIncremented(old(database.rows), device)
      ensures r == Generation(database.rows, device)
      ensures cache.secrets == Offered(old(cache.secrets), database.rows, device)
    {
      r := database.UpdateDeviceSecret(device);
      if r.Failure? {
        return;
      }
      var secret: Secret;
      var hit := cache.GetSecret(device);
      if hit.Some? {
        secret := hit.value;
      } else {
        var current := database.GetDeviceSecret(device);
        if current.Failure? {
          return;
        }
        secret := current.value;
      }
      if secret.generation < r.value {
        secret := secret.(generation := r.value);
      }
      cache.SetSecret(device, secret);
    }

    /** Naming the wrong owner leaves the row and still buries the entry. */
    method DeleteDevice(owner: Email, device: DeviceId)
      requires Valid()
      modifies database`rows, cache
      ensures Valid()
      ensures database.rows == RowsWithout(old(database.rows), owner, device)
      ensures cache.secrets == old(cache.secrets)[device := TOMBSTONE]
    {
      database.DeleteDevice(owner, device);
      cache.DeleteSecret(device);
    }

    method DeleteAllDevices(owner: Email)
      requires Valid()
      modifies database`rows, cache
      ensures Valid()
      ensures database.rows == RowsWithoutOwner(old(database.rows), owner)
      ensures forall d :: d in database.rows <==> d in old(database.rows) && old(database.rows)[d].owner != owner
      ensures forall d :: d in database.rows ==> database.rows[d] == old(database.rows)[d]
      ensures forall d :: d in old(database.rows) && old(database.rows)[d].owner == owner ==>
        Lookup(cache.secrets, d) == Some(TOMBSTONE)
      ensures forall d :: !(d in old(database.rows) && old(database.rows)[d].owner == owner) ==>
        Lookup(cache.secrets, d) == Lookup(old(cache.secrets), d)
    {
      ghost var doomed := set d | d in database.rows && database.rows[d].owner == owner;
      var ids := database.DeleteAllDevicesReturningIDs(owner);
      for i := 0 to |ids|
        invariant database.rows == RowsWithoutOwner(old(database.rows), owner)
        invariant forall d :: d in ids[..i] ==> d in cache.secrets && cache.secrets[d] == TOMBSTONE
        invariant forall d :: d !in ids[..i] ==> Lookup(cache.secrets, d) == Lookup(old(cache.secrets), d)
      {
        cache.DeleteSecret(ids[i]);
      }
      assert ids[..|ids|] == ids;
      forall d ensures d in ids <==> d in doomed {
        assert d in multiset(ids) <==> d in multiset(doomed);
      }
    }
  }

  // --- every sequence of calls -------------------------------------------------------------

  /** `Evict` is an entry expiring or making room; it is not a call and has no answer. */
  datatype Request =
    | Save(owner: Email, secret: string, device: DeviceId)
    | Get(device: DeviceId)
    | Update(device: DeviceId)
    | Delete(owner: Email, device: DeviceId)
    | DeleteAll(owner: Email)
    | Evict(device: DeviceId)

  datatype Answer =
    | Saved(saved: Result<DeviceId, DbError>)
    | Got(secret: Result<Secret, DbError>)
    | Updated(generation: Result<int, DbError>)
    | Done

  /** The table after a request, with no cache in sight. */
  function TableAfter(rows: Rows, users: set<Email>, request: Request): Rows {
    match request
    case Save(owner, secret, device) => RowsInserted(rows, users, owner, secret, device)
    case Get(device) => rows
    case Update(device) => RowsIncremented(rows, device)
    case Delete(owner, device) => RowsWithout(rows, owner, device)
    case DeleteAll(owner) => RowsWithoutOwner(rows, owner)
    case Evict(device) => rows
  }

  function TableAnswer(rows: Rows, users: set<Email>, request: Request): Answer {
    match request
    case Save(owner, secret, device) => Saved(InsertAnswer(rows, users, owner, device))
    case Get(device) => Got(LookedUp(rows, device))
    case Update(device) => Updated(Generation(RowsIncremented(rows, device), device))
    case _ => Done
  }

  function TableAfterAll(rows: Rows, users: set<Email>, requests: seq<Request>): Rows {
    if requests == [] then rows
    else TableAfter(TableAfterAll(rows, users, requests[..|requests| - 1]), users, requests[|requests| - 1])
  }

  function TableAnswers(rows: Rows, users: set<Email>, requests: seq<Request>): seq<Answer> {
    if requests == [] then []
    else
      var front := requests[..|requests| - 1];
      var last := TableAnswer(TableAfterAll(rows, users, front), users, requests[|requests| - 1]);
      TableAnswers(rows, users, front) + [last]
  }

  method Serve(db: CachedDb, request: Request) returns (answer: Answer)
    requires db.Valid() && (request.Save? ==> request.secret != "")
    modifies db.database`rows, db.cache
    ensures db.Valid()
    ensures db.database.rows == TableAfter(old(db.database.rows), db.database.users.Keys, request)
    ensures answer == TableAnswer(old(db.database.rows), db.database.users.Keys, request)
  {
    answer := Done;
    match request
    case Save(owner, secret, device) =>
      var r := db.SaveDeviceSecret(owner, secret, device);
      answer := Saved(r);
    case Get(device) =>
      var r := db.GetDeviceSecret(device);
      answer := Got(r);
    case Update(device) =>
      var r := db.UpdateDeviceSecret(device);
      answer := Updated(r);
    case Delete(owner, device) =>
      db.DeleteDevice(owner, device);
    case DeleteAll(owner) =>
      db.DeleteAllDevices(owner);
    case Evict(device) =>
      db.cache.Drop(device);
  }

  /** Any sequence of requests, evictions anywhere among them, is answered as by the table. */
  method ServeAll(db: CachedDb, requests: seq<Request>) returns (answers: seq<Answer>)
    requires db.Valid() && forall r :: r in requests && r.Save? ==> r.secret != ""
    modifies db.database`rows, db.cache
    ensures db.Valid()
    ensures answers == TableAnswers(old(db.database.rows), db.database.users.Keys, requests)
    ensures db.database.rows == TableAfterAll(old(db.database.rows), db.database.users.Keys, requests)
  {
    answers := [];
    for i := 0 to |requests|
      invariant db.Valid()
      invariant answers == TableAnswers(old(db.database.rows), db.database.users.Keys, requests[..i])
      invariant db.database.rows == TableAfterAll(old(db.database.rows), db.database.users.Keys, requests[..i])
    {
      assert requests[..i + 1][..i] == requests[..i];
      var answer := Serve(db, requests[i]);
      answers := answers + [answer];
    }
    assert requests[..|requests|] == requests;
  }
}
