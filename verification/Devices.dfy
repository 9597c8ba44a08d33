/**
 The device and user tables, the simple specification that everything above them must agree
 with, and the class whose methods are the SQL statements.
 */
module Devices {
  import opened Wrappers
  import opened Secrets

  type Email = string

  /** A row of `auth_user_devices`. */
  datatype Row = Row(owner: Email, secret: string, generation: int)

  type Rows = map<DeviceId, Row>

  const INITIAL_GENERATION := 1

  datatype DbError = NoRows | DeviceNotFound | UserNotFound | DuplicateKey | ExternalUsers

  // --- what each statement does to the table -----------------------------------------------

  function RowsInserted(rows: Rows, users: set<Email>, owner: Email, secret: string, device: DeviceId): Rows {
    if device in rows || owner !in users then rows
    else rows[device := Row(owner, secret, INITIAL_GENERATION)]
  }

  function InsertAnswer(rows: Rows, users: set<Email>, owner: Email, device: DeviceId): Result<DeviceId, DbError> {
    if device in rows then Failure(DuplicateKey)
    else if owner !in users then Failure(UserNotFound)
    else Success(device)
  }

  function RowsIncremented(rows: Rows, device: DeviceId): Rows {
    if device in rows then rows[device := rows[device].(generation := rows[device].generation + 1)] else rows
  }

  function Selected(rows: Rows, device: DeviceId): Result<Secret, DbError> {
    if device in rows then Success(Secret(rows[device].secret, rows[device].generation)) else Failure(NoRows)
  }

  /** The same select as the cache reports it: no row means that the device does not exist. */
  function LookedUp(rows: Rows, device: DeviceId): Result<Secret, DbError> {
    if device in rows then Success(Secret(rows[device].secret, rows[device].generation)) else Failure(DeviceNotFound)
  }

  function Generation(rows: Rows, device: DeviceId): Result<int, DbError> {
    if device in rows then Success(rows[device].generation) else Failure(NoRows)
  }

  /** The name of a user. A server without a username column does not ask: the name is empty. */
  function UsernameOf(users: map<Email, string>, selects: bool, email: Email): Result<string, DbError> {
    if !selects then Success("")
    else if email in users then Success(users[email])
    else Failure(UserNotFound)
  }

  function OwnedBy(rows: Rows, owner: Email): set<DeviceId> {
    set d | d in rows && rows[d].owner == owner
  }

  function RowsWithout(rows: Rows, owner: Email, device: DeviceId): Rows {
    if device in rows && rows[device].owner == owner then rows - {device} else rows
  }

  function RowsWithoutOwner(rows: Rows, owner: Email): Rows {
    rows - OwnedBy(rows, owner)
  }

  // --- what that means for each row --------------------------------------------------------

  lemma InsertedMeans(rows: Rows, users: set<Email>, owner: Email, secret: string, device: DeviceId, d: DeviceId)
    ensures Lookup(RowsInserted(rows, users, owner, secret, device), d) ==
      if d == device && device !in rows && owner in users then Some(Row(owner, secret, 1)) else Lookup(rows, d)
    ensures InsertAnswer(rows, users, owner, device).Success? <==> device !in rows && owner in users
    ensures InsertAnswer(rows, users, owner, device) == Failure(UserNotFound) <==> device !in rows && owner !in users
  {
  }

  lemma IncrementedMeans(rows: Rows, device: DeviceId, d: DeviceId)
    ensures var after := RowsIncremented(rows, device);
      && (d in after <==> d in rows)
      && (d in rows ==>
            && after[d].owner == rows[d].owner && after[d].secret == rows[d].secret
            && after[d].generation == rows[d].generation + (if d == device then 1 else 0))
      && Generation(after, device) == (if device in rows then Success(rows[device].generation + 1) else Failure(NoRows))
  {
  }

  /** A delete takes the named device, and only from the named owner; a delete-all takes exactly
      the owner's devices; a change of email takes none. Everybody else keeps every row. */
  lemma RemovedMeans(rows: Rows, owner: Email, device: DeviceId, to: Email, d: DeviceId)
    ensures Lookup(RowsWithout(rows, owner, device), d) ==
      if d == device && d in rows && rows[d].owner == owner then None else Lookup(rows, d)
    ensures Lookup(RowsWithoutOwner(rows, owner), d) ==
      if d in rows && rows[d].owner == owner then None else Lookup(rows, d)
    ensures Lookup(Renamed(rows, owner, to), d) ==
      if d in rows && rows[d].owner == owner then Some(Row(to, rows[d].secret, rows[d].generation)) else Lookup(rows, d)
  {
  }

  lemma SelectedMeans(rows: Rows, device: DeviceId)
    ensures device in rows ==>
      Selected(rows, device) == LookedUp(rows, device) == Success(Secret(rows[device].secret, rows[device].generation))
    ensures device !in rows ==>
      Selected(rows, device) == Failure(NoRows) && LookedUp(rows, device) == Failure(DeviceNotFound)
  {
  }

  /** A changed email cascades to the rows that refer to it. */
  function Renamed(rows: Rows, from: Email, to: Email): Rows {
    map d | d in rows :: if rows[d].owner == from then rows[d].(owner := to) else rows[d]
  }

  /** PostgreSQL: the devices and, when this server manages them, the users they refer to. */
  class Database {
    var rows: Rows
    var users: map<Email, string>    // email to username
    const external: bool             // the users table belongs to someone else
    const selects: bool              // it has a column with usernames

    constructor (users: map<Email, string>, external: bool, selects: bool)
      ensures rows == map[] && this.users == users && this.external == external && this.selects == selects
    {
      rows, this.users, this.external, this.selects := map[], users, external, selects;
    }

    /** `device` is the identifier that the database generates. */
    method SaveDeviceSecret(owner: Email, secret: string, device: DeviceId) returns (r: Result<DeviceId, DbError>)
      modifies `rows
      ensures rows == RowsInserted(old(rows), users.Keys, owner, secret, device)
      ensures r == InsertAnswer(old(rows), users.Keys, owner, device)
    {
      if device in rows {
        return Failure(DuplicateKey);
      }
      if owner !in users {
        return Failure(UserNotFound);
      }
      rows := rows[device := Row(owner, secret, INITIAL_GENERATION)];
      return Success(device);
    }

    method UpdateDeviceSecret(device: DeviceId) returns (r: Result<int, DbError>)
      modifies `rows
      ensures rows == RowsIncremented(old(rows), device)
      ensures r == Generation(rows, device)
    {
      if device !in rows {
        return Failure(NoRows);
      }
      rows := rows[device := rows[device].(generation := rows[device].generation + 1)];
      return Success(rows[device].generation);
    }

    method GetDeviceSecret(device: DeviceId) returns (r: Result<Secret, DbError>)
      ensures r == Selected(rows, device)
    {
      if device !in rows {
        return Failure(NoRows);
      }
      return Success(Secret(rows[device].secret, rows[device].generation));
    }

    method DeleteDevice(owner: Email, device: DeviceId)
      modifies `rows
      ensures rows == RowsWithout(old(rows), owner, device)
    {
      if device in rows && rows[device].owner == owner {
        rows := rows - {device};
      }
    }

    /** Rows come back one by one, in no particular order, each deleted row exactly once. */
    method DeleteAllDevicesReturningIDs(owner: Email) returns (ids: seq<DeviceId>)
      modifies `rows
      ensures rows == RowsWithoutOwner(old(rows), owner)
      ensures forall d :: d in rows <==> d in old(rows) && old(rows)[d].owner != owner
      ensures forall d :: d in rows ==> rows[d] == old(rows)[d]
      ensures multiset(ids) == multiset(set d | d in old(rows) && old(rows)[d].owner == owner)
    {
      var pending := OwnedBy(rows, owner);
      rows := rows - pending;
      ids := [];
      while pending != {}
        invariant multiset(ids) + multiset(pending) == multiset(set d | d in old(rows) && old(rows)[d].owner == owner)
        decreases |pending|
      {
        var id :| id in pending;
        pending := pending - {id};
        ids := ids + [id];
      }
    }

    method GetUsername(email: Email) returns (r: Result<string, DbError>)
      ensures r == UsernameOf(users, selects, email)
      ensures selects && email in users ==> r == Success(users[email])
      ensures selects && email !in users ==> r == Failure(UserNotFound)
      ensures !selects ==> r == Success("")
    {
      if !selects {
        return Success("");
      }
      if email !in users {
        return Failure(UserNotFound);
      }
      return Success(users[email]);
    }

    /** An insert that leaves an existing user's name alone. */
    method CreateUser(username: string, email: Email) returns (r: Result<string, DbError>)
      modifies `users
      ensures external ==> r == Failure(ExternalUsers) && users == old(users)
      ensures !external ==> email in users && r == Success(users[email])
      ensures !external ==> users == if email in old(users) then old(users) else old(users)[email := username]
    {
      if external {
        return Failure(ExternalUsers);
      }
      if email !in users {
        users := users[email := username];
      }
      return Success(users[email]);
    }

    /** Removing a user removes the devices that refer to it. */
    method DeleteUser(email: Email) returns (r: Result<(), DbError>)
      modifies `users, `rows
      ensures external ==> r == Failure(ExternalUsers) && users == old(users) && rows == old(rows)
      ensures !external ==> r == Success(()) && users == old(users) - {email}
      ensures !external ==> rows == RowsWithoutOwner(old(rows), email)
      ensures !external ==> forall d :: d in rows <==> d in old(rows) && old(rows)[d].owner != email
      ensures !external ==> forall d :: d in rows ==> rows[d] == old(rows)[d]
    {
      if external {
        return Failure(ExternalUsers);
      }
      users := users - {email};
      rows := rows - OwnedBy(rows, email);
      return Success(());
    }
  }
}
