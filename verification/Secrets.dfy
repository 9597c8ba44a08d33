/**
 The device-secret cache entry and the in-memory cache over it: a compare-and-set by
 generation, and deletes that leave a tombstone behind.
 */
module Secrets {
  import opened Wrappers

  type DeviceId = string

  /** What the cache stores for a device. An empty value is a tombstone. */
  datatype Secret = Secret(value: string, generation: int) {
    predicate Deleted() {
      value == ""
    }
  }

  const TOMBSTONE := Secret("", 0)

  // Lifetimes in nanoseconds, counted from the last write of an entry.
  const MINUTE: nat := 60_000_000_000
  const SECRET_TTL: nat := 5 * MINUTE
  const DELETED_SECRET_EXTRA_TTL: nat := MINUTE

  function Lifetime(secret: Secret): nat {
    if secret.Deleted() then SECRET_TTL + DELETED_SECRET_EXTRA_TTL else SECRET_TTL
  }

  /** The entry that stands after offering `secret` to a cache whose live entry is `current`. */
  function Newer(current: Option<Secret>, secret: Secret): Secret {
    if current.Some? && (current.value.Deleted() || current.value.generation >= secret.generation)
    then current.value
    else secret
  }

  /** What a reader sees of an entry: a tombstone is a miss. */
  function Hit(current: Option<Secret>): Option<Secret> {
    if current.Some? && current.value.Deleted() then None else current
  }

  /** The memory cache. `Drop` is the cache's own expiry or eviction of an entry. */
  class MemorySecretCache {
    var secrets: map<DeviceId, Secret>

    constructor ()
      ensures secrets == map[]
    {
      secrets := map[];
    }

    method GetSecret(device: DeviceId) returns (found: Option<Secret>)
      ensures found == Hit(Lookup(secrets, device))
    {
      if device !in secrets || secrets[device].Deleted() {
        return None;
      }
      return Some(secrets[device]);
    }

    method SetSecret(device: DeviceId, secret: Secret)
      modifies this
      ensures secrets == old(secrets)[device := Newer(Lookup(old(secrets), device), secret)]
    {
      if device in secrets && (secrets[device].Deleted() || secrets[device].generation >= secret.generation) {
        assert secrets == secrets[device := secrets[device]];
        return;
      }
      secrets := secrets[device := secret];
    }

    method DeleteSecret(device: DeviceId)
      modifies this
      ensures secrets == old(secrets)[device := TOMBSTONE]
    {
      secrets := secrets[device := TOMBSTONE];
    }

    method Drop(device: DeviceId)
      modifies this
      ensures secrets == old(secrets) - {device}
    {
      secrets := secrets - {device};
    }
  }

  // ---------------------------------------------------------------------------------------
  // Cache writes form a join
  // ---------------------------------------------------------------------------------------

  datatype Write = Put(secret: Secret) | Kill

  function Written(current: Option<Secret>, write: Write): Option<Secret> {
    match write
    case Put(secret) => Some(Newer(current, secret))
    case Kill => Some(TOMBSTONE)
  }

  function WrittenAll(current: Option<Secret>, writes: seq<Write>): Option<Secret> {
    if writes == [] then current
    else Written(WrittenAll(current, writes[..|writes| - 1]), writes[|writes| - 1])
  }

  /** Every put offers the device's one, non-empty secret value. */
  ghost predicate OneSecret(writes: seq<Write>, value: string) {
    value != "" && forall w :: w in writes && w.Put? ==> w.secret.value == value
  }

  /** The least upper bound of a bag of writes, with no mention of their order. */
  ghost predicate IsJoin(writes: multiset<Write>, value: string, entry: Option<Secret>) {
    if writes == multiset{} then entry == None
    else if Kill in writes then entry == Some(TOMBSTONE)
    else
      && entry.Some?
      && entry.value.value == value
      && Put(entry.value) in writes
      && forall w :: w in writes ==> w.secret.generation <= entry.value.generation
  }

  /** One more write moves the entry to the join of the larger bag. */
  lemma JoinGrows(writes: multiset<Write>, value: string, entry: Option<Secret>, write: Write)
    requires IsJoin(writes, value, entry) && value != "" && (write.Put? ==> write.secret.value == value)
    ensures IsJoin(writes + multiset{write}, value, Written(entry, write))
  {
    var more := writes + multiset{write};
    assert write in more;
    assert forall w :: w in more <==> w in writes || w == write;
  }

  lemma {:induction false} WritesFormJoin(writes: seq<Write>, value: string)
    requires OneSecret(writes, value)
    ensures IsJoin(multiset(writes), value, WrittenAll(None, writes))
  {
    if writes == [] {
      assert multiset(writes) == multiset{};
    } else {
      var front, last := writes[..|writes| - 1], writes[|writes| - 1];
      assert writes == front + [last];
      assert last in writes;
      WritesFormJoin(front, value);
      JoinGrows(multiset(front), value, WrittenAll(None, front), last);
    }
  }

  /** Any two orders of the same writes leave the same entry. */
  lemma WriteOrderIrrelevant(first: seq<Write>, second: seq<Write>, value: string)
    requires OneSecret(first, value)
    requires multiset(first) == multiset(second)
    ensures WrittenAll(None, first) == WrittenAll(None, second)
  {
    forall w | w in second && w.Put? ensures w.secret.value == value {
      assert w in multiset(first);
    }
    WritesFormJoin(first, value);
    WritesFormJoin(second, value);
  }
}
