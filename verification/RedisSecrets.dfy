/**
 The Redis secret cache: the same entries as text, `generation:value`, with the compare-and-set
 done by a script that matches on the text. It behaves as the memory cache does.
 */
module RedisSecrets {
  import opened Wrappers
  import opened Secrets
  import opened GoStrings

  const KEY_PREFIX := "oauth2:device:secret:"

  function Key(device: DeviceId): string {
    KEY_PREFIX + device
  }

  function EncodeSecret(secret: Secret): string {
    SignedItoa(secret.generation) + ":" + secret.value
  }

  /** `strings.Cut` at the first colon. */
  function CutAt(raw: string): (n: nat)
    ensures n <= |raw| && ':' !in raw[..n] && (n < |raw| ==> raw[n] == ':')
  {
    if raw == "" || raw[0] == ':' then 0
    else
      var n := 1 + CutAt(raw[1..]);
      assert raw[..n] == [raw[0]] + raw[1..][..n - 1];
      n
  }

  function DecodeSecret(raw: string): Option<Secret> {
    var n := CutAt(raw);
    if n == |raw| || raw[n + 1..] == "" then None
    else
      match Atoi(raw[..n])
      case None => None
      case Some(generation) => Some(Secret(raw[n + 1..], generation))
  }

  /** The script's `^(%d+):` match. */
  function MatchGeneration(raw: string): Option<nat> {
    var n := DigitsEnd(raw);
    if n == 0 || n == |raw| || raw[n] != ':' then None else Some(Value(raw[..n]))
  }

  /** The set script, on the text that the key holds. */
  function NewerRaw(current: Option<string>, raw: string, generation: int): string {
    if current.Some? && (
         || current.value == ""
         || (MatchGeneration(current.value).Some? && MatchGeneration(current.value).value >= generation))
    then current.value
    else raw
  }

  class RedisSecretCache {
    var store: map<string, string>

    constructor ()
      ensures store == map[]
    {
      store := map[];
    }

    method GetSecret(device: DeviceId) returns (found: Option<Secret>)
      ensures found == RawHit(store, device)
    {
      if Key(device) !in store {
        return None;
      }
      return DecodeSecret(store[Key(device)]);
    }

    method SetSecret(device: DeviceId, secret: Secret)
      modifies this
      ensures store == RawSet(old(store), device, secret)
    {
      var key := Key(device);
      if key in store {
        var current := store[key];
        assert store == store[key := current];
        if current == "" {
          return;
        }
        var generation := MatchGeneration(current);
        if generation.Some? && generation.value >= secret.generation {
          return;
        }
      }
      store := store[key := EncodeSecret(secret)];
    }

    method DeleteSecret(device: DeviceId)
      modifies this
      ensures store == old(store)[Key(device) := ""]
    {
      store := store[Key(device) := ""];
    }
  }

  function RawHit(store: map<string, string>, device: DeviceId): Option<Secret> {
    if Key(device) in store then DecodeSecret(store[Key(device)]) else None
  }

  function RawSet(store: map<string, string>, device: DeviceId, secret: Secret): map<string, string> {
    store[Key(device) := NewerRaw(Lookup(store, Key(device)), EncodeSecret(secret), secret.generation)]
  }

  // --- the text stands for the entry -------------------------------------------------------

  /** A generation that a Go int holds. */
  predicate Storable(secret: Secret) {
    0 <= secret.generation <= MAX_INT64
  }

  lemma CutIs(raw: string, n: nat)
    requires n < |raw| && raw[n] == ':' && ':' !in raw[..n]
    ensures CutAt(raw) == n
  {
    var m := CutAt(raw);
    forall i | 0 <= i < n ensures raw[i] != ':' {
      assert raw[..n][i] == raw[i];
    }
    forall i | 0 <= i < m ensures raw[i] != ':' {
      assert raw[..m][i] == raw[i];
    }
  }

  /** Decoding gives back what was encoded, colons in the value included. */
  lemma DecodeUndoesEncode(secret: Secret)
    requires -MAX_INT64 - 1 <= secret.generation <= MAX_INT64 && secret.value != ""
    ensures DecodeSecret(EncodeSecret(secret)) == Some(secret)
  {
    var raw, number := EncodeSecret(secret), SignedItoa(secret.generation);
    AtoiUndoesItoa(secret.generation);
    assert raw[..|number|] == number && raw[|number|] == ':' && raw[|number| + 1..] == secret.value;
    CutIs(raw, |number|);
  }

  /** The script reads the generation that was encoded. */
  lemma MatchReadsGeneration(secret: Secret)
    requires Storable(secret)
    ensures MatchGeneration(EncodeSecret(secret)) == Some(secret.generation) && EncodeSecret(secret) != ""
  {
    var raw, digits := EncodeSecret(secret), Itoa(secret.generation);
    ItoaRoundTrip(secret.generation);
    assert raw[..|digits|] == digits && raw[|digits|] == ':';
    DigitsEndIs(raw, |digits|);
  }

  function Raw(secret: Secret): string
    requires Storable(secret)
  {
    if secret.Deleted() then "" else EncodeSecret(secret)
  }

  /** The Redis keys hold exactly the entries of a memory cache. */
  ghost predicate Represents(store: map<string, string>, secrets: map<DeviceId, Secret>) {
    forall d: DeviceId ::
      && (Key(d) in store <==> d in secrets)
      && (d in secrets ==> Storable(secrets[d]) && store[Key(d)] == Raw(secrets[d]))
  }

  lemma KeyIsInjective(a: DeviceId, b: DeviceId)
    requires Key(a) == Key(b)
    ensures a == b
  {
    assert Key(a)[|KEY_PREFIX|..] == a && Key(b)[|KEY_PREFIX|..] == b;
  }

  lemma GetsAgree(store: map<string, string>, secrets: map<DeviceId, Secret>, device: DeviceId)
    requires Represents(store, secrets)
    ensures RawHit(store, device) == Hit(Lookup(secrets, device))
  {
    if device in secrets && !secrets[device].Deleted() {
      DecodeUndoesEncode(secrets[device]);
    }
  }

  lemma ReplacementRepresents(
    store: map<string, string>, secrets: map<DeviceId, Secret>, device: DeviceId, secret: Secret)
    requires Represents(store, secrets) && Storable(secret)
    ensures Represents(store[Key(device) := Raw(secret)], secrets[device := secret])
  {
    var store', secrets' := store[Key(device) := Raw(secret)], secrets[device := secret];
    forall d: DeviceId
      ensures Key(d) in store' <==> d in secrets'
      ensures d in secrets' ==> Storable(secrets'[d]) && store'[Key(d)] == Raw(secrets'[d])
    {
      if Key(d) == Key(device) {
        KeyIsInjective(d, device);
      }
    }
  }

  /** The script keeps or replaces exactly as the memory cache does. */
  lemma SetsAgree(store: map<string, string>, secrets: map<DeviceId, Secret>, device: DeviceId, secret: Secret)
    requires Represents(store, secrets) && Storable(secret) && secret.value != ""
    ensures Represents(RawSet(store, device, secret), secrets[device := Newer(Lookup(secrets, device), secret)])
  {
    MatchReadsGeneration(secret);
    if device in secrets {
      MatchReadsGeneration(secrets[device]);
    }
    ReplacementRepresents(store, secrets, device, Newer(Lookup(secrets, device), secret));
  }

  // --- any text at all ---------------------------------------------------------------------

  /** A text is read as a secret exactly if it has a first colon, something after it, and a number
      before it. */
  lemma DecodeMeans(raw: string, n: nat)
    requires n < |raw| && raw[n] == ':' && ':' !in raw[..n]
    ensures DecodeSecret(raw).Some? <==> raw[n + 1..] != "" && Atoi(raw[..n]).Some?
    ensures DecodeSecret(raw).Some? ==> DecodeSecret(raw).value == Secret(raw[n + 1..], Atoi(raw[..n]).value)
  {
    CutIs(raw, n);
  }

  lemma NoColonNoSecret(raw: string)
    requires ':' !in raw
    ensures DecodeSecret(raw) == None
  {
  }

  /** The script keeps a tombstone and a text whose leading digits, followed by a colon, are the
      generation offered or more; it replaces everything else. */
  lemma ScriptMeans(current: string, raw: string, generation: int, n: nat)
    requires n <= |current| && AllDigits(current[..n]) && (n < |current| ==> !IsDigit(current[n]))
    ensures NewerRaw(None, raw, generation) == raw && NewerRaw(Some(""), raw, generation) == ""
    ensures current != "" ==>
      var keeps := 0 < n < |current| && current[n] == ':' && Value(current[..n]) >= generation;
      NewerRaw(Some(current), raw, generation) == if keeps then current else raw
  {
    DigitsEndIs(current, n);
  }

  // --- every sequence of operations --------------------------------------------------------

  datatype Operation =
    | Get(device: DeviceId)
    | Set(device: DeviceId, secret: Secret)
    | Delete(device: DeviceId)
    | Expire(device: DeviceId)

  predicate Sensible(op: Operation) {
    op.Set? ==> Storable(op.secret) && op.secret.value != ""
  }

  function MemoryAfter(secrets: map<DeviceId, Secret>, ops: seq<Operation>): map<DeviceId, Secret> {
    if ops == [] then secrets
    else
      var before := MemoryAfter(secrets, ops[..|ops| - 1]);
      match ops[|ops| - 1]
      case Get(device) => before
      case Set(device, secret) => before[device := Newer(Lookup(before, device), secret)]
      case Delete(device) => before[device := TOMBSTONE]
      case Expire(device) => before - {device}
  }

  function RedisAfter(store: map<string, string>, ops: seq<Operation>): map<string, string>
    requires forall op :: op in ops ==> Sensible(op)
  {
    if ops == [] then store
    else
      var before, last := RedisAfter(store, ops[..|ops| - 1]), ops[|ops| - 1];
      assert last in ops && Sensible(last);
      match last
      case Get(device) => before
      case Set(device, secret) => RawSet(before, device, secret)
      case Delete(device) => before[Key(device) := ""]
      case Expire(device) => before - {Key(device)}
  }

  lemma ExpiryRepresents(store: map<string, string>, secrets: map<DeviceId, Secret>, device: DeviceId)
    requires Represents(store, secrets)
    ensures Represents(store - {Key(device)}, secrets - {device})
  {
    forall d: DeviceId | Key(d) == Key(device) ensures d == device {
      KeyIsInjective(d, device);
    }
  }

  /** After any sequence of operations the Redis cache and the memory cache answer alike. */
  lemma {:induction false} RedisRefinesMemory(ops: seq<Operation>)
    requires forall op :: op in ops ==> Sensible(op)
    ensures Represents(RedisAfter(map[], ops), MemoryAfter(map[], ops))
    ensures forall d :: RawHit(RedisAfter(map[], ops), d) == Hit(Lookup(MemoryAfter(map[], ops), d))
  {
    var store, secrets := RedisAfter(map[], ops), MemoryAfter(map[], ops);
    if ops != [] {
      var front, last := ops[..|ops| - 1], ops[|ops| - 1];
      RedisRefinesMemory(front);
      assert last in ops;
      var before, beforeSecrets := RedisAfter(map[], front), MemoryAfter(map[], front);
      match last
      case Get(device) =>
      case Set(device, secret) => SetsAgree(before, beforeSecrets, device, secret);
      case Delete(device) => ReplacementRepresents(before, beforeSecrets, device, TOMBSTONE);
      case Expire(device) => ExpiryRepresents(before, beforeSecrets, device);
    }
    forall d ensures RawHit(store, d) == Hit(Lookup(secrets, d)) {
      GetsAgree(store, secrets, d);
    }
  }

  /** Why values must not be empty: Redis would keep `1:` as an entry that a newer generation
      replaces, where the memory cache has a tombstone that nothing replaces. */
  lemma EmptyValuesDisagree()
    ensures var first, second := Secret("", 1), Secret("s", 2);
      var store := RawSet(RawSet(map[], "d", first), "d", second);
      var secrets := map["d" := Newer(Some(Newer(None, first)), second)];
      RawHit(store, "d") == Some(second) && Hit(Lookup(secrets, "d")) == None
  {
    MatchReadsGeneration(Secret("", 1));
    DecodeUndoesEncode(Secret("s", 2));
  }
}
