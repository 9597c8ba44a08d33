# Corvauth device sessions, verified

Corvauth is a device-session server. A login creates a device row with a secret and the
generation 1; access and refresh tokens are signed with that secret and carry a generation; a
refresh token is accepted only while its generation is the row's. Rotating a refresh token
increments the generation, and presenting an older one is taken for theft and deletes the device.

That one integer travels through layers that share no lock: the PostgreSQL table, a secret cache
in front of it (in memory or in Redis), token verification, and a flight group that
deduplicates and replays `/refresh`. This project models each layer, and proves what holds for
every interleaving of them, what holds for every sequential run, and where a stronger claim fails.

Code that changes things step by step is a class or a method with a loop, proved against functions
on the table. Code that runs concurrently is a state machine: a `State`, the `Event`s, `Enabled`
and `Apply`, and theorems over every sequence of states that follows from them.

| file | what it holds |
|---|---|
| `Wrappers.dfy`, `GoStrings.dfy` | `Option`, `Result`; digits, `Itoa`, `Atoi` |
| `Secrets.dfy`, `RedisSecrets.dfy` | the two secret caches, and that they behave alike |
| `Devices.dfy`, `CachedDb.dfy` | the tables, and `CachedDB` one call at a time |
| `CacheProtocol.dfy`, `CacheSolo.dfy` | `CachedDB` as interleaved, timed steps, which one at a time are the class |
| `CacheDeletes.dfy` | what a finished delete has done, in every run |
| `CacheSafety.dfy`, `CacheStaleness.dfy`, `CacheCounterexamples.dfy`, `ReuseAlarm.dfy` | what holds in orderly runs, what holds in all runs, three runs that show why, and what it means for tokens |
| `HandlerRuns.dfy` | the concurrent cache with deletes as the handlers make them, for subjects of issued tokens |
| `Tokens.dfy`, `TokenRuns.dfy`, `TokenSupply.dfy` | token verification and minting, and all their interleavings over the table: one acceptable refresh token per device, no more and no less |
| `Flight.dfy`, `FlightSafety.dfy`, `FlightAnswers.dfy` | the flight group, and where each of its answers comes from |
| `Refresh.dfy`, `Session.dfy`, `Login.dfy` | the handlers, one request at a time; login states |
| `RefreshStages.dfy` | the rotation taken apart into steps, which left alone are the handler's |
| `RefreshRuns.dfy`, `RefreshLimits.dfy` | refreshes through the flight group, step by step: when retries are harmless, and exactly for which tokens they are not |
| `RefreshThroughCache.dfy` | the whole stack: the same refreshes with every lookup and update going through the concurrent cache |
| `Duration.dfy` | the configuration's duration parser |

## Assumptions

- Device identifiers and login states are fresh, and a row's secret never changes.
- One SQL statement, one cache operation and one Redis command are atomic; the Redis lock is
  exclusive until it is released.
- Device secrets are not empty. `RedisSecrets.EmptyValuesDisagree` shows that the two caches
  differ otherwise.
- Signatures are ideal: a token carries the key it was signed with and verifies under a secret
  only if that is the key. The hash of a flight key is injective.
- In the concurrent model cache entries expire but are not evicted for capacity; in the
  sequential one an entry may go at any moment.
- An entry's expiry counts from its last write. Lua compares generations exactly.
- Every check and every minting reads the clock for itself; all instances share one clock, which in
  runs does not go back.
- The secret cache is one for all instances. Without Redis it is in memory and there is a single
  instance, as `docs/configuration.md:13` says.
- "Redis answers" means that a command sent within its context succeeds. From the deadline of the
  caller's context on (10 seconds for a refresh) its commands are refused and its lock is released.
- Lower-casing is that of ASCII letters.

In `CacheProtocol`, an *orderly* run is one in which every operation ends before a live entry
written at its start would (5 minutes) and every delete names the owner of the device, if the device
still exists. Rows may vanish and emails may change at any time in any run. The fields `step`,
`need`, `floor`, `seen` and `Entry.began` are history: no `Enabled` and no branch of `Apply`
depends on them.

## Findings

- **Deletes after an email change miss.** Handlers delete in the name of a token's subject, and
  that is the owner at login (`TokenRuns.DeletesHitTheOwnerAtLogin`). While emails stay as they
  are this is the row's owner (`TokenRuns.HandlersNameTheOwner`). After a change of email, which
  cascades to the row (`database/schema/schema.sql:10`), a logout or a detected reuse removes no row
  and still writes a tombstone.
- **Three ways out of order.** In an orderly run the newest token is never taken for a reused one
  and no finished update is forgotten. After a delete that names an outdated owner both happen:
  the tombstone keeps the newer generation out of the cache, so a lookup that joins an older load is
  handed the older generation, with no time passing at all, and a load that waits for the tombstone
  to expire writes it. The update in between is a rotation that still succeeds, which under an
  outdated email takes a server without usernames, or somebody else with that email. A load that
  outlives the entry lifetime does the first without any delete.
- **Reuse is any mismatch.** `docs/sessions.md` describes reuse as presenting an already-rotated
  token. The code treats every generation that differs from the row's as reuse, and a repeat
  inside the result window as a retry that is answered with the same pair.
- **A rotation can spend a generation and have no pair to show for it**, in a sequential run exactly
  when the new refresh token is out of date by the time it is checked (`Refresh.RotateOutcomes`). A
  check that comes `gap` after the minting always succeeds exactly if the configured duration is a
  second or more above the gap (`Tokens.OutlivesTheGap`). The configuration only ensures one second
  in all (`Duration.PositiveMeansASecond`), and with one second it happens
  (`Refresh.AShortLifeSpendsForNothing`). Among interleaved requests a removal or another increment
  before the check does the same.
- **A retry can delete the device.** What a rotation has spent is safe from a retry only if its pair
  is stored, or if the presented token is over. A rotation that fails after its increment is not
  stored. Nor, with Redis, is one that succeeds and is answered after more than the 10 seconds of its
  context: the store is refused (`server/internal/flight/flight.go:230`), and `rotate` does not look
  at the context. With Redis answering throughout, no run deletes the device exactly if the presented
  token ends no later than one minted now would and, with Redis, no later than 10 seconds from now
  (`RefreshLimits.RetrySafeExactlyWhen`). Tokens of the present configuration always meet the first
  (`RefreshRuns.MintedHereIsCovered`); the second is met by hardly any. In runs whose executions
  end within their contexts the first is enough (`RefreshRuns.RefreshIsRetrySafe`). Past the
  deadline the flight group itself may run `fn` to success twice (`FlightSafety.LateRunsRepeat`).

## Model

| member | source | states |
|---|---|---|
| `Secrets.MemorySecretCache.GetSecret` | server/internal/cache/device/memory.go:27-33 | a tombstone and a missing entry both read as a miss |
| `Secrets.MemorySecretCache.SetSecret` | server/internal/cache/device/memory.go:35-42 | the entry becomes the newer of the two, a tombstone beats everything, and no other entry changes |
| `Secrets.MemorySecretCache.DeleteSecret` | server/internal/cache/device/memory.go:44-46 | exactly this entry becomes the tombstone |
| `Secrets.WritesFormJoin` | server/internal/cache/device/memory.go:35-46 | after any writes the entry is the join of the bag of writes: the highest generation offered, or the tombstone if any delete is among them |
| `Secrets.WriteOrderIrrelevant` | server/internal/cache/device/memory.go:35-46 | any two orders of the same writes leave the same entry |
| `RedisSecrets.CutAt` | server/internal/cache/device/redis.go:52-52 | the cut is at the first colon, or there is none |
| `RedisSecrets.DecodeUndoesEncode` | server/internal/cache/device/redis.go:47-61 | decoding gives back every encoded secret with a non-empty value, colons in it and negative generations included |
| `RedisSecrets.MatchReadsGeneration` | server/internal/cache/device/redis.go:25-25 | the script's prefix match reads back exactly the encoded generation |
| `RedisSecrets.DecodeMeans` | server/internal/cache/device/redis.go:51-61 | any text with a colon is read as a secret exactly if something follows its first colon and a number precedes it |
| `RedisSecrets.ScriptMeans` | server/internal/cache/device/redis.go:19-32 | for any text in the key, exactly when the script keeps it |
| `RedisSecrets.RedisSecretCache.GetSecret` | server/internal/cache/device/redis.go:63-75 | a hit is what the stored text decodes to |
| `RedisSecrets.RedisSecretCache.SetSecret` | server/internal/cache/device/redis.go:77-88 | the key keeps or replaces its text as the script decides |
| `RedisSecrets.RedisSecretCache.DeleteSecret` | server/internal/cache/device/redis.go:90-94 | exactly this key becomes the empty text |
| `RedisSecrets.SetsAgree` | server/internal/cache/device/redis.go:19-32 | the script on text keeps or replaces exactly as the memory cache does on entries |
| `RedisSecrets.RedisRefinesMemory` | server/internal/cache/device/redis.go:19-94 | after every sequence of gets, sets, deletes and expiries the Redis cache represents the memory cache and every lookup answers alike |
| `RedisSecrets.EmptyValuesDisagree` | server/internal/cache/device/redis.go:47-49 | with an empty value the two caches differ, on a concrete pair of writes |
| `Devices.Database.SaveDeviceSecret` | database/device.go:24-46 | a new row at generation 1, or the table as it was and the reason |
| `Devices.Database.UpdateDeviceSecret` | database/device.go:48-61 | exactly this row counts up by one and the new generation is returned, or no row and no change |
| `Devices.Database.GetDeviceSecret` | database/device.go:63-71 | the row's secret and generation, or no row |
| `Devices.Database.DeleteDevice` | database/device.go:73-77 | removes the row only if it belongs to the named owner |
| `Devices.Database.DeleteAllDevicesReturningIDs` | database/device.go:85-105 | removes exactly the rows whose owner has this email, leaves every other row as it was, and lists each removed identifier once |
| `Devices.InsertedMeans` | database/device.go:24-46 | row by row: exactly a new identifier of a known user is added, at generation 1 |
| `Devices.IncrementedMeans` | database/device.go:48-61 | row by row: exactly this generation goes up by one, and nothing else changes |
| `Devices.RemovedMeans` | database/device.go:73-105 | row by row: what a delete, a delete-all and a change of email take, keep and change |
| `Devices.Database.GetUsername` | server/internal/usersdb/usersdb.go:162-176 | the name of a known user, or user-not-found; an empty name for everybody where there is no username column |
| `Devices.Database.CreateUser` | server/internal/usersdb/usersdb.go:132-145 | inserts, or leaves an existing name alone; refused for external users |
| `Devices.Database.DeleteUser` | server/internal/usersdb/usersdb.go:178-187 | removes the user and, by the foreign key, exactly the rows whose owner has this email |
| `CachedDb.CachedDb.GetDeviceSecret` | server/internal/cache/device/cached_db.go:22-44 | answers what the table holds, whatever the cache holds, offers what it loaded to the cache and changes no other entry |
| `CachedDb.CachedDb.UpdateDeviceSecret` | server/internal/cache/device/cached_db.go:46-63 | the table counts up, the answer is the table's, the new row is offered to the cache, and every live entry still repeats its row |
| `CachedDb.CachedDb.DeleteDevice` | server/internal/cache/device/cached_db.go:65-71 | the row goes if the owner is right; the entry is buried either way |
| `CachedDb.CachedDb.DeleteAllDevices` | server/internal/cache/device/cached_db.go:73-83 | d goes exactly if its owner has this email and then has a tombstone; every other row and entry stays as it was |
| `CachedDb.ServeAll` | server/internal/cache/device/cached_db.go:22-83 | every sequence of save, get, update, delete and delete-all, with evictions anywhere and any owner named, is answered exactly as by the bare table, which ends up the same |
| `CacheSolo.LookupAlone` | server/internal/cache/device/cached_db.go:22-44 | left alone, the steps of a lookup answer what the table holds and leave the live entries as the class does |
| `CacheSolo.UpdateAlone` | server/internal/cache/device/cached_db.go:46-63 | left alone, the steps of an update do to table and live entries what the class does |
| `CacheSolo.DeleteAlone` | server/internal/cache/device/cached_db.go:65-71 | left alone, the steps of a delete do to table and live entries what the class does, whoever it names |
| `CacheSafety.WriteNeverLosesGround` | server/internal/cache/device/memory.go:35-42 | in a reachable orderly state a cache write never leaves less than was ever there, expired entries included |
| `CacheSafety.MissMeansFresh` | server/internal/cache/device/cached_db.go:22-38 | when a lookup misses, any value for the device in another operation's hands is at least as new as every update finished before the lookup began, so joining that load is safe |
| `CacheSafety.StepKeepsInv` | server/internal/cache/device/cached_db.go:22-83 | every orderly step of every operation keeps the cache invariant |
| `CacheSafety.InvAlways` | server/internal/cache/device/cached_db.go:22-83 | the invariant holds in every state of every orderly run |
| `CacheSafety.FinishedUpdateIsNeverForgotten` | server/internal/cache/device/cached_db.go:46-63 | in every orderly run, once an update has returned g, every later hit has generation g or more, across expiry and reload |
| `CacheSafety.NewestTokenIsNeverJudgedRevoked` | server/internal/cache/device/cached_db.go:22-63 | in every orderly run, a lookup begun after a generation was handed out and ended while it is the row's answers exactly it, by hit, load or joined load |
| `CacheStaleness.SoundAlways` | server/internal/cache/device/cached_db.go:22-83 | in every run whatever, each entry and each value in hand is one the row held, at an instant inside the operation concerned |
| `CacheStaleness.TakenUpIsRecent` | server/internal/cache/device/cached_db.go:52-61 | what an update takes up from the cache and writes back is a pair the row held since that update began |
| `CacheStaleness.HitIsBoundedlyStale` | server/internal/cache/device/memory.go:14-33 | a hit is a pair the row held less than five minutes plus one operation ago, even if rows vanish unseen |
| `CacheStaleness.AnswerWasHeld` | server/internal/cache/device/cached_db.go:22-44 | every lookup that finds a secret finds a pair the row held, joiners included |
| `CacheStaleness.TombstoneStands` | server/internal/cache/device/memory.go:35-46 | no operation in flight, however slow, displaces a tombstone during its six minutes |
| `CacheStaleness.RemovedRowIsNeverLoaded` | database/database.go:100-110 | a removed row never returns, and each lookup that loads for itself answers device-not-found |
| `CacheStaleness.BurialLasts` | server/internal/cache/device/device.go:9-13 | a buried device stays buried from state to state while no operation outlives the tombstone lifetime |
| `CacheStaleness.DeletionIsFinal` | server/internal/cache/device/memory.go:35-46 | once a tombstone has been written over a removed row, with operations shorter than its lifetime, the device is never live in the cache again and never loaded, for ever |
| `CacheDeletes.RemovalIsExact` | database/device.go:73-105 | in every run the removing step of a delete or delete-all takes exactly the rows that the named user owns then, and owes a tombstone for each |
| `CacheDeletes.FinishedDeleteHasBuried` | server/internal/cache/device/cached_db.go:65-83 | in every run, when a delete or delete-all is done, every device it took or named has had a tombstone written since |
| `CacheDeletes.FinishedDeleteIsFinal` | server/internal/cache/device/cached_db.go:65-83 | and with operations shorter than a tombstone's lifetime none of the devices it took is ever live in the cache or loaded again |
| `CacheCounterexamples.OutdatedOwnerRaisesFalseAlarm` | server/internal/cache/device/cached_db.go:65-71 | a concrete run, without time passing, in which an email changes, a delete names the old one, and the newest generation then looks old |
| `CacheCounterexamples.OutdatedOwnerForgetsAnUpdate` | server/internal/cache/device/cached_db.go:46-63 | a concrete run of prompt operations in which, after such a delete, an update has returned 2 and a later hit is 1 |
| `CacheCounterexamples.SlowLoadRaisesFalseAlarm` | server/internal/cache/device/cached_db.go:27-38 | a concrete run, without deletes, in which a load slower than the entry lifetime does the same |
| `ReuseAlarm.NoFalseReuseAlarm` | jwt/jwt.go:179-203 | in every orderly run the token of the row's current generation is accepted through the cache and so never sets off the delete |
| `ReuseAlarm.OutdatedOwnerRevokesTheNewest` | jwt/jwt.go:201-203 | in the run with an outdated owner every token of the row's current generation is judged revoked |
| `ReuseAlarm.SlowLoadRevokesTheNewest` | jwt/jwt.go:201-203 | and so it is in the run with a slow load |
| `HandlerRuns.HandlersAreOrderly` | server/internal/handlers/session/session.go:72-87 | every prompt run without email changes, in which devices are deleted for subjects of issued tokens only, is orderly: deletes name the owner |
| `HandlerRuns.NoFalseReuseAlarmFromHandlers` | server/internal/handlers/refresh/refresh.go:88-130 | so in every such run the token of the row's current generation is accepted through the cache |
| `HandlerRuns.LoginPermitsLogout` | server/internal/handlers/session/session.go:72-87 | the token of a login permits the deletion of its device to the owner and to nobody else |
| `Tokens.KindsAreSeparate` | jwt/jwt.go:110-113 | no header passes both for an access and for a refresh token |
| `Tokens.TypeMeans` | jwt/jwt.go:110-113 | which headers name a kind: its name in any case, with or without the media type |
| `Tokens.RefusedMeans` | jwt/jwt.go:152-199 | exactly when a token is invalid, of an unknown device, or badly signed |
| `Tokens.AcceptedMeans` | jwt/jwt.go:152-206 | acceptance is exactly: right kind, signed with the row's secret, before its end, of the configured issuer and audience, of the row's generation |
| `Tokens.RevokedMeans` | jwt/jwt.go:201-203 | reuse is exactly: everything that acceptance asks for, except that the generation is not the row's |
| `Tokens.MintedIsAccepted` | jwt/jwt.go:63-102 | a token minted at one time for the row as it is gets accepted at another, exactly if that is before its end in whole seconds |
| `Tokens.OutlivesTheGap` | server/internal/config/config.go:204-217 | a token survives a check made a given gap after its minting, whenever that is, exactly if its duration is a second or more above the gap |
| `Tokens.JwtManager.VerifyToken` | jwt/jwt.go:152-206 | verification through the cache gives the table's verdict |
| `Tokens.JwtManager.GenerateAccess` | jwt/jwt.go:81-102 | succeeds exactly for a refresh token accepted when it is checked, with its subject, device and generation |
| `Tokens.JwtManager.RotateRefresh` | jwt/jwt.go:125-139 | an accepted token costs the device one generation and yields the token of the next; any other changes nothing |
| `TokenRuns.StepKeepsInv` | jwt/jwt.go:125-139 | every step of logins, rotations caught between check and increment, minting and removal keeps generations unique and within the row's |
| `TokenRuns.AtMostOneRefreshTokenIsAccepted` | jwt/jwt.go:201-205 | in every run no two different issued refresh tokens of one device are acceptable at once |
| `TokenRuns.IssuedNeverExceedsTheRow` | database/device.go:48-61 | in every run no issued token is ahead of its row |
| `TokenRuns.RejectedForGood` | jwt/jwt.go:152-206 | a token once revoked, or whose device is gone, is never accepted again |
| `TokenSupply.TheCurrentTokenExists` | jwt/jwt.go:125-139 | in every run a device that exists and is not being signed for has an issued refresh token that is accepted exactly until its end |
| `TokenSupply.MintingIssues` | jwt/jwt.go:81-102 | minting for the row as it is issues an access token that is accepted exactly until its end and names the subject |
| `TokenRuns.DeletesHitTheOwnerAtLogin` | server/internal/handlers/refresh/refresh.go:92-92 | in every run an issued token names the owner of its device at login, and a delete for it removes the row exactly if that is the owner still |
| `TokenRuns.HandlersNameTheOwner` | server/internal/handlers/session/session.go:72-87 | in every run without email changes the subject of every issued token is the owner of its row |
| `FlightSafety.StepKeepsInv` | server/internal/flight/flight.go:160-233 | every step of any caller on any instance, on time or past its deadline, keeps the lock, the leaders and the stored result consistent |
| `FlightSafety.StoredResultIsWriteOnce` | server/internal/flight/flight.go:218-231 | a stored result is only ever replaced by its expiry, and it is the value of a successful run, deadlines or not |
| `FlightSafety.InFlightOnlyNeverReusesTheFinished` | server/internal/flight/flight.go:199-232 | an in-flight-only execution reuses only results stored after it began; one that found a result on arrival reran `fn`, deadlines or not |
| `FlightSafety.EveryAnswerWasRun` | server/internal/flight/flight.go:160-233 | every successful caller, on time or not, returns the value of a successful run |
| `FlightAnswers.EveryAnswerIsTraced` | server/internal/flight/flight.go:160-233 | in every run, Redis answering or not, every returned call has the outcome of its own run, or exactly the value stored at the step it names, or the outcome of the call it joined; a failure is always that of a run of `fn` |
| `FlightSafety.OrdinaryStep` | server/internal/flight/flight.go:160-233 | every step of ordinary calls in time keeps: one success at most, kept or about to be kept |
| `FlightSafety.FnSucceedsAtMostOnce` | server/internal/flight/flight.go:160-233 | any number of ordinary calls on any number of instances, executions within their contexts: `fn` succeeds at most once and every successful caller returns that one stored value; without Redis, instance by instance and whatever the time |
| `FlightSafety.LateRunsRepeat` | server/internal/flight/flight.go:228-231 | a run with Redis answering in which two executions outlast their contexts and `fn` succeeds twice |
| `Refresh.Handler.DeleteDeviceOnReuse` | server/internal/handlers/refresh/refresh.go:88-95 | deletes the subject's device on a revoked token and does nothing on any other error |
| `Refresh.Handler.Rotate` | server/internal/handlers/refresh/refresh.go:97-130 | through the cache, the table and the answer are those of one rotation on the bare table, with the clock read at each check and minting |
| `Refresh.Handler.RefreshAccess` | server/internal/handlers/refresh/refresh.go:132-169 | succeeds exactly for a token of a known user that passes both checks, with an access token that names that user and device and lasts exactly until its end; a reused token deletes the device |
| `Refresh.SpendsMeans` | server/internal/handlers/refresh/refresh.go:98-119 | a generation is spent exactly if the token is accepted at both checks and, where names are selected, its subject is a user |
| `Refresh.RotateOutcomes` | server/internal/handlers/refresh/refresh.go:97-130 | exactly three outcomes: one generation up, with a pair exactly if the new token is in date when checked; device deleted, exactly when a token properly signed and typed, before its end, of this issuer and audience and of the device's owner has another generation than the row; or nothing changed |
| `Refresh.RotationHandsOver` | server/internal/handlers/refresh/refresh.go:112-129 | both new tokens are accepted exactly until their end and name the same user and device; the old token never is accepted again |
| `Refresh.RotatingTwiceDeletes` | server/internal/handlers/refresh/refresh.go:88-101 | running a rotation twice on one token in date deletes the device, even if the first run handed out no pair |
| `Refresh.AShortLifeSpendsForNothing` | server/internal/handlers/refresh/refresh.go:121-124 | with a duration of one second, concrete clock readings for which the generation is spent and the answer is an error |
| `RefreshRuns.OneRotationAtATime` | server/internal/flight/flight.go:160-233 | no two rotations of one token are in progress at once, as long as executions are within their contexts |
| `RefreshStages.StagedIsSequential` | server/internal/handlers/refresh/refresh.go:97-130 | left alone, the staged rotation changes the table and answers as the handler's rotation does, for every reading of the clock |
| `RefreshStages.AlarmsExactlyOnReuse` | server/internal/handlers/refresh/refresh.go:98-116 | each check of the presented token leads to the delete exactly if the token is a reused one by then |
| `RefreshRuns.RefreshIsRetrySafe` | server/internal/handlers/refresh/refresh.go:56-130 | any number of concurrent or repeated refreshes with one valid, covered token inside the result window, in runs whose executions end within their 10 seconds, or on one instance without Redis, or with a token that ends by then: never deleted, generation up exactly once when anyone is answered, everyone answered with the same pair, whose refresh token is accepted as one and whose access token as one exactly until their ends, of the same user and device |
| `RefreshRuns.AnsweredNameWasHeld` | server/internal/handlers/refresh/refresh.go:104-121 | the access token of every answered pair carries a name that the user had during the run |
| `RefreshRuns.RetriesAreAnswered` | server/internal/handlers/refresh/refresh.go:56-86 | once anybody is answered, every later call in the window, in time, that does not join an older one is answered with the same pair |
| `RefreshRuns.MintedHereIsCovered` | jwt/jwt.go:63-79 | every token minted under the present configuration is covered |
| `RefreshLimits.UncoveredTokenCanLoseTheDevice` | server/internal/handlers/refresh/refresh.go:97-130 | for every valid token that is not covered, with Redis and without, a run in which a slow rotation fails after its increment and the retry deletes the device |
| `RefreshLimits.SlowRotationCanLoseTheDevice` | server/internal/handlers/refresh/refresh.go:64-69 | with Redis, for every valid, covered token that is in date when the first context ends, a run in which the first caller is answered with its pair, nothing is stored, and the retry deletes the device |
| `RefreshLimits.ARefreshIsAnswered` | server/internal/handlers/refresh/refresh.go:56-130 | for every valid, covered token of a known user, with Redis and without, a run in time in which the caller is answered |
| `RefreshLimits.RetrySafeExactlyWhen` | server/internal/handlers/refresh/refresh.go:56-130 | for a valid token of a known user who owns the device: no run in which Redis answers deletes the device, exactly if the token ends no later than one minted now and, with Redis, no later than ten seconds from now |
| `RefreshThroughCache.StackRefinesShop` | server/internal/handlers/refresh/refresh.go:56-130 | every orderly run of refreshes, executions within their contexts, whose checks are cache lookups and whose increments are cache updates, step by step among everybody else's, is a run over the bare table |
| `RefreshThroughCache.AlarmDeletesThroughTheCache` | server/internal/handlers/refresh/refresh.go:88-95 | the delete that an alarmed rotation calls takes its subject's device, as over the bare table |
| `RefreshThroughCache.RefreshIsRetrySafeThroughTheCache` | server/internal/handlers/refresh/refresh.go:56-130 | retry safety for the whole stack of flight group, token checks, cache and table, in every orderly run whose executions end within their contexts, with the same promise about the pair and its name |
| `RefreshThroughCache.RetriesAreAnsweredThroughTheCache` | server/internal/handlers/refresh/refresh.go:56-86 | and no later call in the window is refused |
| `Session.Handler.Verify` | server/internal/handlers/session/session.go:41-70 | lets through exactly accepted access tokens, with the email, username and device they carry |
| `Session.Handler.Logout` | server/internal/handlers/session/session.go:72-87 | the presented device's tokens become worthless, no live entry of it remains, and every other device keeps its row, its entry and the standing of its tokens |
| `Session.Handler.DeleteMe` | server/internal/handlers/session/session.go:89-118 | no row, no live entry and no acceptable token remains of a device whose owner has the token's email; every other device keeps its row, the verdict on its tokens and, but for the presented one, its entry |
| `Login.StateCache.Set` | server/internal/cache/state/memory.go:34-37 | exactly this state gets the verifier |
| `Login.StateCache.Take` | server/internal/cache/state/redis.go:23-32 | returns the verifier, or nothing, and removes exactly this state; an error leaves the state, or removes it unseen |
| `Login.Handler.CreateDevice` | server/internal/handlers/login/login.go:281-336 | one new device at generation 1 with tokens that name its user and last exactly until their end, or, after the rollback, the table as it was; success exactly when user, identifier, signatures and time allow |
| `Login.Handler.OpenSession` | server/internal/handlers/login/login.go:242-336 | the same from the provider's user on, registering it exactly where that is allowed, and exactly when the user is not found or the device not saved |
| `Login.Handler.HandleExchange` | server/internal/handlers/login/login.go:188-348 | exactly when each reply is given; the state is consumed on every path on which the cache hears of it, the provider is asked exactly if state and verifier admit it and with the state's own verifier, and devices are all or nothing, failed signatures included |
| `Login.StepKeepsInv` | server/internal/handlers/login/login.go:105-240 | every step of any number of callbacks, deduplicated or not, conserves the states |
| `Login.LoginStatesAreConserved` | server/internal/handlers/login/login.go:87-240 | in every run, cache errors included, each issued state is pending, expired or taken exactly once, and leads to at most one provider exchange, with its own verifier |
| `Login.AsksExactlyWhenAdmitted` | server/internal/handlers/login/login.go:195-226 | an exchange asks the provider exactly if its state is pending, the cache answers and the verifier is right, and with the verifier that the state was issued with |
| `Login.CallbacksTouchTheState` | server/internal/handlers/login/login.go:105-131 | a callback consumes a pending state at once exactly if it comes from the issuer and reports an error, code or no code; with neither it leaves the state pending |
| `Duration.MultiplyDuration` | server/internal/config/duration.go:63-69 | the exact product, or out of range exactly if it exceeds 64 bits, without overflowing on the way; what truncated division makes of negative units |
| `Duration.LeadingDigits` | server/internal/config/duration.go:37-40 | the end of the leading run of digits |
| `Duration.AddPart` | server/internal/config/duration.go:50-57 | the exact sum, or out of range exactly if it exceeds 64 bits |
| `Duration.ScanParts` | server/internal/config/duration.go:34-60 | succeeds exactly if the text reads as parts whose total fits, and returns that total |
| `Duration.ParseDuration` | server/internal/config/duration.go:21-61 | succeeds exactly when the normalised text denotes an amount of at most 2^63-1 and returns it; empty and unit-less texts are told apart; bare numbers of negative units are refused, but for zero of the smallest |
| `Duration.PartsOfText` | server/internal/config/duration.go:34-60 | reading a written row of parts gives those parts back, so no text has two meanings |
| `Duration.ReadingIsMeaning` | server/internal/config/duration.go:34-60 | a text with units denotes the total of its one reading and nothing else |
| `Duration.DurationsAddUp` | server/internal/config/duration.go:57-58 | texts with units add up when written one after the other |
| `Duration.SecondsAre` | server/internal/config/duration.go:14-19 | a number and "s" denote that many thousand million nanoseconds, and nothing else |
| `Duration.UnitsAre` | server/internal/config/duration.go:14-19 | a minute denotes what sixty seconds do, an hour what sixty minutes do and a day what twenty-four hours do |
| `Duration.NoOtherUnits` | server/internal/config/duration.go:45-48 | with any other unit a text denotes nothing |
| `Duration.NormalizedMeans` | server/internal/config/duration.go:22-22 | blanks around a text and the case of its letters do not matter |
| `Duration.PositiveMeansASecond` | server/internal/config/config.go:212-217 | where a unit is compulsory, a positive duration is at least a second |

## Left out

- HTTP plumbing, cookies, JSON bodies, headers and statuses beyond the few that the handlers distinguish.
- OAuth2 and OIDC provider clients, discovery and userinfo: `Exchange` and `GetUser` are parameters, and token revocation at the provider is not modelled.
- HMAC, base64, the text form of tokens and the JSON form of flight results.
- The inside of otter, rueidis, rueidislock and singleflight; they appear only as atomic operations.
- Database outages, and Redis outages in the secret cache. In the flight group Redis failures are events of the machine, but the theorems are about runs without them.
- Capacity eviction in the concurrent cache model.
- Citext collation, overflow of the SQL generation and device names.
- The age test of the cleanup worker: a row may vanish at any moment instead.
- Schema creation, the environment loader apart from durations, the identity signer and the `test-provider` program.
- Devices.Database.DeleteUser: removing a user in an external table is not this server's to do and appears only as rows that vanish.
- Refresh.Handler.Rotate: one request at a time; rotations caught between check and increment are in `TokenRuns` and `RefreshRuns`.
- RefreshRuns.RetriesAreAnswered: a call that joins one begun before the first answer gets that one's outcome, which may be an earlier failure.
- RefreshRuns.RefreshIsRetrySafe: the window is one in which the stored result does not expire, without Redis all callers are on one instance, and until the window is over nobody else updates or removes this one row.
- RefreshThroughCache.RefreshIsRetrySafeThroughTheCache: the same window, in orderly runs of the cache with executions in time; tokens that end within 10 seconds are covered over the bare table only.
- FlightSafety.FnSucceedsAtMostOnce: executions that outlast their contexts are excluded, since for them it is false (`FlightSafety.LateRunsRepeat`).
- Duration.ParseDuration: letters outside ASCII that lower-casing would change.
