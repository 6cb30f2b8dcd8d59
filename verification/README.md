# Verified models of Android's platform security services

This project models, in Dafny, the parts of Android's `system/security` repository that are hardest to get
right, and proves what they promise. Nothing here executes the original program.

* **Keystore's database** (`Tables`, `Transactions`, `TableInvariants`, `KeyLifecycle`, `KeystoreDb`): the
  tables of `KeystoreDB`, every transaction on them as a function from tables to tables, and the transaction
  bodies as methods of a class whose fields are those tables. Runs are arbitrary sequences of transactions,
  that is, any interleaving of any number of connections.
* **Garbage collection** (`GarbageCollection`, `GcObject`, `GcProtocol`): the collector's step with its two
  in-memory lists, and the protocol by which commits wake it up.
* **Key id locks** (`KeyLock`): the two-phase lock of `load_key_entry` under all interleavings of threads.
* **AsyncTask** (`AsyncTasks`): the queue, its worker threads, the shelf and the idle functions, as a state
  machine over the critical sections, refining a serial scheduler.
* **Authorization** (`AuthorizeCreate`, `AuthTokens`): the decision of `authorize_create`, and the deferred
  delivery of hardware auth tokens (HATs) to waiting operations.
* **Boot level keys** (`BootLevelKeys`): the cache of derived keys.
* **Protected confirmation** (`Confirmation`): sessions, callbacks and back-off.
* **Legacy keystore** (`LegacyKeystore`, `LegacyNames`): two storage tiers that look like one map, and the file
  names of the older one.
* **Identity credentials** (`AuthKeys`, `CredentialCbor`, `CredentialObject`): the choice of authentication keys,
  and saving and loading a credential as a CBOR item (section 3 of RFC 8949).
* **On-device signing** (`Odsign`): one boot of odsign.
* `Prelude` and `Alphabetical` hold shared facts about sets, sequences and the order of strings.

Code that changes things step by step is written as classes and methods with loops, and each method is tied to
a function of the old state; theorems about whole runs are proved about those functions. Concurrent code is a
state machine whose steps are the critical sections of the original; `IsExecution` or `IsRun` says that a sequence of
states follows its rules, and theorems quantify over all of them.

## Assumptions

* A database transaction is atomic; in the collector's protocol transactions also succeed, and the `notified` flag
  is sequentially consistent although the original asks for relaxed ordering.
* A freshly drawn key id is not in use and, where a theorem says so (`NoLeftoverBlobs`), is not the owner of a
  blob left over from an earlier key. Blob metadata is stored for key blobs only.
* In the model of AsyncTask queued jobs return. A panicking job ends the worker for good, which the legacy keystore's model
  takes into account.
* Clocks, random ids, user interface answers, files found by other programs and failures are parameters.

## Model

| member | source | states |
|---|---|---|
| Tables.LoadComponent | keystore2/src/database.rs:2091-2146 | Loading a component of a key yields its newest blob in that slot, and nothing exactly if the slot is empty. |
| Tables.ComponentIs | keystore2/src/database.rs:2091-2146 | The blob that is newest in its slot is the one that is loaded, with its own metadata. |
| Tables.NextBlobId | keystore2/src/database.rs:1602-1642 | A new blob row gets an id above all ids present, so it is the newest of its slot. |
| TableInvariants.AddKeyKeepsInv | keystore2/src/database.rs:1526-1565 | Inserting a key entry under an unused id keeps all table invariants. |
| TableInvariants.AddBlobKeepsInv | keystore2/src/database.rs:1602-1642 | Inserting a blob keeps all table invariants. |
| TableInvariants.DeleteKeysKeepsInv | keystore2/src/database.rs:2333-2344 | Deleting key entries with their parameters, metadata and grants leaves no dangling row. |
| TableInvariants.RebindKeepsInv | keystore2/src/database.rs:1692-1738 | Rebinding an alias keeps aliases unique: the former holders lose alias, domain and namespace, and become Unreferenced. |
| TableInvariants.MigrateKeepsInv | keystore2/src/database.rs:1742-1802 | Migrating a key to another namespace keeps the invariants, or changes nothing if the destination is occupied. |
| TableInvariants.GrantKeepsInv | keystore2/src/database.rs:2668-2731 | Granting keeps one grant per key and grantee, and never grants an Existing key. |
| TableInvariants.CollectKeepsInv | keystore2/src/database.rs:1154-1236 | A garbage collection transaction keeps the invariants. |
| TableInvariants.FailureChangesNothing | keystore2/src/database.rs:1462-1495 | A transaction that fails leaves the tables as they were. |
| TableInvariants.ApplyKeepsInv | keystore2/src/database.rs:1246-2765 | Each of the sixteen transactions, with any arguments and whether or not it succeeds, keeps: at most one Client row per bound alias, one grant per key and grantee, no dangling parameter, metadata or grant rows, no grant to an Existing key. |
| TableInvariants.RunKeepsInv | keystore2/src/database.rs:1246-2765 | The invariants hold in every state of every run of transactions. |
| KeyLifecycle.ApplyAges | keystore2/src/database.rs:1692-1738 | A transaction that does not create a key can only leave its state, make it Unreferenced, or remove it. |
| KeyLifecycle.LiveOrGoneLater | keystore2/src/database.rs:1692-1887 | Along any run a Live key stays Live or is gone, and a gone key stays gone. |
| KeyLifecycle.LeavingLiveIsFinal | keystore2/src/database.rs:1941-2089 | Once a key has stopped being Live, no alias, key id or grant resolves to it in any later state. |
| KeyLifecycle.RebindResolves | keystore2/src/database.rs:1692-1738 | After rebinding, the alias resolves to exactly the new key. |
| KeyLifecycle.StoreNewKeyResolves | keystore2/src/database.rs:1810-1887 | After storing a key, its alias resolves to it, it loads with exactly the key blob, certificate, chain, metadata and parameters given, the former holders are gone, and all other keys look the same. |
| KeyLifecycle.StoredWithoutCertificate | keystore2/src/database.rs:1810-1887 | A certificate or chain that was not given is absent, if the drawn id owns no leftover blob. |
| KeyLifecycle.StoreSparesOthers | keystore2/src/database.rs:1810-1887 | Storing a key leaves the whole view of every other key unchanged. |
| KeyLifecycle.InsertedComponents | keystore2/src/database.rs:1810-1887 | The blob stored last is the one loaded, even if a superseded one is stored with it; what is not given stays as it was, and so do other keys' components. |
| KeyLifecycle.DecrementedLimit | keystore2/src/database.rs:2178-2212 | The update lowers a positive usage limit by one. |
| KeyLifecycle.ApplyEvolvesParams | keystore2/src/database.rs:2178-2212 | Parameters of a key change only by a successful use, and vanish only with the key; a use removes them if and only if it is the last one, and otherwise leaves all entries. |
| KeyLifecycle.UsesLeft | keystore2/src/database.rs:2178-2212 | While the key is there, its limit is the stored limit minus the successful uses so far, which stay below it. |
| KeyLifecycle.GoneOnlyByLastUse | keystore2/src/database.rs:2178-2212 | The key goes only with its last use or by another transaction; while it is there every try to use it has succeeded. |
| KeyLifecycle.LimitedUse | keystore2/src/database.rs:2178-2212 | A key stored with limit N allows at most N successful uses in any interleaving, and exactly N if nothing else removes it: as many tries succeed as are made, up to N. An update succeeds exactly while the parameters are there; after the Nth the entry, parameters, metadata and grants are gone and updates fail with INVALID_KEY_BLOB. |
| KeyLifecycle.UpdateSucceedsExactly | keystore2/src/database.rs:2178-2212 | An update fails exactly if the key has no limit left. |
| KeystoreDb.KeystoreDB.SetBlobInternal | keystore2/src/database.rs:1602-1642 | The method inserts or drops blobs as the transaction says. |
| KeystoreDb.KeystoreDB.RebindAlias | keystore2/src/database.rs:1692-1738 | The two updates amount to the rebinding function; it reports whether a row was replaced. |
| KeystoreDb.KeystoreDB.CreateKeyEntryInternal | keystore2/src/database.rs:1526-1565 | A new entry is Existing and has no alias; other domains are refused. |
| KeystoreDb.KeystoreDB.InsertKeyParameters | keystore2/src/database.rs:1654-1678 | The loop appends all parameters in order. |
| KeystoreDb.KeystoreDB.StoreNewKey | keystore2/src/database.rs:1810-1887 | The body has exactly the outcome of the transaction function, including whether the collector is to be told. |
| KeystoreDb.KeystoreDB.DeleteBlobs | keystore2/src/database.rs:1154-1236 | The loop deletes the blobs handled before, with their metadata. |
| KeystoreDb.KeystoreDB.SelectSuperseded | keystore2/src/database.rs:1154-1236 | The query returns garbage key blobs only, each once, and all of them if they are fewer than the batch size of 20. |
| KeystoreDb.KeystoreDB.HandleNextSupersededBlobs | keystore2/src/database.rs:1154-1236 | The whole transaction equals its function: delete, clean up, select; other garbage is dropped only if no key blobs are left. |
| KeystoreDb.KeystoreDB.MarkUnreferenced | keystore2/src/database.rs:2333-2344 | The entry, its parameters, metadata and grants are deleted; it reports whether there was an entry. |
| KeystoreDb.KeystoreDB.UnbindKeysForUser | keystore2/src/database.rs:2475-2545 | The loop deletes exactly the keys of the user, sparing those not super-encrypted if asked. |
| KeystoreDb.KeystoreDB.UnbindKeysForNamespace | keystore2/src/database.rs:2385-2428 | All keys of the namespace are deleted with everything that refers to them. |
| KeystoreDb.KeystoreDB.CheckAndUpdateKeyUsageCount | keystore2/src/database.rs:2178-2212 | The body has the outcome of the transaction function on all three paths. |
| KeystoreDb.KeystoreDB.LoadBlobComponents | keystore2/src/database.rs:2091-2146 | The loop over the rows finds the newest blob of each kind. |
| KeystoreDb.KeystoreDB.MigrateKeyNamespace | keystore2/src/database.rs:1742-1802 | The body has the outcome of the transaction function, including both rejections. |
| KeystoreDb.KeystoreDB.ListPastAlias | keystore2/src/database.rs:2581-2635 | The aliases of Live keys past a start, sorted and without duplicates. |
| KeystoreDb.KeystoreDB.CountKeys | keystore2/src/database.rs:2637-2666 | The number of Live keys of a namespace that have an alias. |
| KeystoreDb.TwoUpdatesRebind | keystore2/src/database.rs:1692-1738 | Retiring the old rows and then binding the new one equals rebinding in one go. |
| KeystoreDb.CountIsListLength | keystore2/src/database.rs:2581-2666 | For Client keys the count equals the length of the list with no start, as aliases are unique. |
| KeystoreDb.CountIsListLengthInRuns | keystore2/src/database.rs:2581-2666 | Count and list agree on the tables of every state of every run. |
| KeystoreDb.CountAndList | keystore2/src/database.rs:2581-2666 | Counting and listing Client keys give the same number. |
| GarbageCollection.CollectIsInvisible | keystore2/src/database.rs:1154-1236 | A collection transaction that deletes listed garbage leaves the whole view (row, components, metadata, parameters, grants) of every Existing or Live key unchanged. |
| GarbageCollection.GarbageStays | keystore2/src/database.rs:1602-1642 | A garbage key blob stays garbage, and stays there, while others commit. |
| GarbageCollection.CommitKeepsLists | keystore2/src/gc.rs:102-132 | The collector's lists keep naming garbage key blobs only, whatever others commit. |
| GarbageCollection.ProcessKeepsLists | keystore2/src/gc.rs:102-132 | So does each step of the collector itself. |
| GarbageCollection.ProcessKeepsInv | keystore2/src/gc.rs:102-132 | Each step keeps the table invariants. |
| GarbageCollection.ProcessFinishes | keystore2/src/gc.rs:102-132 | A step that leaves the lists empty leaves no garbage and no Unreferenced entry. |
| GarbageCollection.PurgedIsClean | keystore2/src/database.rs:1154-1236 | A collection that finds no more key blobs leaves the tables clean. |
| GarbageCollection.SweptGarbage | keystore2/src/database.rs:2430-2469 | What deleting the handled blobs and the Unreferenced entries does to the set of garbage key blobs. |
| GarbageCollection.StepDrains | keystore2/src/gc.rs:102-132 | Each step takes exactly one garbage key blob off what remains, until none is left. |
| GarbageCollection.DrainFrom | keystore2/src/gc.rs:102-153 | Any sequence of collector steps, each but the first scheduled by the one before, is at most one step longer than key blobs remained, and has ended exactly when it is that long; it takes remaining blobs only, none twice, and all of them if it has ended. |
| GarbageCollection.DrainsInOneStepMore | keystore2/src/gc.rs:102-153 | From empty lists, without new commits, n garbage key blobs are drained in exactly n + 1 steps: the collector cannot go on longer nor stop sooner, and then each was taken exactly once and the tables are clean. |
| GarbageCollection.BatchExists | keystore2/src/database.rs:1154-1236 | The query for superseded blobs has a result for all tables, so a step is never stuck. |
| GarbageCollection.DrainGoesOn | keystore2/src/gc.rs:136-153 | A sequence of steps that has not ended can be continued. |
| GarbageCollection.DrainEnds | keystore2/src/gc.rs:136-153 | Every sequence of collector steps can be continued to one that has ended. |
| GarbageCollection.StepAttempts | keystore2/src/gc.rs:102-132 | A step attempts to invalidate the blob it takes, as stored, exactly if its metadata names a KeyMint instance, and nothing otherwise. |
| GarbageCollection.DrainAttempts | keystore2/src/gc.rs:102-132 | The same for every step of a drain, in terms of the tables it started from. |
| GcObject.GcInternal.ProcessOneKey | keystore2/src/gc.rs:102-132 | The method changes tables and lists as the step function says, and attempts the blob it says. |
| GcProtocol.CleanUnlessNotified | keystore2/src/database.rs:1462-1495 | A transaction that does not ask for collection leaves clean tables clean. |
| GcProtocol.NextKeepsGood | keystore2/src/gc.rs:78-153 | Each step of commits, notifications and the collector keeps the protocol's invariant. |
| GcProtocol.StartIsGood | keystore2/src/database.rs:1246-1258 | The service may start from any tables that an earlier one left: after marking half-created entries and before notifying the collector, the protocol's invariant holds. |
| GcProtocol.FreshStartIsGood | keystore2/src/database.rs:898-1006 | It also holds for empty tables with nothing to do. |
| GcProtocol.NeverStuck | keystore2/src/gc.rs:78-153 | While a notification is owed, or a step is announced or running, notifiers or collector can take a step. |
| GcProtocol.AlwaysGood | keystore2/src/gc.rs:78-153 | In every execution `notified` is the number of announced but not begun steps, and garbage is there only if someone will still see to it. |
| GcProtocol.QuiescentIsClean | keystore2/src/gc.rs:78-153 | No wake-up is lost: when nobody is about to notify and no step is queued or running, no garbage blob and no Unreferenced entry is left. |
| GcProtocol.CollectorIsInvisible | keystore2/src/gc.rs:102-132 | In every execution each collector step leaves the view of every Existing or Live key unchanged. |
| KeyLock.KeyIdLockDb.TryGet | keystore2/src/database.rs:539-549 | Takes the lock exactly if it is free. |
| KeyLock.KeyIdLockDb.DropGuard | keystore2/src/database.rs:555-563 | Frees exactly that id. |
| KeyLock.NextKeepsGood | keystore2/src/database.rs:2250-2331 | Each step of loading, waiting, rebinding and dropping keeps the lock invariant. |
| KeyLock.AlwaysGood | keystore2/src/database.rs:518-563 | In every interleaving the locked ids are exactly those of the guards. |
| KeyLock.MutualExclusion | keystore2/src/database.rs:518-563 | Never two guards for one key id. |
| KeyLock.LoadedIsChecked | keystore2/src/database.rs:2250-2331 | A successful load returns the guard's key; it was Live in the transaction it was read from, and permission was checked for an access tuple of that id, even if the alias was rebound meanwhile. |
| AsyncTasks.AsyncTask.Queue | keystore2/src/async_task.rs:167-185 | The job goes to the back of its queue; a worker is spawned exactly if none is running. |
| AsyncTasks.AsyncTask.NextAction | keystore2/src/async_task.rs:206-239 | High before low before idle before exit, as the decision function says. |
| AsyncTasks.PerformAction | keystore2/src/async_task.rs:241-253 | Running a job or all idle functions transforms the shelf as their composition. |
| AsyncTasks.AlwaysGood | keystore2/src/async_task.rs:167-257 | The invariant of threads, queues, runs, shelf and idle batches holds in every interleaving. |
| AsyncTasks.OneWorker | keystore2/src/async_task.rs:187-257 | At most one worker is between spawn and exit: while one is active, all others have ended. |
| AsyncTasks.EveryJobRunsOnce | keystore2/src/async_task.rs:167-257 | The jobs queued at each priority are those started, in order, followed by those still queued: none is lost, repeated or reordered, and once the state is Exiting all of them have run and both queues are empty. |
| AsyncTasks.JoinCannotDeadlock | keystore2/src/async_task.rs:187-204 | A worker that is joined under the lock has nothing left to do that needs the lock. |
| AsyncTasks.JobBetweenIdleBatches | keystore2/src/async_task.rs:206-239 | Between two idle batches a job ran. |
| AsyncTasks.LeavesAfterIdle | keystore2/src/async_task.rs:206-253 | A worker exits only after an idle batch that follows its last job. |
| AsyncTasks.Refines | keystore2/src/async_task.rs:167-257 | Each step is a step of a serial scheduler with two queues, or changes nothing in it. |
| AsyncTasks.ExecutionRefines | keystore2/src/async_task.rs:167-257 | Each execution refines a run of that scheduler; a low job is taken only if no high one waits, and each job sees the shelf its predecessor left. |
| AsyncTasks.AlwaysSafe | keystore2/src/gc.rs:55-82 | If the initialiser is queued first with high priority, and no job takes its value away, then whoever needs it comes after it. |
| AsyncTasks.LookupFinds | keystore2/legacykeystore/lib.rs:400-420 | Then a job that looks the value up on the shelf finds it, across worker restarts. |
| AuthTokens.AuthRequest.GetAuthTokens | keystore2/src/enforcements.rs:93-117 | The token is handed out at most once, also if the timestamp fails. |
| AuthTokens.AuthRequest.AddAuthToken | keystore2/src/enforcements.rs:89-91 | The token is kept for the request's operation. |
| AuthTokens.TokenReceiverMap.AddReceiver | keystore2/src/enforcements.rs:197-212 | Registers the receiver; the sweep removes obsolete receivers only. |
| AuthTokens.TokenReceiverMap.TakeReceiver | keystore2/src/enforcements.rs:183-193 | The receiver of a challenge is taken out with its token. |
| AuthTokens.NextKeepsReceivers | keystore2/src/enforcements.rs:176-224 | Every receiver belongs to the request of the operation with that challenge. |
| AuthTokens.AlwaysGood | keystore2/src/enforcements.rs:176-365 | The invariant of receivers, requests and operations holds in every execution. |
| AuthTokens.TokenMatchesOperation | keystore2/src/enforcements.rs:338-365 | An operation created with per-operation authorization only ever succeeds with a token that carries its own challenge. |
| AuthTokens.PerOpStays | keystore2/src/enforcements.rs:247-277 | An operation created with per-operation authorization demands it as long as it lives. |
| AuthTokens.AtMostOneToken | keystore2/src/enforcements.rs:176-224 | Each request receives at most one token. |
| AuthTokens.TokensAreStable | keystore2/src/enforcements.rs:338-365 | Once an operation has its tokens, it keeps them. |
| AuthTokens.SweepSparesLiveRequests | keystore2/src/enforcements.rs:197-212 | Registering loses no other receiver whose request is alive, and the counter stays in 1..26. |
| AuthorizeCreate.CheckPurpose | keystore2/src/enforcements.rs:428-467 | The purpose gate, as a statement about which algorithms are present. |
| AuthorizeCreate.CollectFacts | keystore2/src/enforcements.rs:472-558 | The single pass finds the first time restriction violated, or else the declarative facts: what is present, and the last value of what is overwritten. |
| AuthorizeCreate.FindToken | keystore2/src/database.rs:2801-2807 | The newest matching token, and none exactly if none matches. |
| AuthorizeCreate.FindTokenFor | keystore2/src/enforcements.rs:617-667 | The search and the age check give the result that depends only on the facts. |
| AuthorizeCreate.AuthorizeCreate | keystore2/src/enforcements.rs:407-691 | The whole procedure equals the declarative decision. |
| AuthorizeCreate.OrderDoesNotMatter | keystore2/src/enforcements.rs:487-691 | If the occurrences of AUTH_TIMEOUT agree, and so do those of authenticator type, USER_ID and MAX_BOOT_LEVEL, permuting the parameters changes nothing, except which of two violated time restrictions is reported. |
| AuthorizeCreate.OrderMattersWithTwoLevels | keystore2/src/enforcements.rs:548-550 | With two boot levels the order does matter. |
| AuthorizeCreate.OrderMattersWithTwoTimeouts | keystore2/src/enforcements.rs:492-494 | With two different timeouts the order matters: the last one counts. |
| AuthorizeCreate.OrderMattersWithTwoTypes | keystore2/src/enforcements.rs:495-497 | So it does with two authenticator types. |
| AuthorizeCreate.OrderMattersWithTwoUsers | keystore2/src/enforcements.rs:530-532 | And with two user ids. |
| AuthorizeCreate.ChecksPassExactly | keystore2/src/enforcements.rs:428-604 | All checks before the search for a token pass if and only if each parameter allows the operation: algorithm, purpose, validity periods, secure ids and authenticator type together or not at all, no secure id with NO_AUTH_REQUIRED, nonce, locked device, boot level. |
| AuthorizeCreate.AcceptedIsAllowed | keystore2/src/enforcements.rs:428-615 | An accepted operation is allowed by every parameter; with NO_AUTH_REQUIRED and no UNLOCKED_DEVICE_REQUIRED it is accepted exactly then. Usage limit and confirmation are reported exactly if the key demands them. |
| AuthorizeCreate.AcceptedExactly | keystore2/src/enforcements.rs:407-691 | An operation is accepted if and only if every parameter allows it and, unless it needs no authentication, the tokens serve it: with secure ids and a timeout some matching token is fresh or stayed on the body, with UNLOCKED_DEVICE_REQUIRED some token is there, and the age of none overflows. |
| AuthorizeCreate.UsableExactly | keystore2/src/enforcements.rs:625-667 | As the newest match is tried, it is usable exactly if any match is fresh and none lies so far in the future that its age overflows. |
| AuthorizeCreate.LogicalErrorExactly | keystore2/src/enforcements.rs:663-665 | The panic is reached if and only if there is a timeout but no secure id, NO_AUTH_REQUIRED or UNLOCKED_DEVICE_REQUIRED, and nothing else forbids the operation. |
| AuthorizeCreate.SecureIdsAreEnforced | keystore2/src/enforcements.rs:617-691 | A key with secure ids and no timeout is accepted only with per-operation authorization; with a timeout only with a token of one of its ids that is fresh or stayed on the body. |
| AuthorizeCreate.SecureIdsReachTheToken | keystore2/src/enforcements.rs:338-691 | For a key with secure ids and no timeout, every later use of an accepted operation that is let through comes with a token that carries that operation's challenge. |
| BootLevelKeys.BootLevelKeyCache.GetHkdfKey | keystore2/src/boot_level_keys.rs:216-236 | The loop grows the cache as its function says, also if a derivation fails half way. |
| BootLevelKeys.BootLevelKeyCache.AdvanceBootLevel | keystore2/src/boot_level_keys.rs:240-264 | Drops the keys before the level, or does nothing. |
| BootLevelKeys.BootLevelKeyCache.AesKey | keystore2/src/boot_level_keys.rs:272-289 | Derives the AES key from the level's key. |
| BootLevelKeys.GetReturnsLevelKey | keystore2/src/boot_level_keys.rs:216-236 | The key returned is the level zero key advanced that many times; none is returned exactly if the level is inaccessible, and an error comes exactly from a failed derivation. |
| BootLevelKeys.AdvanceIsExact | keystore2/src/boot_level_keys.rs:240-264 | A successful advance makes exactly the levels from the new one on accessible; a failed one changes none. |
| BootLevelKeys.RunKeepsGood | keystore2/src/boot_level_keys.rs:184-290 | In every run cache entry i is the key of level current + i. |
| BootLevelKeys.InaccessibleForGood | keystore2/src/boot_level_keys.rs:206-270 | A level that has become inaccessible stays so, and `current` never decreases. |
| BootLevelKeys.AesKeyDependsOnLevelOnly | keystore2/src/boot_level_keys.rs:272-289 | At any point of any run the AES key of a level depends only on the level and the initial key, and is withheld exactly if the level is inaccessible. |
| BootLevelKeys.CurrentIsHighest | keystore2/src/boot_level_keys.rs:240-264 | Without failures `current` is the highest level advanced to. |
| Confirmation.BackOffGrows | keystore2/src/apc.rs:142-163 | The back-off never decreases with the counter and is at most 24 hours. |
| Confirmation.ApcState.PresentPrompt | keystore2/src/apc.rs:270-327 | Refused for a pending session, for back-off or without user interface, in that order and with no effect; otherwise a session is there exactly if the user interface accepted. |
| Confirmation.ApcState.Result | keystore2/src/apc.rs:217-268 | Ends the session and resets or raises the client's counter as its function says. |
| Confirmation.ApcState.CancelPrompt | keystore2/src/apc.rs:329-349 | Only the session's own listener can abort it. |
| Confirmation.ConfuiSession.PromptUserConfirmation | keystore2/apc_compat/apc_compat.cpp:93-125 | The callback is stored exactly if the prompt was accepted. |
| Confirmation.ConfuiSession.Finalize | keystore2/apc_compat/apc_compat.cpp:129-149 | The callback is taken out, so it can be called only once. |
| Confirmation.NextKeepsCallbacks | keystore2/src/apc.rs:270-327 | A session is there, or being set up, exactly if one callback is outstanding, and it is its own. |
| Confirmation.AlwaysGood | keystore2/src/apc.rs:217-349 | The invariant of callbacks, log, counters and spacing holds in every execution. |
| Confirmation.CallbackEndsItsOwnSession | keystore2/src/apc.rs:217-229 | A callback ends the session of its own prompt, although it does not name it; sessions never overlap. |
| Confirmation.CompletedAtMostOnce | keystore2/src/apc.rs:217-268 | No prompt is reported as completed twice. |
| Confirmation.SessionCanEnd | keystore2/apc_compat/apc_compat.cpp:217-284 | While a session is there its callback is stored or on its way. |
| Confirmation.TurnedAwayExactly | keystore2/src/apc.rs:283-295 | A client is turned away for its history exactly if it has three or more penalties since its last confirmation and not more than the back-off has passed since the last penalised prompt. |
| Confirmation.CompletionsAreSpaced | keystore2/src/apc.rs:142-163 | Every completed prompt started strictly later than the back-off due at its time. |
| Confirmation.CounterNeedsDays | keystore2/src/apc.rs:245-250 | Past seventeen the counter gains at most one a day, so it does not wrap around. |
| Confirmation.TokensAreThoseConfirmed | keystore2/src/apc.rs:236-243 | The tokens passed on are those of the confirmed sessions, in order. |
| LegacyKeystore.LegacyKeystoreService.GetEntry | keystore2/legacykeystore/lib.rs:316-332 | Reads the database, or imports the legacy file and reads again; a miss never returns once the worker is gone. |
| LegacyKeystore.LegacyKeystoreService.GetLegacy | keystore2/legacykeystore/lib.rs:432-448 | Imports at most once, and remembers it. |
| LegacyKeystore.LegacyKeystoreService.PutEntry | keystore2/legacykeystore/lib.rs:334-341 | Writes the database and removes a stale legacy file; once the worker is gone it writes, and never returns. |
| LegacyKeystore.LegacyKeystoreService.RemoveEntry | keystore2/legacykeystore/lib.rs:343-357 | Removes the legacy file, or else the row; never returns once the worker is gone. |
| LegacyKeystore.LegacyKeystoreService.ListEntries | keystore2/legacykeystore/lib.rs:389-398 | Append, retain, sort and dedup yield the sorted list of the aliases found; too short a name is an error, and the end of the worker. |
| LegacyKeystore.LegacyKeystoreService.ListLegacy | keystore2/src/legacy_blob.rs:850-879 | The directory scan decodes the rest of every name that begins with the uid's digits and does not look like a key's. It fails exactly if a name is too short or cannot be decoded, and too short a name is the end of the worker. |
| LegacyKeystore.LegacyKeystoreService.ListLegacyForUser | keystore2/src/legacy_blob.rs:892-911 | Listing a user directory yields the entries that its names stand for. |
| LegacyKeystore.LegacyKeystoreService.DeleteNamespace | keystore2/legacykeystore/lib.rs:359-379 | Deletes files and rows of the uid, or only rows if the scan fails; namespaces without a uid are left alone; never returns once the worker is gone. |
| LegacyKeystore.LegacyKeystoreService.DeleteUserEntries | keystore2/legacykeystore/lib.rs:381-387 | Deletes the files that the user's directory lists, and the rows of all uids of the user; never returns once the worker is gone. |
| LegacyKeystore.NextKeepsInv | keystore2/legacykeystore/lib.rs:316-524 | Database and files stay disjoint, and what was imported has no file; no call creates a file. |
| LegacyKeystore.GetMeans | keystore2/legacykeystore/lib.rs:316-332 | Reading never changes the one map, and answers from it. |
| LegacyKeystore.RemoveMeans | keystore2/legacykeystore/lib.rs:343-357 | Removing removes the entry from the one map, and succeeds exactly if it was there. |
| LegacyKeystore.UserScanIsExact | keystore2/src/legacy_blob.rs:892-911 | That listing finds exactly the entries of the user's uids. |
| LegacyKeystore.DeleteUidMeans | keystore2/legacykeystore/lib.rs:359-379 | Deleting a uid deletes exactly its entries, even though the scan may list more, if and only if the directory can be scanned or the uid has no files. |
| LegacyKeystore.ShortNameKeepsFiles | keystore2/src/legacy_blob.rs:866-870 | The condition can fail: beside a file of uid 0 with a two letter alias, files of uid 1000 outlive its deletion. |
| LegacyKeystore.ScanFinds | keystore2/src/legacy_blob.rs:850-879 | The scan lists exactly the uid's own aliases and, cut in the wrong place, those of uids whose digits begin with its own. |
| LegacyKeystore.ReadableExactly | keystore2/src/legacy_blob.rs:866-877 | If what is long enough can be decoded, only a name that is too short keeps a directory from being scanned. |
| LegacyKeystore.DirectoryDecodes | keystore2/src/legacy_blob.rs:866-877 | It can, in every directory whose names the store made. |
| LegacyKeystore.ListIsExact | keystore2/legacykeystore/lib.rs:389-398 | The list is the sorted, duplicate-free set of matching aliases if and only if the directory can be scanned and no lookalike's file is read as a matching alias that the uid does not have. |
| LegacyKeystore.SystemListsAnAppsFile | keystore2/src/legacy_blob.rs:866-877 | The condition can fail: a file of uid 10005 spoils the list of uid 1000. |
| LegacyKeystore.CallRefines | keystore2/legacykeystore/lib.rs:316-398 | While there is a worker, a call does to the one map what it means, and answers accordingly, if and only if: a list meets a directory that can be scanned and no lookalike's file read as a matching alias; a deletion meets one that can be scanned, or no files of the uid. All other calls do so always. |
| LegacyKeystore.WithoutWorker | keystore2/legacykeystore/lib.rs:316-398 | A call that does not need the worker changes nothing and answers from the one map in any state. |
| LegacyKeystore.RunKeepsInv | keystore2/legacykeystore/lib.rs:410-524 | In every run the worker is gone exactly if an earlier list or delete scanned too short a name; until then the tiers stay disjoint; files never appear. |
| LegacyKeystore.RunRefines | keystore2/legacykeystore/lib.rs:316-420 | In every run from disjoint tiers a call is answered if and only if it does not need the worker or no earlier scan met too short a name. An answered call acts on the one map and answers as it means to under exactly the condition for a single call. One that is never answered leaves the map alone, except that a put has put its entry. |
| LegacyKeystore.SafeRunRefines | keystore2/legacykeystore/lib.rs:316-420 | If the files at the start contain no name too short for a scanned uid and none of a lookalike of a listed one, all calls of the run are answered, and as they mean to. |
| LegacyKeystore.PutsHangAfterShortName | keystore2/src/legacy_blob.rs:869 | The exception occurs: beside a file of uid 0 with a two letter alias, deleting the namespace of uid 1000 is answered, and no put after it is. |
| LegacyNames.DecodeAlias | keystore2/src/legacy_blob.rs:336-361 | The loop computes the decoding, and fails exactly on names that are no encoding, or of bytes that are no UTF-8 (section 4 of RFC 3629). |
| LegacyNames.DecodeReverses | keystore2/src/legacy_blob.rs:316-361 | Decoding reverses the encoding of every alias, and refuses only bytes that are no text. |
| LegacyNames.EncodedKeystoreAlias | keystore2/src/legacy_blob.rs:747-754 | Checking for a key's prefix before or after encoding makes no difference. |
| LegacyNames.ParseReverses | keystore2/src/legacy_blob.rs:899-931 | The name of an entry is parsed back to its uid and alias, unless it is that of a key. |
| Alphabetical.Dedup | keystore2/legacykeystore/lib.rs:395-396 | Dropping repetitions from an ordered list leaves the sorted list of its elements. |
| CredentialObject.CredentialData.FindAuthKey | identity/CredentialData.cpp:519-553 | The scan with its moving candidate finds the first of the least used eligible keys, unless it is exhausted. |
| CredentialObject.CredentialData.SelectAuthKey | identity/CredentialData.cpp:555-579 | Tries unexpired keys first, and counts the use. |
| AuthKeys.Candidate | identity/CredentialData.cpp:530-542 | None exactly if no key is eligible; otherwise least used, and first among those. |
| AuthKeys.SelectionTakesOneUse | identity/CredentialData.cpp:555-579 | A selection that may not exhaust keys succeeds exactly if a use is left on an eligible key, and takes one. |
| AuthKeys.ExactlySoManySucceed | identity/CredentialData.cpp:519-579 | In a run of such selections exactly the sum of max(0, maxUsesPerKey - useCount) over the eligible keys succeed. |
| AuthKeys.LimitIsKept | identity/CredentialData.cpp:544-550 | No key is used beyond the limit by selections that may not exhaust keys, and no use count shrinks. |
| AuthKeys.UsesStayBalanced | identity/CredentialData.cpp:530-542 | Unexpired keys that start equally used never differ by more than one use, whatever the selections allow. |
| AuthKeys.ExpiredOnlyIfNeeded | identity/CredentialData.cpp:560-573 | An expired key is chosen only if no unexpired key qualifies. |
| CredentialObject.CredentialData.SaveToDisk | identity/CredentialData.cpp:78-141 | The loops build the item that the save function gives. |
| CredentialObject.CredentialData.LoadFromDisk | identity/CredentialData.cpp:248-431 | Fields and status after loading any item, or none, including partial loads, failures and the null dereference. |
| CredentialObject.ParseAccessControlProfileIds | identity/CredentialData.cpp:210-227 | Anything but an array of numbers yields no ids. |
| CredentialObject.ParseEncryptedChunks | identity/CredentialData.cpp:229-246 | All chunks, or a failure if one is not a byte string. |
| CredentialCbor.ProfilesReturn | identity/CredentialData.cpp:143-172 | Profiles survive the round trip in order. |
| CredentialCbor.EntryMapReturns | identity/CredentialData.cpp:101-117 | The entry map survives the round trip. |
| CredentialCbor.AuthKeysReturn | identity/CredentialData.cpp:174-208 | Authentication keys survive the round trip in order. |
| CredentialCbor.RoundTrip | identity/CredentialData.cpp:78-431 | Whatever was loaded before, loading a saved credential restores every field; it is accepted if and only if credential data and attestation certificate are not empty and the key count is the number of keys. |
| CredentialCbor.OlderAuthKeysNeverExpire | identity/CredentialData.cpp:192-198 | Six-field records load with expiration INT64_MAX. |
| Odsign.VerifyAllFilesUsingCompOs | ondevice-signing/VerityUtils.cpp:234-285 | Succeeds if and only if the walk completes, meets only directories and matching readable files, and the regular files are exactly the expected ones; the proof is that counting them suffices. |
| Odsign.AllMatched | ondevice-signing/VerityUtils.cpp:278-282 | As many matches as expected files are all of them. |
| Odsign.VerifyAllFilesInVerity | ondevice-signing/VerityUtils.cpp:206-232 | Succeeds exactly if all regular files are in fs-verity and nothing unusual is there, with all their digests. |
| Odsign.AddFilesToVerityRecursive | ondevice-signing/VerityUtils.cpp:177-204 | Puts all regular files into fs-verity, changes nothing else, and returns all digests. |
| Odsign.ComputeDigests | ondevice-signing/odsign_main.cpp:180-203 | Returns the digests of all regular files. |
| Odsign.VerifyDigests | ondevice-signing/odsign_main.cpp:205-223 | Every digest is among the trusted ones. |
| Odsign.VerifyArtifactsIntegrity | ondevice-signing/odsign_main.cpp:225-243 | Succeeds exactly if every regular file has its trusted digest and, with fs-verity, is in it. |
| Odsign.Boot.CheckCompOsPendingArtifacts | ondevice-signing/odsign_main.cpp:370-468 | When the pending artifacts replace the current ones, and that they count as verified exactly if CompOS vouches for all of them. |
| Odsign.Boot.VerifySwitched | ondevice-signing/odsign_main.cpp:415-467 | What becomes of artifacts that have just been switched to. |
| Odsign.Boot.VerifyExisting | ondevice-signing/odsign_main.cpp:539-581 | Unverified artifacts are removed, or the boot does not go on. |
| Odsign.Boot.SignArtifacts | ondevice-signing/odsign_main.cpp:601-621 | After a compilation the digests of all files are stored. |
| Odsign.Boot.CompileAndSign | ondevice-signing/odsign_main.cpp:583-632 | Compiling on top of checked files keeps every file accounted for. |
| Odsign.Boot.Run | ondevice-signing/odsign_main.cpp:471-653 | Success implies that every regular file matches a signed digest, or that of CompOS artifacts adopted in this boot, or was written by a compilation this boot asked for, provided checking does not compile; if it does, whatever is there is signed unseen. Intact artifacts are accepted unchanged, tampered ones removed. What success leaves behind passes the next boot's verification if and only if: CompOS artifacts left unsigned by a compilation that did not happen are covered by the old digests, and no regular file is left if the signature written last was lost. |
| Odsign.BootThatLeavesUnsigned | ondevice-signing/odsign_main.cpp:431-436 | That exception occurs: a boot that succeeds with CompOS artifacts which the next one rejects. |
| Odsign.BootThatSignsUnseen | ondevice-signing/odsign_main.cpp:592-621 | So does the other: if asking for a check compiles, a file that nothing vouches for is signed. |
| Odsign.SignedIsVerifiable | ondevice-signing/odsign_main.cpp:601-621 | What was compiled on top of checked files and signed can be verified at the next boot. |

## Left out

- Binder, AIDL and HIDL plumbing, permission policies, logging, statistics and watchdogs: they only forward calls; a permission check is an argument or a predicate here.
- Cryptographic primitives: key derivation, digests and signatures are uninterpreted.
- SQL text, busy retries and journal modes, and the schema upgrade of `from_0_to_1`; a read under a key guard is not claimed to see the newest commit.
- Failure of the callback that creates a key in `get_or_create_key_with`; super keys are otherwise modelled as rows.
- 64-bit overflow of blob row ids.
- Panicking jobs of AsyncTask, and the condition variable's timeout as a real clock: a timeout may happen at any time.
- `super_encryption_required` in enforcements.rs, and the locking of devices: they would add easy members.
- Concurrent interleavings of legacy keystore calls, and failing file or database operations there; hidden files in the user directories.
- The byte encoding of CBOR items, which belongs to a library; entry sizes from 2^63 on, which depend on that library's conversions.
- CredentialCbor.RoundTrip: requires numbers to be within the widths of the original's fields.
- AuthKeys.UsesStayBalanced: use counts are unbounded integers; 32-bit overflow after two thousand million uses of an exhausted key is not modelled.
- Certification of new authentication keys (`getAuthKeysNeedingCertification`, `storeStaticAuthenticationData`) and the HAL call sequences of Credential.cpp and WritableCredential.cpp: easy members.
- Odsign.Boot.Run: links inside the artifacts directory count as what they lead to; a link whose target changes is not modelled.
- The order in which odsign publishes its system properties, and its certificate handling beyond success or failure.
- id_rotation.rs, entropy.rs, error.rs, metrics and storage statistics: short arithmetic or mappings.
