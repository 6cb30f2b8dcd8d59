/**
  What each transaction of the key database does to the tables, as functions of the tables before.
  A transaction that fails is rolled back, so its outcome carries the tables it started from.
  Randomly drawn ids are arguments; `Legal` says which draws the uniqueness constraints let through.
 */
module Transactions {
  import opened Prelude
  import opened Tables

  // ---------------------------------------------------------------------------------------------
  // Table edits shared by the transactions

  function AddKey(t: Tables, id: int, row: KeyRow): Tables {
    t.(keys := t.keys[id := row])
  }

  function AddBlob(t: Tables, keyId: int, sub: SubComponent, blob: Bytes, meta: Option<Meta>): Tables {
    var b := NextBlobId(t.blobs);
    t.(blobs := t.blobs[b := BlobRow(sub, keyId, blob)],
       blobMeta := if meta.Some? then t.blobMeta[b := MetaOf(t.blobMeta, b) + meta.value] else t.blobMeta)
  }

  function AddBlobIfAny(t: Tables, keyId: int, sub: SubComponent, blob: Option<Bytes>): Tables {
    if blob.Some? then AddBlob(t, keyId, sub, blob.value, None) else t
  }

  /** Remove blob rows only. */
  function DropBlobs(t: Tables, ids: set<int>): Tables {
    t.(blobs := t.blobs - ids)
  }

  /** Remove blob rows together with their metadata. */
  function PurgeBlobs(t: Tables, ids: set<int>): Tables {
    t.(blobs := t.blobs - ids, blobMeta := t.blobMeta - ids)
  }

  /** Remove key entries and all rows that refer to them, except their blobs. */
  function DeleteKeys(t: Tables, ids: set<int>): Tables {
    t.(keys := t.keys - ids,
       params := t.params - ids,
       keyMeta := t.keyMeta - ids,
       grants := map g | g in t.grants && t.grants[g].keyId !in ids :: t.grants[g])
  }

  function UnreferencedKeys(t: Tables): set<int> {
    set k | k in t.keys && t.keys[k].state == Unreferenced
  }

  function CleanupUnreferenced(t: Tables): Tables {
    DeleteKeys(t, UnreferencedKeys(t))
  }

  predicate Bindable(d: Domain) {
    d == App || d == SeLinux
  }

  function Retired(row: KeyRow): KeyRow {
    row.(alias := None, domain := None, nspace := None, state := Unreferenced)
  }

  /** `rebind_alias`, for a new entry that does not hold the alias yet. */
  function Rebind(t: Tables, newId: int, alias: string, domain: Domain, nspace: int, kt: KeyType): Tables {
    t.(keys := map k | k in t.keys ::
         if k == newId then t.keys[k].(alias := Some(alias), state := Live)
         else if k in RowsAt(t, kt, domain, nspace, alias) then Retired(t.keys[k])
         else t.keys[k])
  }

  predicate Rebindable(t: Tables, newId: int, alias: string, domain: Domain, nspace: int, kt: KeyType) {
    && newId in t.keys
    && t.keys[newId].domain == Some(domain) && t.keys[newId].nspace == Some(nspace)
    && t.keys[newId].state == Existing && t.keys[newId].keyType == kt
    && t.keys[newId].alias != Some(alias)
  }

  function Decremented(ps: seq<Param>): (r: seq<Param>)
    ensures |r| == |ps|
  {
    seq(|ps|, i requires 0 <= i < |ps| =>
      if ps[i].tag == USAGE_COUNT_LIMIT && ps[i].data > 0 then ps[i].(data := ps[i].data - 1) else ps[i])
  }

  /** SQL integer division truncates toward zero. */
  function SqlDiv(a: int, b: int): int
    requires b > 0
  {
    if a >= 0 then a / b else -(-a / b)
  }

  predicate BelongsToUser(row: KeyRow, user: int) {
    && row.state == Live
    && row.nspace.Some?
    && if row.keyType == Client
       then row.domain == Some(App) && SqlDiv(row.nspace.value, AID_USER_OFFSET) == user
       else row.nspace.value == user
  }

  /** A key blob that is present but not super encrypted spares its key. */
  predicate NotSuperEncrypted(t: Tables, k: int) {
    var c := LoadComponent(t, k, KeyBlob);
    c.Some? && TAG_ENCRYPTED_BY !in c.value.meta
  }

  function CandidatesOfUser(t: Tables, user: int): set<int> {
    set k | k in t.keys && BelongsToUser(t.keys[k], user)
  }

  function KeysOfUser(t: Tables, user: int, keepNonSuperEncrypted: bool): set<int> {
    set k | k in CandidatesOfUser(t, user) && !(keepNonSuperEncrypted && NotSuperEncrypted(t, k))
  }

  function KeysOfNamespace(t: Tables, domain: Domain, nspace: int): set<int> {
    set k | k in t.keys && t.keys[k].domain == Some(domain) && t.keys[k].nspace == Some(nspace)
      && t.keys[k].keyType == Client
  }

  // ---------------------------------------------------------------------------------------------
  // Transactions

  datatype NewKey = NewKey(
    id: int,
    kt: KeyType,
    params: seq<Param>,
    blob: Bytes,
    meta: Meta,
    superseded: Option<(Bytes, Meta)>,
    cert: Option<Bytes>,
    certChain: Option<Bytes>,
    keyMeta: Meta,
    kmUuid: int)

  datatype Op =
    | CreateKeyEntry(id: int, domain: Domain, nspace: int, kt: KeyType, kmUuid: int)
    | SetBlob(keyId: int, sub: SubComponent, content: Option<Bytes>, meta: Option<Meta>)
    | SetDeletedBlob(blob: Bytes, blobMeta: Meta)
    | StoreNewKey(key: Descriptor, newKey: NewKey)
    | StoreNewCertificate(key: Descriptor, id: int, kt: KeyType, chain: Bytes, keyMeta: Meta, kmUuid: int)
    | StoreSuperKey(id: int, user: int, alias: string, blob: Bytes, blobMeta: Meta, keyMeta: Meta)
    | GetOrCreateKey(id: int, domain: Domain, nspace: int, alias: string, kmUuid: int, blob: Bytes, blobMeta: Meta)
    | MigrateKeyNamespace(keyId: int, key: Descriptor, uid: int, allowed: bool)
    | UpdateUsageCount(keyId: int)
    | UnbindKey(key: Descriptor, kt: KeyType, uid: int, allowed: bool)
    | UnbindNamespace(domain: Domain, nspace: int)
    | UnbindUser(user: int, keepNonSuperEncrypted: bool)
    | Grant(id: int, key: Descriptor, uid: int, grantee: int, access: int, allowed: bool)
    | Ungrant(key: Descriptor, uid: int, grantee: int, allowed: bool)
    | CleanupLeftovers
    | CollectGarbage(done: seq<int>, batch: seq<int>)

  datatype Outcome = Outcome(tables: Tables, needGc: bool, error: Option<Error>)

  function Commit(t: Tables, needGc: bool): Outcome {
    Outcome(t, needGc, None)
  }

  function Rollback(t: Tables, e: Error): Outcome {
    Outcome(t, false, Some(e))
  }

  function NewEntry(kt: KeyType, domain: Domain, nspace: int, alias: Option<string>, state: LifeCycle, kmUuid: int): KeyRow {
    KeyRow(kt, Some(domain), Some(nspace), alias, state, kmUuid)
  }

  predicate StorableAs(key: Descriptor) {
    key.alias.Some? && Bindable(key.domain) && key.blob.None?
  }

  /** The blobs of a new key: an already superseded one first, so that it is collected. */
  function InsertBlobs(t: Tables, n: NewKey): Tables {
    var t1 := if n.superseded.Some?
              then AddBlob(t, n.id, KeyBlob, n.superseded.value.0, Some(n.superseded.value.1)) else t;
    var t2 := AddBlob(t1, n.id, KeyBlob, n.blob, Some(n.meta));
    AddBlobIfAny(AddBlobIfAny(t2, n.id, Cert, n.cert), n.id, CertChain, n.certChain)
  }

  /** The tables of `store_new_key` just before the alias is rebound. */
  function Populate(t: Tables, key: Descriptor, n: NewKey): Tables {
    var t1 := AddKey(t, n.id, NewEntry(n.kt, key.domain, key.nspace, None, Existing, n.kmUuid));
    var t2 := InsertBlobs(t1, n);
    t2.(params := t2.params[n.id := ParamsOf(t2, n.id) + n.params],
        keyMeta := t2.keyMeta[n.id := MetaOf(t2.keyMeta, n.id) + n.keyMeta])
  }

  function PopulateCertificate(t: Tables, key: Descriptor, id: int, kt: KeyType, chain: Bytes, keyMeta: Meta, kmUuid: int): Tables {
    var t1 := AddKey(t, id, NewEntry(kt, key.domain, key.nspace, None, Existing, kmUuid));
    var t2 := AddBlob(t1, id, CertChain, chain, None);
    t2.(keyMeta := t2.keyMeta[id := MetaOf(t2.keyMeta, id) + keyMeta])
  }

  function SetBlobOutcome(t: Tables, keyId: int, sub: SubComponent, content: Option<Bytes>, meta: Option<Meta>): Outcome {
    if content.Some? then Commit(AddBlob(t, keyId, sub, content.value, meta), true)
    else if sub == KeyBlob then Rollback(t, SystemError)
    else Commit(DropBlobs(t, BlobsOf(t, keyId, sub)), true)
  }

  function UsageOutcome(t: Tables, k: int): Outcome {
    var limit := UsageLimit(ParamsOf(t, k));
    if limit.None? || limit == Some(0) then Rollback(t, InvalidKeyBlob)
    else if limit == Some(1) then Commit(DeleteKeys(t, {k}), k in t.keys)
    else Commit(t.(params := t.params[k := Decremented(ParamsOf(t, k))]), false)
  }

  function MigrateOutcome(t: Tables, k: int, key: Descriptor, uid: int, allowed: bool): Outcome {
    if !Bindable(key.domain) then Rollback(t, InvalidArgument)
    else
      var nspace := if key.domain == App then uid else key.nspace;
      if !allowed then Rollback(t, PermissionDenied)
      else if key.alias.None? then Rollback(t, InvalidArgument)
      else if exists i :: i in t.keys && At(t.keys[i], key.domain, nspace, key.alias.value)
      then Rollback(t, InvalidArgument)
      else if k !in t.keys then Rollback(t, SystemError)
      else Commit(t.(keys := t.keys[k := t.keys[k].(alias := key.alias, domain := Some(key.domain), nspace := Some(nspace))]), false)
  }

  function GetOrCreateOutcome(t: Tables, id: int, domain: Domain, nspace: int, alias: string, kmUuid: int, blob: Bytes, meta: Meta): Outcome {
    var found := |LiveAt(t, Super, domain, nspace, alias)|;
    if found > 1 then Rollback(t, SystemError)
    else if found == 1 then Commit(t, false)
    else
      var t1 := AddKey(t, id, NewEntry(Super, domain, nspace, Some(alias), Live, kmUuid));
      Commit(AddBlob(t1, id, KeyBlob, blob, Some(meta)), false)
  }

  ghost function GrantOutcome(t: Tables, id: int, key: Descriptor, uid: int, grantee: int, access: int, allowed: bool): Outcome {
    var tuple := LoadAccessTuple(t, key, Client, uid);
    if tuple.Err? then Rollback(t, tuple.error)
    else if !allowed then Rollback(t, PermissionDenied)
    else
      var k := tuple.value.keyId;
      var g := if GrantsOf(t, k, grantee) == {} then id else Pick(GrantsOf(t, k, grantee));
      Commit(t.(grants := t.grants[g := GrantRow(grantee, k, access)]), false)
  }

  /** How many superseded key blobs the collector asks for at a time. */
  const GC_BATCH := 20

  /** The tables after the blobs in `done` and every unreferenced key are deleted. */
  function Swept(t: Tables, done: seq<int>): Tables {
    CleanupUnreferenced(PurgeBlobs(t, Elements(done)))
  }

  /** A result of the query for at most `GC_BATCH` superseded key blobs, in any order. */
  ghost predicate ValidBatch(t: Tables, batch: seq<int>) {
    && Distinct(batch)
    && Elements(batch) <= GarbageKeyBlobs(t)
    && |batch| == if |GarbageKeyBlobs(t)| < GC_BATCH then |GarbageKeyBlobs(t)| else GC_BATCH
  }

  /** A superseded blob as the collector reads it. */
  datatype Entry = Entry(id: int, blob: Bytes, meta: Meta)

  /** The entry is what the tables say about its blob. */
  predicate ReadFrom(t: Tables, e: Entry) {
    e.id in t.blobs && e.blob == t.blobs[e.id].blob && e.meta == MetaOf(t.blobMeta, e.id)
  }

  function Ids(es: seq<Entry>): (r: seq<int>)
    ensures |r| == |es|
  {
    seq(|es|, i requires 0 <= i < |es| => es[i].id)
  }

  /** The batch with the blobs and metadata read in the same transaction. */
  function Entries(t: Tables, batch: seq<int>): (r: seq<Entry>)
    requires forall i :: 0 <= i < |batch| ==> batch[i] in t.blobs
    ensures Ids(r) == batch
  {
    seq(|batch|, i requires 0 <= i < |batch| => Entry(batch[i], t.blobs[batch[i]].blob, MetaOf(t.blobMeta, batch[i])))
  }

  /** `handle_next_superseded_blobs`: other garbage goes once no superseded key blob is left. */
  function Collect(t: Tables, done: seq<int>, batch: seq<int>): Tables {
    var u := Swept(t, done);
    if batch != [] then u else DropBlobs(u, OtherGarbage(u))
  }

  ghost function Apply(t: Tables, op: Op): Outcome {
    match op
    case CreateKeyEntry(id, domain, nspace, kt, kmUuid) =>
      if Bindable(domain) then Commit(AddKey(t, id, NewEntry(kt, domain, nspace, None, Existing, kmUuid)), false)
      else Rollback(t, SystemError)
    case SetBlob(keyId, sub, content, meta) =>
      SetBlobOutcome(t, keyId, sub, content, meta)
    case SetDeletedBlob(blob, meta) =>
      Commit(AddBlob(t, UNASSIGNED_KEY_ID, KeyBlob, blob, Some(meta)), true)
    case StoreNewKey(key, n) =>
      if !StorableAs(key) then Rollback(t, InvalidArgument)
      else Commit(Rebind(Populate(t, key, n), n.id, key.alias.value, key.domain, key.nspace, n.kt),
                  n.superseded.Some? || RowsAt(t, n.kt, key.domain, key.nspace, key.alias.value) != {})
    case StoreNewCertificate(key, id, kt, chain, keyMeta, kmUuid) =>
      if !StorableAs(key) then Rollback(t, InvalidArgument)
      else Commit(Rebind(PopulateCertificate(t, key, id, kt, chain, keyMeta, kmUuid), id, key.alias.value, key.domain, key.nspace, kt),
                  RowsAt(t, kt, key.domain, key.nspace, key.alias.value) != {})
    case StoreSuperKey(id, user, alias, blob, meta, keyMeta) =>
      var t1 := AddKey(t, id, NewEntry(Super, App, user, Some(alias), Live, KEYSTORE_UUID));
      var t2 := t1.(keyMeta := t1.keyMeta[id := MetaOf(t1.keyMeta, id) + keyMeta]);
      Commit(AddBlob(t2, id, KeyBlob, blob, Some(meta)), false)
    case GetOrCreateKey(id, domain, nspace, alias, kmUuid, blob, meta) =>
      GetOrCreateOutcome(t, id, domain, nspace, alias, kmUuid, blob, meta)
    case MigrateKeyNamespace(k, key, uid, allowed) =>
      MigrateOutcome(t, k, key, uid, allowed)
    case UpdateUsageCount(k) =>
      UsageOutcome(t, k)
    case UnbindKey(key, kt, uid, allowed) =>
      var tuple := LoadAccessTuple(t, key, kt, uid);
      if tuple.Err? then Rollback(t, tuple.error)
      else if !allowed then Rollback(t, PermissionDenied)
      else Commit(DeleteKeys(t, {tuple.value.keyId}), true)
    case UnbindNamespace(domain, nspace) =>
      if !Bindable(domain) then Rollback(t, InvalidArgument)
      else Commit(DeleteKeys(t, KeysOfNamespace(t, domain, nspace)), true)
    case UnbindUser(user, keep) =>
      Commit(DeleteKeys(t, KeysOfUser(t, user, keep)), KeysOfUser(t, user, keep) != {})
    case Grant(id, key, uid, grantee, access, allowed) =>
      GrantOutcome(t, id, key, uid, grantee, access, allowed)
    case Ungrant(key, uid, grantee, allowed) =>
      var tuple := LoadAccessTuple(t, key, Client, uid);
      if tuple.Err? then Rollback(t, tuple.error)
      else if !allowed then Rollback(t, PermissionDenied)
      else Commit(t.(grants := t.grants - GrantsOf(t, tuple.value.keyId, grantee)), false)
    case CleanupLeftovers =>
      Commit(t.(keys := map k | k in t.keys ::
                  if t.keys[k].state == Existing then t.keys[k].(state := Unreferenced) else t.keys[k]), true)
    case CollectGarbage(done, batch) =>
      Commit(Collect(t, done, batch), false)
  }

  /** The key id a transaction inserts, if it inserts one. */
  function Created(op: Op): Option<int> {
    match op
    case CreateKeyEntry(id, _, _, _, _) => Some(id)
    case StoreNewKey(_, n) => Some(n.id)
    case StoreNewCertificate(_, id, _, _, _, _) => Some(id)
    case StoreSuperKey(id, _, _, _, _, _) => Some(id)
    case GetOrCreateKey(id, _, _, _, _, _, _) => Some(id)
    case _ => None
  }

  /** Ids pass the uniqueness constraints, and only key blobs are stored with metadata. */
  ghost predicate Legal(t: Tables, op: Op) {
    && (Created(op).Some? ==> Created(op).value !in t.keys && Created(op).value != UNASSIGNED_KEY_ID)
    && (op.Grant? ==> op.id !in t.grants)
    && (op.SetBlob? && op.meta.Some? ==> op.sub == KeyBlob)
    && (op.CollectGarbage? ==> ValidBatch(Swept(t, op.done), op.batch))
  }

  /** The drawn key id is not the owner of a blob left behind by an earlier key. */
  predicate NoLeftoverBlobs(t: Tables, op: Op) {
    Created(op).Some? ==> forall b :: b in t.blobs ==> t.blobs[b].keyId != Created(op).value
  }
}
