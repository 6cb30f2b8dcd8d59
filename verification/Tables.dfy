/**
  The six tables of the persistent key database and the queries over them.
  `keyentry`, `blobentry` and `grant` are keyed by their `id` column. `blobmetadata` and
  `keymetadata` are grouped by the row they describe, because (row, tag) is unique in both, and
  `keyparameter` is grouped by key with its rows in insertion order.
 */
module Tables {
  import opened Prelude

  datatype KeyType = Client | Super

  datatype LifeCycle = Existing | Live | Unreferenced

  datatype SubComponent = KeyBlob | Cert | CertChain

  datatype Domain = App | GrantId | SeLinux | BlobData | KeyIdDomain

  datatype KeyRow = KeyRow(
    keyType: KeyType,
    domain: Option<Domain>,
    nspace: Option<int>,
    alias: Option<string>,
    state: LifeCycle,
    kmUuid: int)

  datatype BlobRow = BlobRow(sub: SubComponent, keyId: int, blob: Bytes)

  datatype GrantRow = GrantRow(grantee: int, keyId: int, access: int)

  datatype Param = Param(tag: int, data: int, level: int)

  /** Metadata entries by tag. */
  type Meta = map<int, int>

  datatype Tables = Tables(
    keys: map<int, KeyRow>,
    blobs: map<int, BlobRow>,
    blobMeta: map<int, Meta>,
    params: map<int, seq<Param>>,
    keyMeta: map<int, Meta>,
    grants: map<int, GrantRow>)

  datatype Descriptor = Descriptor(domain: Domain, nspace: int, alias: Option<string>, blob: Option<Bytes>)

  datatype Error = KeyNotFound | InvalidArgument | InvalidKeyBlob | SystemError | PermissionDenied

  const EMPTY := Tables(map[], map[], map[], map[], map[], map[])
  const UNASSIGNED_KEY_ID := -1
  const KEYSTORE_UUID := 0
  const AID_USER_OFFSET := 100000
  const TAG_ENCRYPTED_BY := 0
  const TAG_KM_UUID := 4
  const USAGE_COUNT_LIMIT := 0x30000195

  // ---------------------------------------------------------------------------------------------
  // Blob queries

  /** SQLite hands out one more than the largest row id present, starting at 1. */
  function NextBlobId(blobs: map<int, BlobRow>): (b: int)
    ensures forall c :: c in blobs ==> c < b
  {
    if |blobs.Keys| == 0 then 1 else Max(blobs.Keys) + 1
  }

  predicate SameSlot(a: BlobRow, b: BlobRow) {
    a.keyId == b.keyId && a.sub == b.sub
  }

  /** Blob `b` is the most recent one of its key and sub component. */
  predicate Newest(t: Tables, b: int)
    requires b in t.blobs
  {
    forall c :: c in t.blobs && SameSlot(t.blobs[c], t.blobs[b]) ==> c <= b
  }

  /** The garbage collector's query: superseded, or owned by no key entry. */
  predicate Garbage(t: Tables, b: int) {
    b in t.blobs && (!Newest(t, b) || t.blobs[b].keyId !in t.keys)
  }

  function GarbageKeyBlobs(t: Tables): set<int> {
    set b | b in t.blobs && t.blobs[b].sub == KeyBlob && Garbage(t, b)
  }

  function OtherGarbage(t: Tables): set<int> {
    set b | b in t.blobs && t.blobs[b].sub != KeyBlob && Garbage(t, b)
  }

  function MetaOf(metas: map<int, Meta>, id: int): Meta {
    if id in metas then metas[id] else map[]
  }

  function BlobsOf(t: Tables, keyId: int, sub: SubComponent): set<int> {
    set b | b in t.blobs && t.blobs[b].keyId == keyId && t.blobs[b].sub == sub
  }

  datatype Component = Component(id: int, blob: Bytes, meta: Meta)

  /** What loading one sub component of a key yields: its newest blob and that blob's metadata. */
  function LoadComponent(t: Tables, keyId: int, sub: SubComponent): (r: Option<Component>)
    ensures r.Some? ==> r.value.id in BlobsOf(t, keyId, sub) && Newest(t, r.value.id)
    ensures r.None? <==> BlobsOf(t, keyId, sub) == {}
  {
    if BlobsOf(t, keyId, sub) == {} then None
    else
      var b := Max(BlobsOf(t, keyId, sub));
      assert forall c :: c in t.blobs && SameSlot(t.blobs[c], t.blobs[b]) ==> c in BlobsOf(t, keyId, sub);
      Some(Component(b, t.blobs[b].blob, MetaOf(t.blobMeta, b)))
  }

  /** The component is the one whose blob is in the slot and newest there. */
  lemma ComponentIs(t: Tables, keyId: int, sub: SubComponent, b: int)
    requires b in t.blobs && t.blobs[b].keyId == keyId && t.blobs[b].sub == sub
    requires Newest(t, b)
    ensures LoadComponent(t, keyId, sub) == Some(Component(b, t.blobs[b].blob, MetaOf(t.blobMeta, b)))
  {
    assert b in BlobsOf(t, keyId, sub);
    var m := Max(BlobsOf(t, keyId, sub));
    assert m in t.blobs && SameSlot(t.blobs[m], t.blobs[b]);
  }

  // ---------------------------------------------------------------------------------------------
  // Key queries

  /** SQL comparison: a NULL column equals nothing. */
  predicate At(r: KeyRow, domain: Domain, nspace: int, alias: string) {
    r.domain == Some(domain) && r.nspace == Some(nspace) && r.alias == Some(alias)
  }

  function RowsAt(t: Tables, kt: KeyType, domain: Domain, nspace: int, alias: string): set<int> {
    set k | k in t.keys && t.keys[k].keyType == kt && At(t.keys[k], domain, nspace, alias)
  }

  function LiveAt(t: Tables, kt: KeyType, domain: Domain, nspace: int, alias: string): set<int> {
    set k | k in t.keys && t.keys[k].keyType == kt && At(t.keys[k], domain, nspace, alias) && t.keys[k].state == Live
  }

  /** `load_key_entry_id`: exactly one live row must match. */
  function LoadKeyEntryId(t: Tables, key: Descriptor, kt: KeyType): (r: Result<int, Error>)
    ensures r.Ok? ==> r.value in t.keys && t.keys[r.value].state == Live
  {
    if key.alias.None? then Err(SystemError)
    else
      var ids := LiveAt(t, kt, key.domain, key.nspace, key.alias.value);
      if |ids| == 0 then Err(KeyNotFound)
      else if |ids| == 1 then
        var k := Only(ids);
        assert k in ids;
        Ok(k)
      else Err(SystemError)
  }

  function GrantsOf(t: Tables, keyId: int, grantee: int): set<int> {
    set g | g in t.grants && t.grants[g].keyId == keyId && t.grants[g].grantee == grantee
  }

  /** The access vector `grantee` holds on a key, by the first matching row. */
  ghost function AccessVector(t: Tables, keyId: int, grantee: int): Option<int> {
    if GrantsOf(t, keyId, grantee) == {} then None
    else Some(t.grants[Pick(GrantsOf(t, keyId, grantee))].access)
  }

  datatype AccessTuple = AccessTuple(keyId: int, key: Descriptor, access: Option<int>)

  /** `load_access_tuple`: complete a descriptor to what access control needs. */
  ghost function LoadAccessTuple(t: Tables, key: Descriptor, kt: KeyType, callerUid: int)
    : (r: Result<AccessTuple, Error>)
    ensures r.Ok? ==> r.value.keyId in t.keys && t.keys[r.value.keyId].state == Live
  {
    match key.domain
    case App | SeLinux =>
      var accessKey := if key.domain == App then key.(nspace := callerUid) else key;
      var id := LoadKeyEntryId(t, accessKey, kt);
      if id.Err? then Err(id.error) else Ok(AccessTuple(id.value, accessKey, None))
    case GrantId =>
      if && key.nspace in t.grants
         && t.grants[key.nspace].grantee == callerUid
         && t.grants[key.nspace].keyId in t.keys
         && t.keys[t.grants[key.nspace].keyId].state == Live
      then
        Ok(AccessTuple(t.grants[key.nspace].keyId, key, Some(t.grants[key.nspace].access)))
      else Err(KeyNotFound)
    case KeyIdDomain =>
      if key.nspace !in t.keys || t.keys[key.nspace].state != Live then Err(KeyNotFound)
      else
        var row := t.keys[key.nspace];
        if row.domain.None? || row.nspace.None? then Err(SystemError)
        else
          var access := if row.domain != Some(App) || row.nspace != Some(callerUid)
                        then AccessVector(t, key.nspace, callerUid) else None;
          Ok(AccessTuple(key.nspace, key.(domain := row.domain.value, nspace := row.nspace.value), access))
    case BlobData => Err(InvalidArgument)
  }

  /** The usage limit row the database reads first. */
  function UsageLimit(ps: seq<Param>): (r: Option<int>)
    ensures r.None? <==> forall p :: p in ps ==> p.tag != USAGE_COUNT_LIMIT
  {
    if ps == [] then None
    else if ps[0].tag == USAGE_COUNT_LIMIT then Some(ps[0].data)
    else UsageLimit(ps[1..])
  }

  function ParamsOf(t: Tables, keyId: int): seq<Param> {
    if keyId in t.params then t.params[keyId] else []
  }

  /** Everything a caller can observe of a key entry. */
  datatype KeyView = KeyView(
    row: KeyRow,
    keyBlob: Option<Component>,
    cert: Option<Component>,
    certChain: Option<Component>,
    params: seq<Param>,
    meta: Meta,
    grants: map<int, GrantRow>)

  function View(t: Tables, keyId: int): KeyView
    requires keyId in t.keys
  {
    KeyView(
      t.keys[keyId],
      LoadComponent(t, keyId, KeyBlob),
      LoadComponent(t, keyId, Cert),
      LoadComponent(t, keyId, CertChain),
      ParamsOf(t, keyId),
      MetaOf(t.keyMeta, keyId),
      map g | g in t.grants && t.grants[g].keyId == keyId :: t.grants[g])
  }

  // ---------------------------------------------------------------------------------------------
  // Invariants of the tables

  /** Two client rows bound to the same non-null (domain, namespace, alias). */
  predicate Collide(a: KeyRow, b: KeyRow) {
    && a.keyType == Client && b.keyType == Client
    && a.domain.Some? && a.nspace.Some? && a.alias.Some?
    && a.domain == b.domain && a.nspace == b.nspace && a.alias == b.alias
  }

  predicate UniqueAliases(keys: map<int, KeyRow>) {
    forall i, j :: i in keys && j in keys && Collide(keys[i], keys[j]) ==> i == j
  }

  predicate BoundUnlessUnreferenced(keys: map<int, KeyRow>) {
    forall k :: k in keys && keys[k].state != Unreferenced ==> keys[k].domain.Some? && keys[k].nspace.Some?
  }

  predicate GoodKeys(keys: map<int, KeyRow>) {
    UNASSIGNED_KEY_ID !in keys && UniqueAliases(keys) && BoundUnlessUnreferenced(keys)
  }

  predicate SameGrant(a: GrantRow, b: GrantRow) {
    a.keyId == b.keyId && a.grantee == b.grantee
  }

  predicate UniqueGrants(grants: map<int, GrantRow>) {
    forall g, h :: g in grants && h in grants && SameGrant(grants[g], grants[h]) ==> g == h
  }

  predicate GrantsUsable(grants: map<int, GrantRow>, keys: map<int, KeyRow>) {
    forall g :: g in grants ==> grants[g].keyId in keys && keys[grants[g].keyId].state != Existing
  }

  predicate MetaOnKeyBlobs(blobMeta: map<int, Meta>, blobs: map<int, BlobRow>) {
    forall b :: b in blobMeta ==> b in blobs && blobs[b].sub == KeyBlob
  }

  /**
    At most one client key per (domain, namespace, alias), one grant per key and grantee, no
    parameter, metadata or grant row without its key, and no grant on a key still being created.
   */
  predicate Inv(t: Tables) {
    && GoodKeys(t.keys)
    && UniqueGrants(t.grants)
    && GrantsUsable(t.grants, t.keys)
    && t.params.Keys <= t.keys.Keys
    && t.keyMeta.Keys <= t.keys.Keys
    && MetaOnKeyBlobs(t.blobMeta, t.blobs)
  }

  /** No key awaits collection and no blob is superseded or orphaned. */
  predicate Clean(t: Tables) {
    && (forall k :: k in t.keys ==> t.keys[k].state != Unreferenced)
    && (forall b :: b in t.blobs ==> !Garbage(t, b))
  }
}
