/** What runs of transactions do to a single key: its end is final, and limited uses run out. */
module KeyLifecycle {
  import opened Prelude
  import opened Tables
  import opened Transactions
  import opened TableInvariants

  predicate IsLive(t: Tables, k: int) {
    k in t.keys && t.keys[k].state == Live
  }

  predicate Gone(t: Tables, k: int) {
    k in t.keys ==> t.keys[k].state == Unreferenced
  }

  /** Some descriptor, key type and caller resolve to the key. */
  ghost predicate Loadable(t: Tables, k: int) {
    exists key, kt, uid :: Resolves(t, key, kt, uid, k)
  }

  ghost predicate Resolves(t: Tables, key: Descriptor, kt: KeyType, uid: int, k: int) {
    var r := LoadAccessTuple(t, key, kt, uid);
    r.Ok? && r.value.keyId == k
  }

  // ---------------------------------------------------------------------------------------------
  // Leaving Live is final

  /** How a transaction may change the state of a key that it does not create. */
  predicate Ages(before: Tables, after: Tables, k: int) {
    k in after.keys ==>
      && k in before.keys
      && (after.keys[k].state == before.keys[k].state || after.keys[k].state == Unreferenced)
  }

  lemma RebindAges(t: Tables, newId: int, alias: string, domain: Domain, nspace: int, kt: KeyType, k: int)
    requires k != newId
    ensures Ages(t, Rebind(t, newId, alias, domain, nspace, kt), k)
  {
  }

  lemma StoreAges(t: Tables, key: Descriptor, n: NewKey, k: int)
    requires k != n.id
    ensures Ages(t, Apply(t, StoreNewKey(key, n)).tables, k)
  {
    hide InsertBlobs, MetaOf, RowsAt, Rebind;
    if StorableAs(key) {
      InsertBlobsFrame(AddKey(t, n.id, NewEntry(n.kt, key.domain, key.nspace, None, Existing, n.kmUuid)), n);
      RebindAges(Populate(t, key, n), n.id, key.alias.value, key.domain, key.nspace, n.kt, k);
    }
  }

  lemma InsertAges(t: Tables, op: Op, k: int)
    requires Created(op).Some? && Created(op) != Some(k)
    ensures Ages(t, Apply(t, op).tables, k)
  {
    hide InsertBlobs, NextBlobId, MetaOf, RowsAt, Rebind;
    match op
    case StoreNewKey(key, n) => StoreAges(t, key, n, k);
    case StoreNewCertificate(key, id, kt, chain, keyMeta, kmUuid) =>
      if StorableAs(key) {
        RebindAges(PopulateCertificate(t, key, id, kt, chain, keyMeta, kmUuid), id, key.alias.value, key.domain, key.nspace, kt, k);
      }
    case _ =>
  }

  /** The transactions that delete keys. */
  predicate Deletes(op: Op) {
    op.UpdateUsageCount? || op.UnbindKey? || op.UnbindNamespace? || op.UnbindUser? || op.CollectGarbage?
  }

  /** They remove the rows of some keys, from all tables but the blob tables. */
  lemma Deletion(t: Tables, op: Op) returns (ks: set<int>)
    requires Deletes(op)
    ensures Apply(t, op).tables.keys == t.keys - ks
    ensures !op.UpdateUsageCount? ==> Apply(t, op).tables.params == t.params - ks
  {
    hide MetaOf, LoadAccessTuple, OtherGarbage, Decremented, UsageLimit, KeysOfUser, KeysOfNamespace, UnreferencedKeys;
    ks := {};
    match op {
      case UpdateUsageCount(k) =>
        if UsageLimit(ParamsOf(t, k)) == Some(1) {
          ks := {k};
        }
      case UnbindKey(key, kt, uid, allowed) =>
        var tuple := LoadAccessTuple(t, key, kt, uid);
        if tuple.Ok? && allowed {
          ks := {tuple.value.keyId};
        }
      case UnbindNamespace(domain, nspace) =>
        if Bindable(domain) {
          ks := KeysOfNamespace(t, domain, nspace);
        }
      case UnbindUser(user, keep) => ks := KeysOfUser(t, user, keep);
      case CollectGarbage(done, batch) => ks := UnreferencedKeys(PurgeBlobs(t, Elements(done)));
    }
  }

  lemma DeleteAges(t: Tables, op: Op, k: int)
    requires Deletes(op)
    ensures Ages(t, Apply(t, op).tables, k)
  {
    hide Apply;
    var _ := Deletion(t, op);
  }

  lemma OtherAges(t: Tables, op: Op, k: int)
    requires Created(op).None? && !Deletes(op)
    ensures Ages(t, Apply(t, op).tables, k)
  {
    hide NextBlobId, MetaOf, LoadAccessTuple, RowsAt;
  }

  lemma ApplyAges(t: Tables, op: Op, k: int)
    requires Created(op) != Some(k)
    ensures Ages(t, Apply(t, op).tables, k)
  {
    hide Apply, Ages;
    if Created(op).Some? {
      InsertAges(t, op, k);
    } else if Deletes(op) {
      DeleteAges(t, op, k);
    } else {
      OtherAges(t, op, k);
    }
  }

  ghost predicate NotRedrawn(ops: seq<Op>, from: nat, k: int) {
    forall i :: from <= i < |ops| ==> Created(ops[i]) != Some(k)
  }

  /** Between two states of a run, a live key stays live or is gone, if its id is not drawn again. */
  lemma {:induction false} LiveOrGoneLater(states: seq<Tables>, ops: seq<Op>, from: nat, to: nat, k: int)
    requires IsRun(states, ops) && NotRedrawn(ops, from, k)
    requires from <= to <= |ops|
    requires IsLive(states[from], k) || Gone(states[from], k)
    ensures IsLive(states[to], k) || Gone(states[to], k)
    ensures Gone(states[from], k) ==> Gone(states[to], k)
  {
    hide Apply, Legal;
    if from < to {
      LiveOrGoneLater(states, ops, from, to - 1, k);
      ApplyAges(states[to - 1], ops[to - 1], k);
    }
  }

  /**
    A key that was live and is not live any more is not loadable by alias, grant or key id in any
    later state.
   */
  lemma LeavingLiveIsFinal(states: seq<Tables>, ops: seq<Op>, live: nat, left: nat, later: nat, k: int)
    requires IsRun(states, ops) && NotRedrawn(ops, live, k)
    requires live <= left <= later <= |ops|
    requires IsLive(states[live], k) && !IsLive(states[left], k)
    ensures !Loadable(states[later], k)
  {
    LiveOrGoneLater(states, ops, live, left, k);
    LiveOrGoneLater(states, ops, left, later, k);
  }

  // ---------------------------------------------------------------------------------------------
  // Storing a key

  lemma EmptyPlus(m: Meta)
    ensures map[] + m == m
  {
  }

  lemma AddedBlobIsLoaded(t: Tables, keyId: int, sub: SubComponent, blob: Bytes, meta: Option<Meta>)
    requires MetaOnKeyBlobs(t.blobMeta, t.blobs)
    ensures LoadComponent(AddBlob(t, keyId, sub, blob, meta), keyId, sub)
         == Some(Component(NextBlobId(t.blobs), blob, if meta.Some? then meta.value else map[]))
  {
    hide LoadComponent, NextBlobId, BlobsOf;
    var b := NextBlobId(t.blobs);
    var u := AddBlob(t, keyId, sub, blob, meta);
    ComponentIs(u, keyId, sub, b);
    assert MetaOf(u.blobMeta, b) == if meta.Some? then meta.value else map[] by {
      assert b !in t.blobMeta;
      if meta.Some? {
        EmptyPlus(meta.value);
      }
    }
  }

  /** A new blob is what its slot now yields, and no other slot is affected. */
  lemma AddBlobComponents(t: Tables, keyId: int, sub: SubComponent, blob: Bytes, meta: Option<Meta>)
    requires MetaOnKeyBlobs(t.blobMeta, t.blobs)
    ensures LoadComponent(AddBlob(t, keyId, sub, blob, meta), keyId, sub)
         == Some(Component(NextBlobId(t.blobs), blob, if meta.Some? then meta.value else map[]))
    ensures forall k, s :: k != keyId || s != sub ==> LoadComponent(AddBlob(t, keyId, sub, blob, meta), k, s) == LoadComponent(t, k, s)
  {
    hide LoadComponent, AddBlob;
    AddedBlobIsLoaded(t, keyId, sub, blob, meta);
    forall k, s | k != keyId || s != sub
      ensures LoadComponent(AddBlob(t, keyId, sub, blob, meta), k, s) == LoadComponent(t, k, s)
    {
      AddBlobSparesOthers(t, keyId, sub, blob, meta, k, s);
    }
  }

  lemma AddBlobSparesOthers(t: Tables, keyId: int, sub: SubComponent, blob: Bytes, meta: Option<Meta>, k: int, s: SubComponent)
    requires k != keyId || s != sub
    ensures LoadComponent(AddBlob(t, keyId, sub, blob, meta), k, s) == LoadComponent(t, k, s)
  {
    var u := AddBlob(t, keyId, sub, blob, meta);
    assert BlobsOf(u, k, s) == BlobsOf(t, k, s);
    if LoadComponent(t, k, s).Some? {
      ComponentIs(u, k, s, LoadComponent(t, k, s).value.id);
    }
  }

  /** The components of a new key are the blobs given; where none is given, what its id owned before. */
  lemma InsertedComponents(t: Tables, n: NewKey)
    requires Inv(t)
    ensures var u := InsertBlobs(t, n);
      && (exists b :: LoadComponent(u, n.id, KeyBlob) == Some(Component(b, n.blob, n.meta)))
      && (n.cert.None? ==> LoadComponent(u, n.id, Cert) == LoadComponent(t, n.id, Cert))
      && (n.cert.Some? ==> exists b :: LoadComponent(u, n.id, Cert) == Some(Component(b, n.cert.value, map[])))
      && (n.certChain.None? ==> LoadComponent(u, n.id, CertChain) == LoadComponent(t, n.id, CertChain))
      && (n.certChain.Some? ==> exists b :: LoadComponent(u, n.id, CertChain) == Some(Component(b, n.certChain.value, map[])))
      && (forall k, s :: k != n.id ==> LoadComponent(u, k, s) == LoadComponent(t, k, s))
  {
    hide LoadComponent, NextBlobId, AddBlob;
    var t1 := t;
    if n.superseded.Some? {
      AddBlobComponents(t, n.id, KeyBlob, n.superseded.value.0, Some(n.superseded.value.1));
      AddBlobKeepsInv(t, n.id, KeyBlob, n.superseded.value.0, Some(n.superseded.value.1));
      t1 := AddBlob(t, n.id, KeyBlob, n.superseded.value.0, Some(n.superseded.value.1));
    }
    AddBlobComponents(t1, n.id, KeyBlob, n.blob, Some(n.meta));
    AddBlobKeepsInv(t1, n.id, KeyBlob, n.blob, Some(n.meta));
    var t2 := AddBlob(t1, n.id, KeyBlob, n.blob, Some(n.meta));
    if n.cert.Some? {
      AddBlobComponents(t2, n.id, Cert, n.cert.value, None);
      AddBlobKeepsInv(t2, n.id, Cert, n.cert.value, None);
    }
    var t3 := AddBlobIfAny(t2, n.id, Cert, n.cert);
    if n.certChain.Some? {
      AddBlobComponents(t3, n.id, CertChain, n.certChain.value, None);
    }
  }

  /** What `store_new_key` leaves behind, for the alias, the new key and every key that stays. */
  ghost predicate Stored(t: Tables, u: Tables, key: Descriptor, n: NewKey)
    requires StorableAs(key)
  {
    && LoadKeyEntryId(u, key, n.kt) == Ok(n.id)
    && u.keys[n.id] == NewEntry(n.kt, key.domain, key.nspace, key.alias, Live, n.kmUuid)
    && (exists b :: LoadComponent(u, n.id, KeyBlob) == Some(Component(b, n.blob, n.meta)))
    && (n.cert.None? ==> LoadComponent(u, n.id, Cert) == LoadComponent(t, n.id, Cert))
    && (n.cert.Some? ==> exists b :: LoadComponent(u, n.id, Cert) == Some(Component(b, n.cert.value, map[])))
    && (n.certChain.None? ==> LoadComponent(u, n.id, CertChain) == LoadComponent(t, n.id, CertChain))
    && (n.certChain.Some? ==> exists b :: LoadComponent(u, n.id, CertChain) == Some(Component(b, n.certChain.value, map[])))
    && ParamsOf(u, n.id) == n.params
    && MetaOf(u.keyMeta, n.id) == n.keyMeta
    && (forall g :: g in u.grants ==> u.grants[g].keyId != n.id)
    && (forall k :: k in RowsAt(t, n.kt, key.domain, key.nspace, key.alias.value) ==> Gone(u, k))
    && (forall k :: k in t.keys && k !in RowsAt(t, n.kt, key.domain, key.nspace, key.alias.value) ==> k in u.keys && View(u, k) == View(t, k))
  }

  /** The rebound alias names the new entry and nothing else. */
  lemma RebindResolves(t: Tables, newId: int, key: Descriptor, kt: KeyType)
    requires key.alias.Some? && Rebindable(t, newId, key.alias.value, key.domain, key.nspace, kt)
    ensures LoadKeyEntryId(Rebind(t, newId, key.alias.value, key.domain, key.nspace, kt), key, kt) == Ok(newId)
  {
    var u := Rebind(t, newId, key.alias.value, key.domain, key.nspace, kt);
    assert LiveAt(u, kt, key.domain, key.nspace, key.alias.value) == {newId};
  }

  /**
    After `store_new_key` the alias resolves to exactly the new key with the blobs just stored, its
    previous holders are gone, and every other key looks as before.
   */
  lemma StoreNewKeyResolves(t: Tables, key: Descriptor, n: NewKey)
    requires Inv(t) && Legal(t, StoreNewKey(key, n)) && StorableAs(key)
    ensures Stored(t, Apply(t, StoreNewKey(key, n)).tables, key, n)
  {
    hide LoadComponent, InsertBlobs, LoadKeyEntryId, Inv, View;
    var row := NewEntry(n.kt, key.domain, key.nspace, None, Existing, n.kmUuid);
    var t1 := AddKey(t, n.id, row);
    var t2 := Populate(t, key, n);
    var u := Rebind(t2, n.id, key.alias.value, key.domain, key.nspace, n.kt);
    AddKeyKeepsInv(t, n.id, row);
    InsertBlobsFrame(t1, n);
    InsertedComponents(t1, n);
    RebindResolves(t2, n.id, key, n.kt);
    forall k, s
      ensures LoadComponent(u, k, s) == LoadComponent(InsertBlobs(t1, n), k, s)
      ensures LoadComponent(t1, k, s) == LoadComponent(t, k, s)
    {
      SameBlobsSameComponent(InsertBlobs(t1, n), u, k, s);
      SameBlobsSameComponent(t, t1, k, s);
    }
    StoreSparesOthers(t, key, n, u);
    StoredRows(t, key, n, u);
  }

  /** A certificate or chain that was not given is absent, if the drawn id owns no leftover blob. */
  lemma StoredWithoutCertificate(t: Tables, key: Descriptor, n: NewKey)
    requires Inv(t) && Legal(t, StoreNewKey(key, n)) && StorableAs(key)
    requires NoLeftoverBlobs(t, StoreNewKey(key, n))
    ensures var u := Apply(t, StoreNewKey(key, n)).tables;
      (n.cert.None? ==> LoadComponent(u, n.id, Cert).None?) && (n.certChain.None? ==> LoadComponent(u, n.id, CertChain).None?)
  {
    hide Apply, LoadComponent, LoadKeyEntryId, View, Legal, Inv;
    StoreNewKeyResolves(t, key, n);
    NothingLeftOver(t, StoreNewKey(key, n), Cert);
    NothingLeftOver(t, StoreNewKey(key, n), CertChain);
  }

  lemma NothingLeftOver(t: Tables, op: Op, s: SubComponent)
    requires Created(op).Some? && NoLeftoverBlobs(t, op)
    ensures LoadComponent(t, Created(op).value, s).None?
  {
    var slot := BlobsOf(t, Created(op).value, s);
    if slot != {} {
      var _ := Pick(slot);
    }
  }

  lemma StoredRows(t: Tables, key: Descriptor, n: NewKey, u: Tables)
    requires Inv(t) && StorableAs(key) && n.id !in t.keys
    requires u == Rebind(Populate(t, key, n), n.id, key.alias.value, key.domain, key.nspace, n.kt)
    ensures n.id in u.keys && u.keys[n.id] == NewEntry(n.kt, key.domain, key.nspace, key.alias, Live, n.kmUuid)
    ensures ParamsOf(u, n.id) == n.params && MetaOf(u.keyMeta, n.id) == n.keyMeta
    ensures forall g :: g in u.grants ==> u.grants[g].keyId != n.id
    ensures forall k :: k in RowsAt(t, n.kt, key.domain, key.nspace, key.alias.value) ==> Gone(u, k)
  {
    hide InsertBlobs;
    InsertBlobsFrame(AddKey(t, n.id, NewEntry(n.kt, key.domain, key.nspace, None, Existing, n.kmUuid)), n);
    assert map[] + n.keyMeta == n.keyMeta;
  }

  lemma SameBlobsSameComponent(t: Tables, u: Tables, k: int, s: SubComponent)
    requires t.blobs == u.blobs && t.blobMeta == u.blobMeta
    ensures LoadComponent(t, k, s) == LoadComponent(u, k, s)
  {
    assert BlobsOf(t, k, s) == BlobsOf(u, k, s);
  }

  lemma StoreSparesOthers(t: Tables, key: Descriptor, n: NewKey, u: Tables)
    requires StorableAs(key) && n.id !in t.keys
    requires u == Rebind(Populate(t, key, n), n.id, key.alias.value, key.domain, key.nspace, n.kt)
    requires forall k, s :: k != n.id ==> LoadComponent(u, k, s) == LoadComponent(t, k, s)
    ensures forall k :: k in t.keys && k !in RowsAt(t, n.kt, key.domain, key.nspace, key.alias.value) ==> k in u.keys && View(u, k) == View(t, k)
  {
    hide LoadComponent, InsertBlobs;
    InsertBlobsFrame(AddKey(t, n.id, NewEntry(n.kt, key.domain, key.nspace, None, Existing, n.kmUuid)), n);
    forall k | k in t.keys && k !in RowsAt(t, n.kt, key.domain, key.nspace, key.alias.value)
      ensures k in u.keys && View(u, k) == View(t, k)
    {
      assert k != n.id && u.keys[k] == t.keys[k];
    }
  }

  // ---------------------------------------------------------------------------------------------
  // Limited use keys

  lemma {:induction false} DecrementedLimit(ps: seq<Param>)
    requires UsageLimit(ps).Some?
    ensures UsageLimit(Decremented(ps)) == Some(if UsageLimit(ps).value > 0 then UsageLimit(ps).value - 1 else UsageLimit(ps).value)
  {
    if ps[0].tag != USAGE_COUNT_LIMIT {
      DecrementedLimit(ps[1..]);
      assert Decremented(ps)[1..] == Decremented(ps[1..]);
    }
  }

  /** A successful update of the use counter of key `k`. */
  ghost predicate Uses(t: Tables, op: Op, k: int) {
    op == UpdateUsageCount(k) && Apply(t, op).error.None?
  }

  /** The parameters of a key change only by using it, and vanish only with the key; a use deletes it only if it is the last. */
  ghost predicate ParamsEvolve(t: Tables, op: Op, u: Tables, k: int) {
    && (k in u.params ==> k in t.params && u.params[k] == if Uses(t, op, k) then Decremented(t.params[k]) else t.params[k])
    && (k in t.params && k !in u.params ==> k !in u.keys)
    && (k in t.params && Uses(t, op, k) ==> if UsageLimit(t.params[k]) == Some(1) then k !in u.params else k in u.params && u.keys == t.keys)
  }

  lemma UpdateEvolvesParams(t: Tables, j: int, k: int)
    ensures ParamsEvolve(t, UpdateUsageCount(j), Apply(t, UpdateUsageCount(j)).tables, k)
  {
    hide Decremented, UsageLimit;
    assert Apply(t, UpdateUsageCount(j)) == UsageOutcome(t, j);
    hide Apply;
  }

  lemma StoreEvolvesParams(t: Tables, key: Descriptor, n: NewKey, k: int)
    requires k != n.id
    ensures ParamsEvolve(t, StoreNewKey(key, n), Apply(t, StoreNewKey(key, n)).tables, k)
  {
    hide InsertBlobs, RowsAt, MetaOf;
    InsertBlobsFrame(AddKey(t, n.id, NewEntry(n.kt, key.domain, key.nspace, None, Existing, n.kmUuid)), n);
  }

  lemma DeleteEvolvesParams(t: Tables, op: Op, k: int)
    requires Deletes(op) && !op.UpdateUsageCount?
    ensures ParamsEvolve(t, op, Apply(t, op).tables, k)
  {
    hide Apply, Decremented, UsageLimit;
    var _ := Deletion(t, op);
    assert op != UpdateUsageCount(k);
  }

  lemma OtherEvolvesParams(t: Tables, op: Op, k: int)
    requires Created(op).None? && !Deletes(op)
    ensures ParamsEvolve(t, op, Apply(t, op).tables, k)
  {
    hide NextBlobId, MetaOf, LoadAccessTuple, RowsAt, Decremented, UsageLimit;
    assert op != UpdateUsageCount(k);
  }

  lemma InsertEvolvesParams(t: Tables, op: Op, k: int)
    requires Created(op).Some? && Created(op) != Some(k)
    ensures ParamsEvolve(t, op, Apply(t, op).tables, k)
  {
    hide InsertBlobs, NextBlobId, MetaOf, RowsAt, Decremented, UsageLimit;
    match op
    case StoreNewKey(key, n) => StoreEvolvesParams(t, key, n, k);
    case _ =>
  }

  lemma ApplyEvolvesParams(t: Tables, op: Op, k: int)
    requires Created(op) != Some(k)
    ensures ParamsEvolve(t, op, Apply(t, op).tables, k)
  {
    hide Apply, ParamsEvolve;
    if op.UpdateUsageCount? {
      UpdateEvolvesParams(t, op.keyId, k);
    } else if Created(op).Some? {
      InsertEvolvesParams(t, op, k);
    } else if Deletes(op) {
      DeleteEvolvesParams(t, op, k);
    } else {
      OtherEvolvesParams(t, op, k);
    }
  }

  lemma NoParamsNoUse(t: Tables, op: Op, k: int)
    requires k !in t.params
    ensures !Uses(t, op, k)
  {
    if op == UpdateUsageCount(k) {
      UpdateSucceedsExactly(t, k);
    }
    hide Apply;
  }

  /** How often the first `n` transactions of a run used the key. */
  ghost function UseCount(states: seq<Tables>, ops: seq<Op>, k: int, n: nat): nat
    requires |states| == |ops| + 1 && n <= |ops|
  {
    if n == 0 then 0
    else UseCount(states, ops, k, n - 1) + if Uses(states[n - 1], ops[n - 1], k) then 1 else 0
  }

  /** While the key is there its counter shows the uses left, and it is deleted with the last one. */
  lemma {:induction false} UsesLeft(states: seq<Tables>, ops: seq<Op>, k: int, limit: int, n: nat)
    requires IsRun(states, ops) && NotRedrawn(ops, 0, k)
    requires Inv(states[0]) && k in states[0].params && UsageLimit(states[0].params[k]) == Some(limit) && limit >= 1
    requires n <= |ops|
    ensures UseCount(states, ops, k, n) <= limit
    ensures k in states[n].params ==> UseCount(states, ops, k, n) < limit && UsageLimit(states[n].params[k]) == Some(limit - UseCount(states, ops, k, n))
    ensures k !in states[n].params ==> k !in states[n].keys
  {
    hide Inv, Legal, Decremented, UsageLimit, Apply, Uses;
    if n > 0 {
      UsesLeft(states, ops, k, limit, n - 1);
      var t, op := states[n - 1], ops[n - 1];
      ApplyEvolvesParams(t, op, k);
      ApplyAges(t, op, k);
      if k in t.params {
        DecrementedLimit(t.params[k]);
      } else {
        NoParamsNoUse(t, op, k);
      }
    }
  }

  /** Transaction `i` deletes the key, and is not a use of it. */
  ghost predicate RemovedOtherwise(states: seq<Tables>, ops: seq<Op>, k: int, i: nat)
    requires |states| == |ops| + 1
  {
    i < |ops| && ops[i] != UpdateUsageCount(k) && k in states[i].params && k !in states[i + 1].params
  }

  /** How many of the first `n` transactions try to use the key. */
  function Tries(ops: seq<Op>, k: int, n: nat): nat
    requires n <= |ops|
  {
    if n == 0 then 0 else Tries(ops, k, n - 1) + if ops[n - 1] == UpdateUsageCount(k) then 1 else 0
  }

  /** Only the last use or another transaction removes the key, and until then every try succeeds. */
  lemma {:induction false} GoneOnlyByLastUse(states: seq<Tables>, ops: seq<Op>, k: int, limit: int, n: nat)
    requires IsRun(states, ops) && NotRedrawn(ops, 0, k)
    requires Inv(states[0]) && k in states[0].params && UsageLimit(states[0].params[k]) == Some(limit) && limit >= 1
    requires n <= |ops|
    ensures k in states[n].params ==> UseCount(states, ops, k, n) == Tries(ops, k, n)
    ensures k !in states[n].params ==>
      (UseCount(states, ops, k, n) == limit <= Tries(ops, k, n)) || exists i :: 0 <= i < n && RemovedOtherwise(states, ops, k, i)
  {
    hide Inv, Legal, Decremented, UsageLimit, Apply, Uses;
    if n > 0 {
      GoneOnlyByLastUse(states, ops, k, limit, n - 1);
      UsesLeft(states, ops, k, limit, n - 1);
      var t, op := states[n - 1], ops[n - 1];
      ApplyEvolvesParams(t, op, k);
      if k in t.params {
        TryIsUse(t, op, k);
        if k !in states[n].params && op != UpdateUsageCount(k) {
          assert RemovedOtherwise(states, ops, k, n - 1);
        }
      } else {
        NoParamsNoUse(t, op, k);
      }
    }
  }

  /** While a use is left, every try succeeds. */
  lemma TryIsUse(t: Tables, op: Op, k: int)
    requires k in t.params && UsageLimit(t.params[k]) !in {None, Some(0)}
    ensures Uses(t, op, k) <==> op == UpdateUsageCount(k)
  {
    if op == UpdateUsageCount(k) {
      UpdateSucceedsExactly(t, k);
    }
    hide Apply;
  }

  /**
    A key stored with usage limit N allows at most N successful updates in any interleaving of
    transactions, and exactly N if nothing else removes it: as many tries succeed as are made, up
    to N. After the Nth, its entry, parameters, metadata and grants are gone and every later update
    fails with INVALID_KEY_BLOB.
   */
  lemma LimitedUse(states: seq<Tables>, ops: seq<Op>, k: int, limit: int, n: nat)
    requires IsRun(states, ops) && NotRedrawn(ops, 0, k)
    requires Inv(states[0]) && k in states[0].params && UsageLimit(states[0].params[k]) == Some(limit) && limit >= 1
    requires n <= |ops|
    ensures UseCount(states, ops, k, n) <= limit
    ensures UseCount(states, ops, k, n) == (if Tries(ops, k, n) < limit then Tries(ops, k, n) else limit)
      || exists i :: 0 <= i < n && RemovedOtherwise(states, ops, k, i)
    ensures k !in states[n].params ==> UseCount(states, ops, k, n) == limit || exists i :: 0 <= i < n && RemovedOtherwise(states, ops, k, i)
    ensures Apply(states[n], UpdateUsageCount(k)).error == if k in states[n].params then None else Some(InvalidKeyBlob)
    ensures UseCount(states, ops, k, n) == limit || k !in states[n].params ==> Vanished(states[n], k)
  {
    UsesLeft(states, ops, k, limit, n);
    GoneOnlyByLastUse(states, ops, k, limit, n);
    RunKeepsInv(states, ops, n);
    hide Legal, Apply, Inv, NotRedrawn, IsRun, RemovedOtherwise;
    UpdateSucceedsExactly(states[n], k);
    if k !in states[n].keys {
      AbsentIsVanished(states[n], k);
    }
  }

  lemma UpdateSucceedsExactly(t: Tables, k: int)
    ensures Apply(t, UpdateUsageCount(k)).error == if UsageLimit(ParamsOf(t, k)) in {None, Some(0)} then Some(InvalidKeyBlob) else None
  {
    hide UsageLimit, Decremented;
  }

  lemma AbsentIsVanished(t: Tables, k: int)
    requires Inv(t) && k !in t.keys
    ensures Vanished(t, k)
  {
  }

  ghost predicate Vanished(t: Tables, k: int) {
    && k !in t.keys && k !in t.params && k !in t.keyMeta
    && forall g :: g in t.grants ==> t.grants[g].keyId != k
  }
}
