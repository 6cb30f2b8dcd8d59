/** Every transaction keeps the table invariants. */
module TableInvariants {
  import opened Prelude
  import opened Tables
  import opened Transactions

  lemma AddKeyKeepsInv(t: Tables, id: int, row: KeyRow)
    requires Inv(t)
    requires id !in t.keys && id != UNASSIGNED_KEY_ID
    requires row.domain.Some? && row.nspace.Some?
    requires row.alias.None? || row.keyType == Super
    ensures Inv(AddKey(t, id, row))
  {
    var u := AddKey(t, id, row);
    assert forall i, j :: i in u.keys && j in u.keys && Collide(u.keys[i], u.keys[j]) ==> i in t.keys && j in t.keys;
  }

  lemma AddBlobKeepsInv(t: Tables, keyId: int, sub: SubComponent, blob: Bytes, meta: Option<Meta>)
    requires Inv(t)
    requires meta.Some? ==> sub == KeyBlob
    ensures Inv(AddBlob(t, keyId, sub, blob, meta))
  {
    assert NextBlobId(t.blobs) !in t.blobs;
  }

  lemma DeleteKeysKeepsInv(t: Tables, ids: set<int>)
    requires Inv(t)
    ensures Inv(DeleteKeys(t, ids))
  {
    var u := DeleteKeys(t, ids);
    assert forall g :: g in u.grants ==> g in t.grants && u.grants[g] == t.grants[g];
  }

  lemma RebindKeepsAliasesUnique(t: Tables, newId: int, alias: string, domain: Domain, nspace: int, kt: KeyType)
    requires UniqueAliases(t.keys)
    requires Rebindable(t, newId, alias, domain, nspace, kt)
    ensures UniqueAliases(Rebind(t, newId, alias, domain, nspace, kt).keys)
  {
    var keys := Rebind(t, newId, alias, domain, nspace, kt).keys;
    forall i, j | i in keys && j in keys && Collide(keys[i], keys[j])
      ensures i == j
    {
      assert i != newId ==> i !in RowsAt(t, kt, domain, nspace, alias) && keys[i] == t.keys[i];
      assert j != newId ==> j !in RowsAt(t, kt, domain, nspace, alias) && keys[j] == t.keys[j];
    }
  }

  lemma RebindKeepsInv(t: Tables, newId: int, alias: string, domain: Domain, nspace: int, kt: KeyType)
    requires Inv(t)
    requires Rebindable(t, newId, alias, domain, nspace, kt)
    ensures Inv(Rebind(t, newId, alias, domain, nspace, kt))
  {
    RebindKeepsAliasesUnique(t, newId, alias, domain, nspace, kt);
  }

  /** Inserting blobs touches no table but the two blob tables. */
  lemma InsertBlobsFrame(t: Tables, n: NewKey)
    ensures OnlyBlobsDiffer(t, InsertBlobs(t, n))
  {
    var t1 := if n.superseded.Some?
              then AddBlob(t, n.id, KeyBlob, n.superseded.value.0, Some(n.superseded.value.1)) else t;
    var t2 := AddBlob(t1, n.id, KeyBlob, n.blob, Some(n.meta));
    var t3 := AddBlobIfAny(t2, n.id, Cert, n.cert);
    if n.superseded.Some? {
      AddBlobFrame(t, n.id, KeyBlob, n.superseded.value.0, Some(n.superseded.value.1));
    }
    AddBlobFrame(t1, n.id, KeyBlob, n.blob, Some(n.meta));
    if n.cert.Some? {
      AddBlobFrame(t2, n.id, Cert, n.cert.value, None);
    }
    if n.certChain.Some? {
      AddBlobFrame(t3, n.id, CertChain, n.certChain.value, None);
    }
    hide AddBlob;
  }

  predicate OnlyBlobsDiffer(t: Tables, u: Tables) {
    t.keys == u.keys && t.params == u.params && t.keyMeta == u.keyMeta && t.grants == u.grants
  }

  lemma AddBlobFrame(t: Tables, keyId: int, sub: SubComponent, blob: Bytes, meta: Option<Meta>)
    ensures OnlyBlobsDiffer(t, AddBlob(t, keyId, sub, blob, meta))
  {
  }

  lemma InsertBlobsKeepsInv(t: Tables, n: NewKey)
    requires Inv(t)
    ensures Inv(InsertBlobs(t, n))
  {
    var t1 := t;
    if n.superseded.Some? {
      AddBlobKeepsInv(t, n.id, KeyBlob, n.superseded.value.0, Some(n.superseded.value.1));
      t1 := AddBlob(t, n.id, KeyBlob, n.superseded.value.0, Some(n.superseded.value.1));
    }
    AddBlobKeepsInv(t1, n.id, KeyBlob, n.blob, Some(n.meta));
    var t2 := AddBlob(t1, n.id, KeyBlob, n.blob, Some(n.meta));
    if n.cert.Some? {
      AddBlobKeepsInv(t2, n.id, Cert, n.cert.value, None);
    }
    var t3 := AddBlobIfAny(t2, n.id, Cert, n.cert);
    if n.certChain.Some? {
      AddBlobKeepsInv(t3, n.id, CertChain, n.certChain.value, None);
    }
  }

  lemma PopulateKeepsInv(t: Tables, key: Descriptor, n: NewKey)
    requires Inv(t)
    requires n.id !in t.keys && n.id != UNASSIGNED_KEY_ID
    requires StorableAs(key)
    ensures Inv(Populate(t, key, n))
    ensures Rebindable(Populate(t, key, n), n.id, key.alias.value, key.domain, key.nspace, n.kt)
  {
    var row := NewEntry(n.kt, key.domain, key.nspace, None, Existing, n.kmUuid);
    AddKeyKeepsInv(t, n.id, row);
    InsertBlobsKeepsInv(AddKey(t, n.id, row), n);
    InsertBlobsFrame(AddKey(t, n.id, row), n);
  }

  lemma PopulateCertificateKeepsInv(t: Tables, key: Descriptor, id: int, kt: KeyType, chain: Bytes, keyMeta: Meta, kmUuid: int)
    requires Inv(t)
    requires id !in t.keys && id != UNASSIGNED_KEY_ID
    requires StorableAs(key)
    ensures Inv(PopulateCertificate(t, key, id, kt, chain, keyMeta, kmUuid))
    ensures Rebindable(PopulateCertificate(t, key, id, kt, chain, keyMeta, kmUuid), id, key.alias.value, key.domain, key.nspace, kt)
  {
    var row := NewEntry(kt, key.domain, key.nspace, None, Existing, kmUuid);
    AddKeyKeepsInv(t, id, row);
    AddBlobKeepsInv(AddKey(t, id, row), id, CertChain, chain, None);
  }

  lemma NewSuperKeyKeepsInv(t: Tables, id: int, row: KeyRow, keyMeta: Option<Meta>, blob: Bytes, meta: Meta)
    requires Inv(t)
    requires id !in t.keys && id != UNASSIGNED_KEY_ID
    requires row.domain.Some? && row.nspace.Some? && row.keyType == Super
    ensures var t1 := AddKey(t, id, row);
      var t2 := if keyMeta.Some? then t1.(keyMeta := t1.keyMeta[id := MetaOf(t1.keyMeta, id) + keyMeta.value]) else t1;
      Inv(AddBlob(t2, id, KeyBlob, blob, Some(meta)))
  {
    AddKeyKeepsInv(t, id, row);
    var t1 := AddKey(t, id, row);
    var t2 := if keyMeta.Some? then t1.(keyMeta := t1.keyMeta[id := MetaOf(t1.keyMeta, id) + keyMeta.value]) else t1;
    AddBlobKeepsInv(t2, id, KeyBlob, blob, Some(meta));
  }

  lemma MigrateKeepsInv(t: Tables, k: int, key: Descriptor, uid: int, allowed: bool)
    requires Inv(t)
    ensures Inv(MigrateOutcome(t, k, key, uid, allowed).tables)
  {
  }

  lemma GrantKeepsInv(t: Tables, id: int, key: Descriptor, uid: int, grantee: int, access: int, allowed: bool)
    requires Inv(t)
    requires id !in t.grants
    ensures Inv(GrantOutcome(t, id, key, uid, grantee, access, allowed).tables)
  {
    var o := GrantOutcome(t, id, key, uid, grantee, access, allowed);
    if o.error.None? {
      var k := LoadAccessTuple(t, key, Client, uid).value.keyId;
      var u := o.tables;
      assert forall g :: g in t.grants && SameGrant(t.grants[g], GrantRow(grantee, k, access)) ==> g in GrantsOf(t, k, grantee);
    }
  }

  lemma CollectKeepsInv(t: Tables, done: seq<int>, batch: seq<int>)
    requires Inv(t)
    ensures Inv(Collect(t, done, batch))
  {
    var t1 := PurgeBlobs(t, Elements(done));
    DeleteKeysKeepsInv(t1, UnreferencedKeys(t1));
    var u := Swept(t, done);
    assert forall b :: b in OtherGarbage(u) ==> u.blobs[b].sub != KeyBlob;
  }

  lemma InsertKeepsInv(t: Tables, op: Op)
    requires Inv(t) && Legal(t, op)
    requires Created(op).Some? && Apply(t, op).error.None?
    ensures Inv(Apply(t, op).tables)
  {
    hide Inv, Rebind, Rebindable, Populate, PopulateCertificate, AddBlob, AddKey, MetaOf, RowsAt;
    match op
    case CreateKeyEntry(id, domain, nspace, kt, kmUuid) =>
      AddKeyKeepsInv(t, id, NewEntry(kt, domain, nspace, None, Existing, kmUuid));
    case StoreNewKey(key, n) =>
      PopulateKeepsInv(t, key, n);
      RebindKeepsInv(Populate(t, key, n), n.id, key.alias.value, key.domain, key.nspace, n.kt);
    case StoreNewCertificate(key, id, kt, chain, keyMeta, kmUuid) =>
      PopulateCertificateKeepsInv(t, key, id, kt, chain, keyMeta, kmUuid);
      RebindKeepsInv(PopulateCertificate(t, key, id, kt, chain, keyMeta, kmUuid), id, key.alias.value, key.domain, key.nspace, kt);
    case StoreSuperKey(id, user, alias, blob, meta, keyMeta) =>
      NewSuperKeyKeepsInv(t, id, NewEntry(Super, App, user, Some(alias), Live, KEYSTORE_UUID), Some(keyMeta), blob, meta);
    case GetOrCreateKey(id, domain, nspace, alias, kmUuid, blob, meta) =>
      NewSuperKeyKeepsInv(t, id, NewEntry(Super, domain, nspace, Some(alias), Live, kmUuid), None, blob, meta);
  }

  lemma DeleteKeepsInv(t: Tables, op: Op)
    requires Inv(t) && Legal(t, op)
    requires op.UpdateUsageCount? || op.UnbindKey? || op.UnbindNamespace? || op.UnbindUser? || op.CollectGarbage?
    requires Apply(t, op).error.None?
    ensures Inv(Apply(t, op).tables)
  {
    match op
    case UpdateUsageCount(k) =>
      DeleteKeysKeepsInv(t, {k});
    case UnbindKey(key, kt, uid, allowed) =>
      DeleteKeysKeepsInv(t, {LoadAccessTuple(t, key, kt, uid).value.keyId});
    case UnbindNamespace(domain, nspace) =>
      DeleteKeysKeepsInv(t, KeysOfNamespace(t, domain, nspace));
    case UnbindUser(user, keep) =>
      DeleteKeysKeepsInv(t, KeysOfUser(t, user, keep));
    case CollectGarbage(done, batch) =>
      CollectKeepsInv(t, done, batch);
  }

  lemma CleanupKeepsInv(t: Tables)
    requires Inv(t)
    ensures Inv(Apply(t, CleanupLeftovers).tables)
  {
    var u := Apply(t, CleanupLeftovers).tables;
    assert forall i, j :: i in u.keys && j in u.keys && Collide(u.keys[i], u.keys[j]) ==> Collide(t.keys[i], t.keys[j]);
  }

  lemma UngrantKeepsInv(t: Tables, key: Descriptor, uid: int, grantee: int, allowed: bool)
    requires Inv(t)
    ensures Inv(Apply(t, Ungrant(key, uid, grantee, allowed)).tables)
  {
    hide LoadAccessTuple;
  }

  lemma EditKeepsInv(t: Tables, op: Op)
    requires Inv(t) && Legal(t, op)
    requires op.SetBlob? || op.SetDeletedBlob? || op.MigrateKeyNamespace? || op.Grant?
    ensures Inv(Apply(t, op).tables)
  {
    hide Inv, AddBlob, MigrateOutcome, GrantOutcome;
    match op
    case SetBlob(keyId, sub, content, meta) =>
      if content.Some? {
        AddBlobKeepsInv(t, keyId, sub, content.value, meta);
      } else {
        DropBlobsKeepsInv(t, keyId, sub, meta);
      }
    case SetDeletedBlob(blob, meta) =>
      AddBlobKeepsInv(t, UNASSIGNED_KEY_ID, KeyBlob, blob, Some(meta));
    case MigrateKeyNamespace(k, key, uid, allowed) =>
      MigrateKeepsInv(t, k, key, uid, allowed);
    case Grant(id, key, uid, grantee, access, allowed) =>
      GrantKeepsInv(t, id, key, uid, grantee, access, allowed);
  }

  lemma DropBlobsKeepsInv(t: Tables, keyId: int, sub: SubComponent, meta: Option<Meta>)
    requires Inv(t)
    ensures Inv(SetBlobOutcome(t, keyId, sub, None, meta).tables)
  {
  }

  lemma FailureChangesNothing(t: Tables, op: Op)
    requires Apply(t, op).error.Some?
    ensures Apply(t, op).tables == t
  {
    hide LoadAccessTuple;
  }

  /** One transaction, whatever its arguments and whether or not it succeeds. */
  lemma ApplyKeepsInv(t: Tables, op: Op)
    requires Inv(t) && Legal(t, op)
    ensures Inv(Apply(t, op).tables)
  {
    hide Inv, Legal, Apply;
    if Apply(t, op).error.Some? {
      FailureChangesNothing(t, op);
    } else if op.SetBlob? || op.SetDeletedBlob? || op.MigrateKeyNamespace? || op.Grant? {
      EditKeepsInv(t, op);
    } else if op.Ungrant? {
      UngrantKeepsInv(t, op.key, op.uid, op.grantee, op.allowed);
    } else if op.CleanupLeftovers? {
      CleanupKeepsInv(t);
    } else if Created(op).Some? {
      InsertKeepsInv(t, op);
    } else {
      DeleteKeepsInv(t, op);
    }
  }

  // ---------------------------------------------------------------------------------------------
  // Whole runs

  /** A run of transactions by any number of connections: `states[i + 1]` is `states[i]` after `ops[i]`. */
  ghost predicate IsRun(states: seq<Tables>, ops: seq<Op>) {
    && |states| == |ops| + 1
    && forall i :: 0 <= i < |ops| ==> Legal(states[i], ops[i]) && states[i + 1] == Apply(states[i], ops[i]).tables
  }

  /** Every state of every run from tables that satisfy the invariants satisfies them. */
  lemma {:induction false} RunKeepsInv(states: seq<Tables>, ops: seq<Op>, n: nat)
    requires IsRun(states, ops) && Inv(states[0])
    requires n <= |ops|
    ensures Inv(states[n])
  {
    if n > 0 {
      RunKeepsInv(states, ops, n - 1);
      ApplyKeepsInv(states[n - 1], ops[n - 1]);
    }
  }

  /** The tables of a fresh installation satisfy the invariants. */
  lemma EmptyIsGood()
    ensures Inv(EMPTY) && Clean(EMPTY)
  {
  }
}
