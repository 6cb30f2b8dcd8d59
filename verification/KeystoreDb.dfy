/**
  `KeystoreDB`: the transactions as code that edits the tables statement by statement. Each method
  is tied to the effect that `Transactions` states for it.
 */
module KeystoreDb {
  import opened Prelude
  import opened Tables
  import opened Transactions
  import opened TableInvariants
  import opened Alphabetical

  class KeystoreDB {
    var keys: map<int, KeyRow>
    var blobs: map<int, BlobRow>
    var blobMeta: map<int, Meta>
    var params: map<int, seq<Param>>
    var keyMeta: map<int, Meta>
    var grants: map<int, GrantRow>

    function Model(): Tables
      reads this
    {
      Tables(keys, blobs, blobMeta, params, keyMeta, grants)
    }

    constructor ()
      ensures Model() == EMPTY
    {
      keys, blobs, blobMeta, params, keyMeta, grants := map[], map[], map[], map[], map[], map[];
    }

    /** Undo whatever a failed transaction body did. */
    method Restore(t: Tables)
      modifies this
      ensures Model() == t
    {
      keys, blobs, blobMeta, params, keyMeta, grants := t.keys, t.blobs, t.blobMeta, t.params, t.keyMeta, t.grants;
    }

    /** Insert a blob and attach metadata to the row with the largest id, which is the new one. */
    method SetBlobInternal(keyId: int, sub: SubComponent, content: Option<Bytes>, meta: Option<Meta>)
      returns (error: Option<Error>)
      modifies this`blobs, this`blobMeta
      ensures Outcome(Model(), content.Some? || sub != KeyBlob, error) == SetBlobOutcome(old(Model()), keyId, sub, content, meta)
    {
      if content.Some? {
        blobs := blobs[NextBlobId(blobs) := BlobRow(sub, keyId, content.value)];
        if meta.Some? {
          assert NextBlobId(old(blobs)) in blobs.Keys;
          var blobId := Max(blobs.Keys);
          assert blobId == NextBlobId(old(blobs));
          blobMeta := blobMeta[blobId := MetaOf(blobMeta, blobId) + meta.value];
        }
        return None;
      } else if sub == KeyBlob {
        return Some(SystemError);
      }
      var superfluous := set b | b in blobs && blobs[b].sub == sub && blobs[b].keyId == keyId;
      assert superfluous == BlobsOf(Model(), keyId, sub);
      blobs := blobs - superfluous;
      return None;
    }

    method MarkUnreferenced(keyId: int) returns (updated: bool)
      modifies this`keys, this`keyMeta, this`params, this`grants
      ensures Model() == DeleteKeys(old(Model()), {keyId})
      ensures updated == (keyId in old(keys))
    {
      updated := keyId in keys;
      keys := keys - {keyId};
      keyMeta := keyMeta - {keyId};
      params := params - {keyId};
      grants := map g | g in grants && grants[g].keyId != keyId :: grants[g];
    }

    /** Two updates: retire the holders of the alias, then bind it to the new entry. */
    method RebindAlias(newId: int, alias: string, domain: Domain, nspace: int, kt: KeyType)
      returns (r: Result<bool, Error>)
      modifies this`keys
      ensures r.Ok? <==> Bindable(domain) && Rebindable(old(Model()), newId, alias, domain, nspace, kt)
      ensures r.Ok? ==> Model() == Rebind(old(Model()), newId, alias, domain, nspace, kt)
      ensures r.Ok? ==> r.value == (RowsAt(old(Model()), kt, domain, nspace, alias) != {})
    {
      if !Bindable(domain) {
        return Err(SystemError);
      }
      ghost var t := Model();
      var holders := RowsAt(Model(), kt, domain, nspace, alias);
      keys := RetireRows(keys, holders);
      var mine := set k | k in keys && k == newId && Claimable(keys[k], domain, nspace, kt);
      keys := BindRows(keys, mine, alias);
      TwoUpdatesRebind(t, newId, alias, domain, nspace, kt);
      if |mine| != 1 {
        return Err(SystemError);
      }
      return Ok(holders != {});
    }

    method CreateKeyEntryInternal(id: int, domain: Domain, nspace: int, kt: KeyType, kmUuid: int)
      returns (error: Option<Error>)
      requires id !in keys && id != UNASSIGNED_KEY_ID
      modifies this`keys
      ensures error.None? <==> Bindable(domain)
      ensures error.None? ==> Model() == AddKey(old(Model()), id, NewEntry(kt, domain, nspace, None, Existing, kmUuid))
      ensures error.Some? ==> Model() == old(Model())
    {
      if !Bindable(domain) {
        return Some(SystemError);
      }
      keys := keys[id := KeyRow(kt, Some(domain), Some(nspace), None, Existing, kmUuid)];
      return None;
    }

    method InsertKeyParameters(id: int, ps: seq<Param>)
      modifies this`params
      ensures Model() == old(Model()).(params := old(params)[id := ParamsOf(old(Model()), id) + ps])
    {
      var i := 0;
      ghost var before := ParamsOf(Model(), id);
      params := params[id := ParamsOf(Model(), id)];
      assert before + ps[..0] == before;
      while i < |ps|
        invariant 0 <= i <= |ps|
        invariant params == old(params)[id := before + ps[..i]]
      {
        params := params[id := params[id] + [ps[i]]];
        i := i + 1;
        assert before + ps[..i] == before + ps[..i - 1] + [ps[i - 1]];
      }
      assert ps[..|ps|] == ps;
    }

    /** The blob inserts of `store_new_key`, in their order. */
    method InsertNewBlobs(n: NewKey)
      modifies this`blobs, this`blobMeta
      ensures Model() == InsertBlobs(old(Model()), n)
    {
      var e: Option<Error>;
      if n.superseded.Some? {
        e := SetBlobInternal(n.id, KeyBlob, Some(n.superseded.value.0), Some(n.superseded.value.1));
      }
      e := SetBlobInternal(n.id, KeyBlob, Some(n.blob), Some(n.meta));
      if n.cert.Some? {
        e := SetBlobInternal(n.id, Cert, n.cert, None);
      }
      if n.certChain.Some? {
        e := SetBlobInternal(n.id, CertChain, n.certChain, None);
      }
    }

    method StoreNewKey(key: Descriptor, n: NewKey) returns (needGc: bool, error: Option<Error>)
      requires n.id !in keys && n.id != UNASSIGNED_KEY_ID
      modifies this
      ensures Outcome(Model(), needGc, error) == Apply(old(Model()), Op.StoreNewKey(key, n))
    {
      if !(key.alias.Some? && Bindable(key.domain) && key.blob.None?) {
        return false, Some(InvalidArgument);
      }
      ghost var t := Model();
      error := CreateKeyEntryInternal(n.id, key.domain, key.nspace, n.kt, n.kmUuid);
      ghost var t1 := Model();
      InsertNewBlobs(n);
      InsertKeyParameters(n.id, n.params);
      keyMeta := keyMeta[n.id := MetaOf(keyMeta, n.id) + n.keyMeta];
      assert Model() == Populate(t, key, n);
      PopulatedKeys(t, key, n);
      var replaced := RebindAlias(n.id, key.alias.value, key.domain, key.nspace, n.kt);
      return replaced.value || n.superseded.Some?, None;
    }

    /** The deletions of the collector's transaction, one blob at a time. */
    method DeleteBlobs(ids: seq<int>)
      modifies this`blobs, this`blobMeta
      ensures Model() == PurgeBlobs(old(Model()), Elements(ids))
    {
      var i := 0;
      while i < |ids|
        invariant 0 <= i <= |ids|
        invariant Model() == PurgeBlobs(old(Model()), Elements(ids[..i]))
      {
        blobMeta := blobMeta - {ids[i]};
        blobs := blobs - {ids[i]};
        i := i + 1;
        assert Elements(ids[..i]) == Elements(ids[..i - 1]) + {ids[i - 1]};
      }
      assert ids[..|ids|] == ids;
    }

    method DeleteUnreferencedKeys()
      modifies this`keys, this`keyMeta, this`params, this`grants
      ensures Model() == CleanupUnreferenced(old(Model()))
    {
      var ids := set k | k in keys && keys[k].state == Unreferenced;
      keyMeta := keyMeta - ids;
      params := params - ids;
      grants := map g | g in grants && grants[g].keyId !in ids :: grants[g];
      keys := keys - ids;
    }

    /** Up to `limit` superseded key blobs, in whatever order the query yields them. */
    method SelectSuperseded(limit: nat) returns (batch: seq<int>)
      requires limit == GC_BATCH
      ensures ValidBatch(Model(), batch)
    {
      var all := GarbageKeyBlobs(Model());
      var rest := all;
      batch := [];
      while |batch| < limit && rest != {}
        invariant Distinct(batch) && rest == all - Elements(batch) && Elements(batch) <= all
        invariant |rest| == |all| - |batch| && |batch| <= limit
        decreases |rest|
      {
        ghost var p := Pick(rest);
        var b :| b in rest;
        batch := batch + [b];
        rest := rest - {b};
      }
    }

    /** Delete what was handled, clean up, and return the next superseded blobs or purge the rest. */
    method HandleNextSupersededBlobs(done: seq<int>) returns (result: seq<Entry>)
      modifies this
      ensures ValidBatch(Swept(old(Model()), done), Ids(result))
      ensures Model() == Collect(old(Model()), done, Ids(result))
      ensures forall e :: e in result ==> ReadFrom(Swept(old(Model()), done), e)
    {
      DeleteBlobs(done);
      DeleteUnreferencedKeys();
      assert Model() == Swept(old(Model()), done);
      var batch := SelectSuperseded(GC_BATCH);
      assert forall i :: 0 <= i < |batch| ==> batch[i] in Elements(batch);
      result := Entries(Model(), batch);
      if result == [] {
        var other := OtherGarbage(Model());
        blobs := blobs - other;
      }
    }

    /** Each key of the user is looked at in turn, and deleted unless it is spared. */
    method UnbindKeysForUser(user: int, keepNonSuperEncrypted: bool) returns (notifyGc: bool)
      modifies this`keys, this`keyMeta, this`params, this`grants
      ensures Outcome(Model(), notifyGc, None) == Apply(old(Model()), UnbindUser(user, keepNonSuperEncrypted))
    {
      hide NotSuperEncrypted, CandidatesOfUser, DeleteKeys;
      ghost var t := Model();
      ghost var unwanted := KeysOfUser(t, user, keepNonSuperEncrypted);
      var todo := CandidatesOfUser(Model(), user);
      ghost var removed: set<int> := {};
      notifyGc := false;
      DeleteNone(t);
      CandidatesAreKeys(t, user);
      while todo != {}
        invariant todo <= CandidatesOfUser(t, user) && todo !! removed
        invariant removed <= unwanted <= removed + todo
        invariant Model() == DeleteKeys(t, removed)
        invariant notifyGc == (removed != {})
        decreases |todo|
      {
        ghost var p := Pick(todo);
        var k :| k in todo;
        todo := todo - {k};
        KeysLeft(t, removed);
        SameBlobsSameSparing(t, Model(), k);
        if !(keepNonSuperEncrypted && NotSuperEncrypted(Model(), k)) {
          DeleteOneMore(t, removed, k);
          var updated := MarkUnreferenced(k);
          notifyGc := updated || notifyGc;
          removed := removed + {k};
        }
      }
      assert removed == unwanted;
    }

    method CheckAndUpdateKeyUsageCount(k: int) returns (needGc: bool, error: Option<Error>)
      modifies this
      ensures Outcome(Model(), needGc, error) == UsageOutcome(old(Model()), k)
    {
      var before := Model();
      var limit := UsageLimit(ParamsOf(Model(), k));
      if limit.None? {
        return false, Some(InvalidKeyBlob);
      }
      if k in params {
        params := params[k := Decremented(params[k])];
      }
      if limit.value == 1 {
        needGc := MarkUnreferenced(k);
        assert params == old(params) - {k};
        return needGc, None;
      } else if limit.value == 0 {
        Restore(before);
        return false, Some(InvalidKeyBlob);
      }
      return false, None;
    }

    /** One pass over the newest row of each sub component the key has, keeping what was asked for. */
    method LoadBlobComponents(keyId: int, loadKm: bool, loadPublic: bool)
      returns (hasKmBlob: bool, keyBlob: Option<Component>, cert: Option<Component>, chain: Option<Component>)
      ensures hasKmBlob == LoadComponent(Model(), keyId, KeyBlob).Some?
      ensures keyBlob == if loadKm then LoadComponent(Model(), keyId, KeyBlob) else None
      ensures cert == if loadPublic then LoadComponent(Model(), keyId, Cert) else None
      ensures chain == if loadPublic then LoadComponent(Model(), keyId, CertChain) else None
    {
      hide LoadComponent;
      hasKmBlob, keyBlob, cert, chain := false, None, None, None;
      var groups := set s: SubComponent | BlobsOf(Model(), keyId, s) != {};
      ghost var t := Model();
      assert forall s :: s in groups <==> LoadComponent(t, keyId, s).Some?;
      while groups != {}
        invariant forall s :: s in groups ==> LoadComponent(t, keyId, s).Some?
        invariant hasKmBlob == (LoadComponent(t, keyId, KeyBlob).Some? && KeyBlob !in groups)
        invariant keyBlob == if loadKm && KeyBlob !in groups then LoadComponent(t, keyId, KeyBlob) else None
        invariant cert == if loadPublic && Cert !in groups then LoadComponent(t, keyId, Cert) else None
        invariant chain == if loadPublic && CertChain !in groups then LoadComponent(t, keyId, CertChain) else None
        decreases |groups|
      {
        var s :| s in groups;
        groups := groups - {s};
        hasKmBlob := hasKmBlob || s == KeyBlob;
        var c := LoadComponent(Model(), keyId, s);
        match s
        case KeyBlob => if loadKm { keyBlob := c; }
        case Cert => if loadPublic { cert := c; }
        case CertChain => if loadPublic { chain := c; }
      }
    }

    method MigrateKeyNamespace(keyId: int, destination: Descriptor, callerUid: int, allowed: bool)
      returns (error: Option<Error>)
      modifies this`keys
      ensures Outcome(Model(), false, error) == MigrateOutcome(old(Model()), keyId, destination, callerUid, allowed)
    {
      var nspace := destination.nspace;
      match destination.domain {
        case App => nspace := callerUid;
        case SeLinux =>
        case _ => return Some(InvalidArgument);
      }
      if !allowed {
        return Some(PermissionDenied);
      }
      if destination.alias.None? {
        return Some(InvalidArgument);
      }
      var occupied := set k | k in keys && At(keys[k], destination.domain, nspace, destination.alias.value);
      if occupied != {} {
        ghost var k := Pick(occupied);
        assert k in keys && At(keys[k], destination.domain, nspace, destination.alias.value);
        return Some(InvalidArgument);
      }
      assert forall k :: k in keys ==> k !in occupied;
      if keyId !in keys {
        return Some(SystemError);
      }
      keys := keys[keyId := keys[keyId].(alias := destination.alias, domain := Some(destination.domain), nspace := Some(nspace))];
      return None;
    }

    /** Rows that refer to the keys go first, while the keys can still be selected. */
    method UnbindKeysForNamespace(domain: Domain, nspace: int) returns (needGc: bool, error: Option<Error>)
      modifies this
      ensures Outcome(Model(), needGc, error) == Apply(old(Model()), UnbindNamespace(domain, nspace))
    {
      if !(domain == App || domain == SeLinux) {
        return false, Some(InvalidArgument);
      }
      keyMeta := keyMeta - KeysOfNamespace(Model(), domain, nspace);
      params := params - KeysOfNamespace(Model(), domain, nspace);
      grants := map g | g in grants && grants[g].keyId !in KeysOfNamespace(Model(), domain, nspace) :: grants[g];
      keys := keys - KeysOfNamespace(Model(), domain, nspace);
      return true, None;
    }

    /** The row selection shared by listing and counting. */
    function LiveKeys(domain: Domain, nspace: int, kt: KeyType): set<int>
      reads this
    {
      set k | k in keys && keys[k].domain == Some(domain) && keys[k].nspace == Some(nspace)
        && keys[k].alias.Some? && keys[k].state == Live && keys[k].keyType == kt
    }

    function AliasesPast(domain: Domain, nspace: int, kt: KeyType, start: Option<string>): set<string>
      reads this
    {
      set k | k in LiveKeys(domain, nspace, kt) && (start.Some? ==> Less(start.value, keys[k].alias.value)) :: keys[k].alias.value
    }

    /** The distinct aliases past the given one, in increasing order. */
    method ListPastAlias(domain: Domain, nspace: int, kt: KeyType, start: Option<string>) returns (r: seq<string>)
      ensures Elements(r) == AliasesPast(domain, nspace, kt, start) && Sorted(r)
      ensures |r| == |AliasesPast(domain, nspace, kt, start)|
    {
      SortedSeqIsSorted(AliasesPast(domain, nspace, kt, start));
      r := SortedSeq(AliasesPast(domain, nspace, kt, start));
    }

    method CountKeys(domain: Domain, nspace: int, kt: KeyType) returns (n: nat)
      ensures n == |LiveKeys(domain, nspace, kt)|
    {
      n := 0;
      var rest := LiveKeys(domain, nspace, kt);
      while rest != {}
        invariant n + |rest| == |LiveKeys(domain, nspace, kt)|
        decreases |rest|
      {
        ghost var p := Pick(rest);
        var k :| k in rest;
        rest := rest - {k};
        n := n + 1;
      }
    }
  }

  function RetireRows(keys: map<int, KeyRow>, ids: set<int>): map<int, KeyRow> {
    map k | k in keys :: if k in ids then Retired(keys[k]) else keys[k]
  }

  function BindRows(keys: map<int, KeyRow>, ids: set<int>, alias: string): map<int, KeyRow> {
    map k | k in keys :: if k in ids then keys[k].(alias := Some(alias), state := Live) else keys[k]
  }

  predicate Claimable(row: KeyRow, domain: Domain, nspace: int, kt: KeyType) {
    row.domain == Some(domain) && row.nspace == Some(nspace) && row.state == Existing && row.keyType == kt
  }

  lemma BoundAfterRetiring(t: Tables, newId: int, alias: string, domain: Domain, nspace: int, kt: KeyType)
    requires newId !in RowsAt(t, kt, domain, nspace, alias)
    ensures BindRows(RetireRows(t.keys, RowsAt(t, kt, domain, nspace, alias)), {newId}, alias) == Rebind(t, newId, alias, domain, nspace, kt).keys
  {
    hide RowsAt, Retired;
  }

  lemma ClaimableIsRebindable(t: Tables, newId: int, alias: string, domain: Domain, nspace: int, kt: KeyType)
    ensures
      var keys := RetireRows(t.keys, RowsAt(t, kt, domain, nspace, alias));
      newId in keys && Claimable(keys[newId], domain, nspace, kt) <==> Rebindable(t, newId, alias, domain, nspace, kt)
  {
  }

  /** Retiring the holders and then binding one entry is the rebinding, if an entry can be bound. */
  lemma TwoUpdatesRebind(t: Tables, newId: int, alias: string, domain: Domain, nspace: int, kt: KeyType)
    ensures
      var keys := RetireRows(t.keys, RowsAt(t, kt, domain, nspace, alias));
      var mine := set k | k in keys && k == newId && Claimable(keys[k], domain, nspace, kt);
      && (|mine| == 1 <==> Rebindable(t, newId, alias, domain, nspace, kt))
      && (|mine| == 1 ==> t.(keys := BindRows(keys, mine, alias)) == Rebind(t, newId, alias, domain, nspace, kt))
  {
    hide Claimable, Rebindable, RetireRows, BindRows;
    var keys := RetireRows(t.keys, RowsAt(t, kt, domain, nspace, alias));
    var mine := set k | k in keys && k == newId && Claimable(keys[k], domain, nspace, kt);
    ClaimableIsRebindable(t, newId, alias, domain, nspace, kt);
    if newId in keys && Claimable(keys[newId], domain, nspace, kt) {
      assert mine == {newId};
      RebindableIsNoHolder(t, newId, alias, domain, nspace, kt);
      BoundAfterRetiring(t, newId, alias, domain, nspace, kt);
    } else {
      assert mine == {};
    }
  }

  lemma RebindableIsNoHolder(t: Tables, newId: int, alias: string, domain: Domain, nspace: int, kt: KeyType)
    requires Rebindable(t, newId, alias, domain, nspace, kt)
    ensures newId !in RowsAt(t, kt, domain, nspace, alias)
  {
  }

  lemma DeleteNone(t: Tables)
    ensures DeleteKeys(t, {}) == t
  {
    assert t.keys - {} == t.keys && t.params - {} == t.params && t.keyMeta - {} == t.keyMeta;
  }

  lemma CandidatesAreKeys(t: Tables, user: int)
    ensures CandidatesOfUser(t, user) <= t.keys.Keys
  {
  }

  lemma KeysLeft(t: Tables, ids: set<int>)
    ensures DeleteKeys(t, ids).keys == t.keys - ids
    ensures DeleteKeys(t, ids).blobs == t.blobs && DeleteKeys(t, ids).blobMeta == t.blobMeta
  {
  }

  lemma DeleteOneMore(t: Tables, ids: set<int>, k: int)
    ensures DeleteKeys(DeleteKeys(t, ids), {k}) == DeleteKeys(t, ids + {k})
  {
  }

  /** For client keys, counting and listing without a start agree. */
  method CountAndList(db: KeystoreDB, domain: Domain, nspace: int) returns (n: nat, r: seq<string>)
    requires UniqueAliases(db.keys)
    ensures n == |r|
  {
    n := db.CountKeys(domain, nspace, Client);
    r := db.ListPastAlias(domain, nspace, Client, None);
    CountIsListLength(db, domain, nspace);
  }

  lemma CountIsListLength(db: KeystoreDB, domain: Domain, nspace: int)
    requires UniqueAliases(db.keys)
    ensures |db.LiveKeys(domain, nspace, Client)| == |db.AliasesPast(domain, nspace, Client, None)|
  {
    var keys := db.keys;
    var rows := db.LiveKeys(domain, nspace, Client);
    var alias := (k: int) => if k in keys && keys[k].alias.Some? then keys[k].alias.value else "";
    forall i, j | i in rows && j in rows && i != j
      ensures alias(i) != alias(j)
    {
      assert !Collide(keys[i], keys[j]);
    }
    InjectiveImageSize(rows, alias);
    assert Image(rows, alias) == db.AliasesPast(domain, nspace, Client, None);
  }

  /** So they agree on the tables of every state of every run. */
  lemma CountIsListLengthInRuns(db: KeystoreDB, states: seq<Tables>, ops: seq<Op>, n: nat, domain: Domain, nspace: int)
    requires IsRun(states, ops) && Inv(states[0]) && n <= |ops|
    requires db.Model() == states[n]
    ensures |db.LiveKeys(domain, nspace, Client)| == |db.AliasesPast(domain, nspace, Client, None)|
  {
    RunKeepsInv(states, ops, n);
    assert UniqueAliases(db.Model().keys);
    CountIsListLength(db, domain, nspace);
  }

  lemma PopulatedKeys(t: Tables, key: Descriptor, n: NewKey)
    requires StorableAs(key) && n.id !in t.keys
    ensures Rebindable(Populate(t, key, n), n.id, key.alias.value, key.domain, key.nspace, n.kt)
    ensures RowsAt(Populate(t, key, n), n.kt, key.domain, key.nspace, key.alias.value) == RowsAt(t, n.kt, key.domain, key.nspace, key.alias.value)
  {
    hide MetaOf, NextBlobId;
    assert Populate(t, key, n).keys == t.keys[n.id := NewEntry(n.kt, key.domain, key.nspace, None, Existing, n.kmUuid)];
  }

  lemma SameBlobsSameSparing(t: Tables, u: Tables, k: int)
    requires t.blobs == u.blobs && t.blobMeta == u.blobMeta
    ensures NotSuperEncrypted(t, k) == NotSuperEncrypted(u, k)
  {
    assert BlobsOf(t, k, KeyBlob) == BlobsOf(u, k, KeyBlob);
  }
}
