/** The credential object: it chooses authentication keys, and its fields are written to an item and filled again from one, step by step. */
module CredentialObject {
  import opened Prelude
  import opened Alphabetical
  import opened AuthKeys
  import opened CredentialCbor

  /** Once a step does not go on, later ones change nothing. */
  lemma {:induction false} FoldStops<E>(es: seq<E>, n: nat, c: Credential, step: (Credential, E) -> (Credential, Status))
    requires n <= |es| && Fold(es[..n], c, step).1 != Going
    ensures Fold(es, c, step) == Fold(es[..n], c, step)
    decreases |es|
  {
    if n == |es| {
      assert es[..n] == es;
    } else {
      assert es[..|es| - 1][..n] == es[..n];
      FoldStops(es[..|es| - 1], n, c, step);
    }
  }

  lemma FoldStep<E>(es: seq<E>, n: nat, c: Credential, step: (Credential, E) -> (Credential, Status))
    requires n < |es|
    ensures var (d, status) := Fold(es[..n], c, step);
      Fold(es[..n + 1], c, step) == if status != Going then (d, status) else step(d, es[n])
  {
    assert es[..n + 1] == es[..n] + [es[n]];
    FoldMore(es[..n], es[n], c, step);
  }

  lemma EachStep<A, B>(s: seq<A>, n: nat, f: A -> B)
    requires n < |s|
    ensures Each(s[..n + 1], f) == Each(s[..n], f) + [f(s[n])]
  {
    assert s[..n + 1] == s[..n] + [s[n]];
  }

  method ParseAccessControlProfileIds(item: Item) returns (ids: seq<int>)
    ensures ids == ParseIds(item)
  {
    if !item.Array? {
      return [];
    }
    var items := item.items;
    ids := [];
    for n := 0 to |items|
      invariant |ids| == n
      invariant forall i :: 0 <= i < n ==> items[i].Int? && ids[i] == AsInt32(items[i].value)
    {
      if !items[n].Int? {
        return [];
      }
      ids := ids + [AsInt32(items[n].value)];
    }
  }

  method ParseEncryptedChunks(item: Item) returns (r: Option<seq<Bytes>>)
    ensures r == ParseChunks(item)
  {
    if !item.Array? {
      return None;
    }
    var items := item.items;
    var chunks: seq<Bytes> := [];
    for n := 0 to |items|
      invariant |chunks| == n
      invariant forall i :: 0 <= i < n ==> items[i].Bstr? && chunks[i] == items[i].bytes
    {
      if !items[n].Bstr? {
        return None;
      }
      chunks := chunks + [items[n].bytes];
    }
    assert chunks == Each(items, (x: Item) => if x.Bstr? then x.bytes else []);
    return Some(chunks);
  }

  class CredentialData {
    var secureUserId: int
    var credentialData: Bytes
    var attestationCertificate: Bytes
    var profiles: seq<Profile>
    var idToEncryptedChunks: map<string, EntryData>
    var keyCount: int
    var maxUsesPerKey: int
    var minValidTimeMillis: int
    var authKeyDatas: seq<AuthKeyData>

    function State(): Credential
      reads this
    {
      Credential(secureUserId, credentialData, attestationCertificate, profiles, idToEncryptedChunks, keyCount, maxUsesPerKey, minValidTimeMillis, authKeyDatas)
    }

    constructor ()
      ensures State() == Credential(0, [], [], [], map[], 0, 1, 0, [])
    {
      secureUserId, credentialData, attestationCertificate, profiles := 0, [], [], [];
      idToEncryptedChunks, keyCount, maxUsesPerKey, minValidTimeMillis, authKeyDatas := map[], 0, 1, 0, [];
    }

    method FindAuthKey(now: int, allowExhausted: bool, allowExpired: bool) returns (r: Option<nat>)
      ensures r == Find(authKeyDatas, maxUsesPerKey, now, allowExhausted, allowExpired)
    {
      var millis := Millis(now);
      if millis.None? {
        return None;
      }
      var candidate: Option<nat> := None;
      for i := 0 to |authKeyDatas|
        invariant candidate.None? ==> forall j :: 0 <= j < i ==> !Eligible(authKeyDatas[j], millis.value, allowExpired)
        invariant candidate.Some? ==> IsCandidate(authKeyDatas[..i], millis.value, allowExpired, candidate.value)
      {
        var data := authKeyDatas[i];
        assert forall j :: 0 <= j < i ==> authKeyDatas[..i + 1][j] == authKeyDatas[..i][j] == authKeyDatas[j];
        if millis.value > data.expirationDateMillis && !allowExpired {
          continue;
        }
        if |data.certificate| != 0 {
          if candidate.None? || data.useCount < authKeyDatas[candidate.value].useCount {
            candidate := Some(i);
          }
        }
      }
      assert authKeyDatas[..|authKeyDatas|] == authKeyDatas;
      if candidate.None? {
        return None;
      }
      CandidateIsUnique(authKeyDatas, millis.value, allowExpired, candidate.value);
      if authKeyDatas[candidate.value].useCount >= maxUsesPerKey && !allowExhausted {
        return None;
      }
      return candidate;
    }

    method SelectAuthKey(now: int, allowExhausted: bool, allowExpired: bool, incrementUsageCount: bool) returns (r: Option<nat>)
      modifies this`authKeyDatas
      ensures r == Select(old(authKeyDatas), maxUsesPerKey, now, allowExhausted, allowExpired)
      ensures authKeyDatas == if incrementUsageCount then Used(old(authKeyDatas), r) else old(authKeyDatas)
    {
      r := FindAuthKey(now, allowExhausted, false);
      if r.None? {
        if !allowExpired {
          return None;
        }
        r := FindAuthKey(now, allowExhausted, true);
        if r.None? {
          return None;
        }
      }
      if incrementUsageCount {
        var k := authKeyDatas[r.value];
        authKeyDatas := authKeyDatas[r.value := k.(useCount := k.useCount + 1)];
      }
    }

    method SaveToDisk() returns (item: Item)
      ensures item == Saved(State())
    {
      hide ProfileItem, AuthKeyItem, SortedSeq, Name, Each, EntryPairs;
      var profileItems := SaveProfiles();
      var entryPairs := SaveEntries(SortedSeq(idToEncryptedChunks.Keys));
      var keyItems := SaveAuthKeys();
      return Map([
        (Tstr(Name(SecureUserId)), Int(secureUserId)),
        (Tstr(Name(CredentialDataBlob)), Bstr(credentialData)),
        (Tstr(Name(AttestationCertificate)), Bstr(attestationCertificate)),
        (Tstr(Name(Profiles)), Array(profileItems)),
        (Tstr(Name(EntryDataMap)), Map(entryPairs)),
        (Tstr(Name(AuthKeyCount)), Int(keyCount)),
        (Tstr(Name(MaxUses)), Int(maxUsesPerKey)),
        (Tstr(Name(MinValidTime)), Int(minValidTimeMillis)),
        (Tstr(Name(AuthKeyDatas)), Array(keyItems))]);
    }

    method SaveProfiles() returns (items: seq<Item>)
      ensures items == Each(profiles, ProfileItem)
    {
      items := [];
      for i := 0 to |profiles|
        invariant items == Each(profiles[..i], ProfileItem)
      {
        var p := profiles[i];
        EachStep(profiles, i, ProfileItem);
        items := items + [Array([Int(p.id), Bstr(p.readerCertificate), Bool(p.userAuthenticationRequired), Int(p.timeoutMillis), Int(p.secureUserId), Bstr(p.mac)])];
      }
      assert profiles[..|profiles|] == profiles;
    }

    method SaveAuthKeys() returns (items: seq<Item>)
      ensures items == Each(authKeyDatas, AuthKeyItem)
    {
      items := [];
      for i := 0 to |authKeyDatas|
        invariant items == Each(authKeyDatas[..i], AuthKeyItem)
      {
        EachStep(authKeyDatas, i, AuthKeyItem);
        items := items + [AuthKeyItem(authKeyDatas[i])];
      }
      assert authKeyDatas[..|authKeyDatas|] == authKeyDatas;
    }

    method SaveEntries(ids: seq<string>) returns (pairs: seq<(Item, Item)>)
      requires ids == SortedSeq(idToEncryptedChunks.Keys)
      ensures pairs == EntryPairs(idToEncryptedChunks)
    {
      hide SortedSeq, EntryItem;
      pairs := [];
      for i := 0 to |ids|
        invariant pairs == Each(ids[..i], PairOf(idToEncryptedChunks))
      {
        assert ids[i] in Elements(ids);
        EachStep(ids, i, PairOf(idToEncryptedChunks));
        pairs := pairs + [(Tstr(ids[i]), EntryItem(idToEncryptedChunks[ids[i]]))];
      }
      assert ids[..|ids|] == ids;
    }

    method LoadProfiles(items: seq<Item>) returns (status: Status)
      modifies this
      ensures (State(), status) == Fold(items, old(State()), AddProfile)
    {
      for m := 0 to |items|
        invariant Fold(items[..m], old(State()), AddProfile) == (State(), Going)
      {
        FoldStep(items, m, old(State()), AddProfile);
        var p := ParseProfile(items[m]);
        if p.None? {
          FoldStops(items, m + 1, old(State()), AddProfile);
          return Failed;
        }
        profiles := profiles + [p.value];
      }
      assert items[..|items|] == items;
      return Going;
    }

    method LoadAuthKeys(items: seq<Item>) returns (status: Status)
      modifies this
      ensures (State(), status) == Fold(items, old(State()), AddAuthKey)
    {
      for m := 0 to |items|
        invariant Fold(items[..m], old(State()), AddAuthKey) == (State(), Going)
      {
        FoldStep(items, m, old(State()), AddAuthKey);
        var (k, parsed) := ParseAuthKey(items[m]);
        if k.None? {
          FoldStops(items, m + 1, old(State()), AddAuthKey);
          return parsed;
        }
        authKeyDatas := authKeyDatas + [k.value];
      }
      assert items[..|items|] == items;
      return Going;
    }

    method LoadEntry(key: Item, value: Item) returns (status: Status)
      modifies this
      ensures (State(), status) == AddEntry(old(State()), (key, value))
    {
      if !key.Tstr? {
        return Failed;
      }
      if !value.Array? || |value.items| < 3 {
        return Failed;
      }
      if !value.items[0].Int? {
        return Failed;
      }
      var size := AsSize(value.items[0].value);
      var ids := ParseAccessControlProfileIds(value.items[1]);
      var chunks := ParseEncryptedChunks(value.items[2]);
      if chunks.None? {
        return Failed;
      }
      idToEncryptedChunks := idToEncryptedChunks[key.text := EntryData(size, ids, chunks.value)];
      return Going;
    }

    method LoadEntries(pairs: seq<(Item, Item)>) returns (status: Status)
      modifies this
      ensures (State(), status) == Fold(pairs, old(State()), AddEntry)
    {
      hide AddEntry;
      for m := 0 to |pairs|
        invariant Fold(pairs[..m], old(State()), AddEntry) == (State(), Going)
      {
        FoldStep(pairs, m, old(State()), AddEntry);
        status := LoadEntry(pairs[m].0, pairs[m].1);
        if status != Going {
          FoldStops(pairs, m + 1, old(State()), AddEntry);
          return;
        }
      }
      assert pairs[..|pairs|] == pairs;
      return Going;
    }

    method LoadMember(key: Item, value: Item) returns (status: Status)
      modifies this
      ensures (State(), status) == AddMember(old(State()), (key, value))
    {
      if !key.Tstr? {
        return Failed;
      }
      hide Fold, AddProfile, AddEntry, AddAuthKey, MemberNamed;
      match MemberNamed(key.text) {
        case SecureUserId =>
          if !value.Int? { return Failed; }
          secureUserId := value.value;
        case CredentialDataBlob =>
          if !value.Bstr? { return Failed; }
          credentialData := value.bytes;
        case AttestationCertificate =>
          if !value.Bstr? { return Failed; }
          attestationCertificate := value.bytes;
        case Profiles =>
          if !value.Array? { return Failed; }
          status := LoadProfiles(value.items);
          return;
        case EntryDataMap =>
          if !value.Map? { return Failed; }
          status := LoadEntries(value.pairs);
          return;
        case AuthKeyDatas =>
          if !value.Array? { return Failed; }
          status := LoadAuthKeys(value.items);
          return;
        case AuthKeyCount =>
          if !value.Int? { return Failed; }
          keyCount := AsInt32(value.value);
        case MaxUses =>
          if !value.Int? { return Failed; }
          maxUsesPerKey := AsInt32(value.value);
        case MinValidTime =>
          if !value.Int? { return Failed; }
          minValidTimeMillis := value.value;
        case OtherMember =>
      }
      return Going;
    }

    method LoadFromDisk(file: Option<Item>) returns (status: Status)
      modifies this
      ensures (State(), status) == Loaded(old(State()), file)
    {
      credentialData, attestationCertificate, profiles, idToEncryptedChunks, authKeyDatas := [], [], [], map[], [];
      keyCount, maxUsesPerKey, minValidTimeMillis := 0, 1, 0;
      if file.None? || !file.value.Map? {
        return Failed;
      }
      hide AddMember;
      var pairs := file.value.pairs;
      ghost var start := State();
      assert start == Reset(old(State()));
      for n := 0 to |pairs|
        invariant Fold(pairs[..n], start, AddMember) == (State(), Going)
      {
        FoldStep(pairs, n, start, AddMember);
        status := LoadMember(pairs[n].0, pairs[n].1);
        if status != Going {
          FoldStops(pairs, n + 1, start, AddMember);
          return;
        }
      }
      assert pairs[..|pairs|] == pairs;
      if |credentialData| == 0 || |attestationCertificate| == 0 || AsSize(keyCount) != |authKeyDatas| {
        return Failed;
      }
      return Going;
    }
  }
}
