/**
  Saving an identity credential as a CBOR item (section 3 of RFC 8949) and loading it again.
 */
module CredentialCbor {
  import opened Prelude
  import opened Alphabetical
  import opened AuthKeys

  datatype Item =
    | Int(value: int)
    | Bstr(bytes: Bytes)
    | Tstr(text: string)
    | Bool(flag: bool)
    | Array(items: seq<Item>)
    | Map(pairs: seq<(Item, Item)>)

  datatype Profile = Profile(
    id: int,
    readerCertificate: Bytes,
    userAuthenticationRequired: bool,
    timeoutMillis: int,
    secureUserId: int,
    mac: Bytes)

  datatype EntryData = EntryData(size: int, accessControlProfileIds: seq<int>, encryptedChunks: seq<Bytes>)

  datatype Credential = Credential(
    secureUserId: int,
    credentialData: Bytes,
    attestationCertificate: Bytes,
    profiles: seq<Profile>,
    entries: map<string, EntryData>,
    keyCount: int,
    maxUsesPerKey: int,
    minValidTimeMillis: int,
    authKeys: seq<AuthKeyData>)

  const INT64_MAX := 0x7FFF_FFFF_FFFF_FFFF

  /** A 64 bit number stored into 32 bits. */
  function AsInt32(x: int): int {
    var low := x % 0x1_0000_0000;
    if low < 0x8000_0000 then low else low - 0x1_0000_0000
  }

  function AsSize(x: int): int {
    if x < 0 then x + 0x1_0000_0000_0000_0000 else x
  }

  // ---------------------------------------------------------------------------------------------
  // Saving

  function Each<A, B>(s: seq<A>, f: A -> B): (r: seq<B>)
    ensures |r| == |s| && forall i :: 0 <= i < |s| ==> r[i] == f(s[i])
  {
    seq(|s|, i requires 0 <= i < |s| => f(s[i]))
  }

  function ProfileItem(p: Profile): Item {
    Array([Int(p.id), Bstr(p.readerCertificate), Bool(p.userAuthenticationRequired), Int(p.timeoutMillis), Int(p.secureUserId), Bstr(p.mac)])
  }

  function EntryItem(e: EntryData): Item {
    Array([Int(e.size), Array(Each(e.accessControlProfileIds, (i: int) => Int(i))), Array(Each(e.encryptedChunks, (b: Bytes) => Bstr(b)))])
  }

  function AuthKeyItem(k: AuthKeyData): Item {
    Array([Bstr(k.certificate), Bstr(k.keyBlob), Bstr(k.staticAuthenticationData), Bstr(k.pendingCertificate), Bstr(k.pendingKeyBlob), Int(k.useCount), Int(k.expirationDateMillis)])
  }

  /** The entries in the order of their ids, which is that of the underlying tree map. */
  function EntryPairs(entries: map<string, EntryData>): seq<(Item, Item)> {
    Each(SortedSeq(entries.Keys), PairOf(entries))
  }

  datatype Member =
    | SecureUserId | CredentialDataBlob | AttestationCertificate | Profiles | EntryDataMap
    | AuthKeyCount | MaxUses | MinValidTime | AuthKeyDatas | OtherMember

  function Name(m: Member): string {
    match m
    case SecureUserId => "secureUserId"
    case CredentialDataBlob => "credentialData"
    case AttestationCertificate => "attestationCertificate"
    case Profiles => "secureAccessControlProfiles"
    case EntryDataMap => "entryData"
    case AuthKeyCount => "authKeyCount"
    case MaxUses => "maxUsesPerAuthKey"
    case MinValidTime => "minValidTimeMillis"
    case AuthKeyDatas => "authKeyData"
    case OtherMember => ""
  }

  function MemberNamed(key: string): Member {
    if key == "secureUserId" then SecureUserId
    else if key == "credentialData" then CredentialDataBlob
    else if key == "attestationCertificate" then AttestationCertificate
    else if key == "secureAccessControlProfiles" then Profiles
    else if key == "entryData" then EntryDataMap
    else if key == "authKeyData" then AuthKeyDatas
    else if key == "authKeyCount" then AuthKeyCount
    else if key == "maxUsesPerAuthKey" then MaxUses
    else if key == "minValidTimeMillis" then MinValidTime
    else OtherMember
  }

  lemma NamesReturn(m: Member)
    ensures MemberNamed(Name(m)) == m
  {
    assert "secureUserId"[0] == 's' && "authKeyCount"[0] == 'a';
  }

  function Saved(c: Credential): Item {
    Map(SavedMembers(c))
  }

  function SavedMembers(c: Credential): (r: seq<(Item, Item)>)
    ensures |r| == 9
  {
    [
      (Tstr(Name(SecureUserId)), Int(c.secureUserId)),
      (Tstr(Name(CredentialDataBlob)), Bstr(c.credentialData)),
      (Tstr(Name(AttestationCertificate)), Bstr(c.attestationCertificate)),
      (Tstr(Name(Profiles)), Array(Each(c.profiles, ProfileItem))),
      (Tstr(Name(EntryDataMap)), Map(EntryPairs(c.entries))),
      (Tstr(Name(AuthKeyCount)), Int(c.keyCount)),
      (Tstr(Name(MaxUses)), Int(c.maxUsesPerKey)),
      (Tstr(Name(MinValidTime)), Int(c.minValidTimeMillis)),
      (Tstr(Name(AuthKeyDatas)), Array(Each(c.authKeys, AuthKeyItem)))
    ]
  }

  // ---------------------------------------------------------------------------------------------
  // Loading

  /** `Crashed` is a dereference of null. */
  datatype Status = Going | Failed | Crashed

  function ParseProfile(item: Item): Option<Profile> {
    if !item.Array? || |item.items| < 6 then None
    else
      var a := item.items;
      if !(a[0].Int? && a[1].Bstr? && a[2].Bool? && a[3].Int? && a[4].Int? && a[5].Bstr?) then None
      else Some(Profile(AsInt32(a[0].value), a[1].bytes, a[2].flag, a[3].value, a[4].value, a[5].bytes))
  }

  /** The expiration date is the seventh field; records without it never expire. */
  function ParseAuthKey(item: Item): (Option<AuthKeyData>, Status) {
    if !item.Array? || |item.items| < 6 then (None, Failed)
    else
      var a := item.items;
      if !(a[0].Bstr? && a[1].Bstr? && a[2].Bstr? && a[3].Bstr? && a[4].Bstr? && a[5].Int?) then (None, Failed)
      else if |a| >= 7 && !a[6].Int? then (None, Crashed)
      else
        var expiration := if |a| >= 7 then a[6].value else INT64_MAX;
        (Some(AuthKeyData(a[0].bytes, a[1].bytes, expiration, a[2].bytes, a[3].bytes, a[4].bytes, AsInt32(a[5].value))), Going)
  }

  /** Anything but an array of numbers counts as no ids at all. */
  function ParseIds(item: Item): seq<int> {
    if item.Array? && forall i :: 0 <= i < |item.items| ==> item.items[i].Int?
    then Each(item.items, (x: Item) => if x.Int? then AsInt32(x.value) else 0)
    else []
  }

  function ParseChunks(item: Item): Option<seq<Bytes>> {
    if item.Array? && forall i :: 0 <= i < |item.items| ==> item.items[i].Bstr?
    then Some(Each(item.items, (x: Item) => if x.Bstr? then x.bytes else []))
    else None
  }

  /** Steps taken from left to right until one does not go on; what was stored until then stays. */
  function Fold<E>(es: seq<E>, c: Credential, step: (Credential, E) -> (Credential, Status)): (Credential, Status) {
    if es == [] then (c, Going)
    else
      var (d, status) := Fold(es[..|es| - 1], c, step);
      if status != Going then (d, status) else step(d, es[|es| - 1])
  }

  function AddProfile(c: Credential, item: Item): (Credential, Status) {
    var p := ParseProfile(item);
    if p.None? then (c, Failed) else (c.(profiles := c.profiles + [p.value]), Going)
  }

  function AddAuthKey(c: Credential, item: Item): (Credential, Status) {
    var (k, status) := ParseAuthKey(item);
    if k.None? then (c, status) else (c.(authKeys := c.authKeys + [k.value]), Going)
  }

  function AddEntry(c: Credential, pair: (Item, Item)): (Credential, Status) {
    var (key, value) := pair;
    if !key.Tstr? || !value.Array? || |value.items| < 3 || !value.items[0].Int? then (c, Failed)
    else
      var chunks := ParseChunks(value.items[2]);
      if chunks.None? then (c, Failed)
      else (c.(entries := c.entries[key.text := EntryData(AsSize(value.items[0].value), ParseIds(value.items[1]), chunks.value)]), Going)
  }

  function AddMember(c: Credential, pair: (Item, Item)): (Credential, Status) {
    var (key, value) := pair;
    if !key.Tstr? then (c, Failed)
    else
      match MemberNamed(key.text)
      case SecureUserId => if value.Int? then (c.(secureUserId := value.value), Going) else (c, Failed)
      case CredentialDataBlob => if value.Bstr? then (c.(credentialData := value.bytes), Going) else (c, Failed)
      case AttestationCertificate => if value.Bstr? then (c.(attestationCertificate := value.bytes), Going) else (c, Failed)
      case Profiles => if value.Array? then Fold(value.items, c, AddProfile) else (c, Failed)
      case EntryDataMap => if value.Map? then Fold(value.pairs, c, AddEntry) else (c, Failed)
      case AuthKeyDatas => if value.Array? then Fold(value.items, c, AddAuthKey) else (c, Failed)
      case AuthKeyCount => if value.Int? then (c.(keyCount := AsInt32(value.value)), Going) else (c, Failed)
      case MaxUses => if value.Int? then (c.(maxUsesPerKey := AsInt32(value.value)), Going) else (c, Failed)
      case MinValidTime => if value.Int? then (c.(minValidTimeMillis := value.value), Going) else (c, Failed)
      case OtherMember => (c, Going)
  }

  /** Everything but the secure user id is reset. */
  function Reset(c: Credential): Credential {
    Credential(c.secureUserId, [], [], [], map[], 0, 1, 0, [])
  }

  predicate Complete(c: Credential) {
    c.credentialData != [] && c.attestationCertificate != [] && AsSize(c.keyCount) == |c.authKeys|
  }

  /** `file` is the item in the file, or nothing if there is no file or it does not hold one. */
  function Loaded(c: Credential, file: Option<Item>): (Credential, Status) {
    if file.None? || !file.value.Map? then (Reset(c), Failed)
    else
      var (d, status) := Fold(file.value.pairs, Reset(c), AddMember);
      if status == Going && !Complete(d) then (d, Failed) else (d, status)
  }

  // ---------------------------------------------------------------------------------------------
  // The round trip

  predicate IsInt32(x: int) { -0x8000_0000 <= x < 0x8000_0000 }

  /** The fields hold what their types hold, and sizes stay below 2^63. */
  predicate InRange(c: Credential) {
    && IsInt32(c.keyCount) && IsInt32(c.maxUsesPerKey)
    && (forall i :: 0 <= i < |c.profiles| ==> IsInt32(c.profiles[i].id))
    && (forall i :: 0 <= i < |c.authKeys| ==> IsInt32(c.authKeys[i].useCount))
    && (forall id :: id in c.entries ==> EntryInRange(c.entries[id]))
    && |c.authKeys| <= INT64_MAX
  }

  predicate EntryInRange(e: EntryData) {
    0 <= e.size <= INT64_MAX && forall i :: 0 <= i < |e.accessControlProfileIds| ==> IsInt32(e.accessControlProfileIds[i])
  }

  lemma FoldMore<E>(es: seq<E>, e: E, c: Credential, step: (Credential, E) -> (Credential, Status))
    ensures var (d, status) := Fold(es, c, step);
      Fold(es + [e], c, step) == if status != Going then (d, status) else step(d, e)
  {
    assert (es + [e])[..|es|] == es;
  }

  lemma EachMore<A, B>(s: seq<A>, a: A, f: A -> B)
    ensures Each(s + [a], f) == Each(s, f) + [f(a)]
  {
  }

  lemma ProfileReturns(p: Profile)
    requires IsInt32(p.id)
    ensures ParseProfile(ProfileItem(p)) == Some(p)
  {
  }

  lemma {:induction false} ProfilesReturn(c: Credential, ps: seq<Profile>)
    requires forall i :: 0 <= i < |ps| ==> IsInt32(ps[i].id)
    ensures Fold(Each(ps, ProfileItem), c, AddProfile) == (c.(profiles := c.profiles + ps), Going)
  {
    if ps == [] {
      assert c.profiles + [] == c.profiles;
    } else {
      var init, last := ps[..|ps| - 1], ps[|ps| - 1];
      assert ps == init + [last];
      ProfilesReturn(c, init);
      ProfileReturns(last);
      hide Fold, ParseProfile, ProfileItem;
      EachMore(init, last, ProfileItem);
      FoldMore(Each(init, ProfileItem), ProfileItem(last), c, AddProfile);
      assert c.profiles + init + [last] == c.profiles + ps;
    }
  }

  lemma AuthKeyReturns(k: AuthKeyData)
    requires IsInt32(k.useCount)
    ensures ParseAuthKey(AuthKeyItem(k)) == (Some(k), Going)
  {
  }

  lemma {:induction false} AuthKeysReturn(c: Credential, ks: seq<AuthKeyData>)
    requires forall i :: 0 <= i < |ks| ==> IsInt32(ks[i].useCount)
    ensures Fold(Each(ks, AuthKeyItem), c, AddAuthKey) == (c.(authKeys := c.authKeys + ks), Going)
  {
    if ks == [] {
      assert c.authKeys + [] == c.authKeys;
    } else {
      var init, last := ks[..|ks| - 1], ks[|ks| - 1];
      assert ks == init + [last];
      AuthKeysReturn(c, init);
      AuthKeyReturns(last);
      hide Fold, ParseAuthKey, AuthKeyItem;
      EachMore(init, last, AuthKeyItem);
      FoldMore(Each(init, AuthKeyItem), AuthKeyItem(last), c, AddAuthKey);
      assert c.authKeys + init + [last] == c.authKeys + ks;
    }
  }

  lemma IdsReturn(ids: seq<int>)
    requires forall i :: 0 <= i < |ids| ==> IsInt32(ids[i])
    ensures ParseIds(Array(Each(ids, (i: int) => Int(i)))) == ids
  {
  }

  lemma ChunksReturn(chunks: seq<Bytes>)
    ensures ParseChunks(Array(Each(chunks, (b: Bytes) => Bstr(b)))) == Some(chunks)
  {
    var item := Array(Each(chunks, (b: Bytes) => Bstr(b)));
    assert forall i :: 0 <= i < |item.items| ==> item.items[i] == Bstr(chunks[i]);
    assert Each(item.items, (x: Item) => if x.Bstr? then x.bytes else []) == chunks;
  }

  lemma EntryReturns(c: Credential, id: string, e: EntryData)
    requires EntryInRange(e)
    ensures AddEntry(c, (Tstr(id), EntryItem(e))) == (c.(entries := c.entries[id := e]), Going)
  {
    IdsReturn(e.accessControlProfileIds);
    ChunksReturn(e.encryptedChunks);
    hide ParseIds, ParseChunks;
  }

  function Restricted(m: map<string, EntryData>, ids: seq<string>): map<string, EntryData> {
    map id | id in ids && id in m :: m[id]
  }

  function PairOf(m: map<string, EntryData>): string -> (Item, Item) {
    (id: string) => (Tstr(id), if id in m then EntryItem(m[id]) else Array([]))
  }

  lemma RestrictedMore(m: map<string, EntryData>, ids: seq<string>, id: string)
    requires id in m
    ensures Restricted(m, ids + [id]) == Restricted(m, ids)[id := m[id]]
  {
  }

  lemma {:induction false} EntriesReturn(c: Credential, m: map<string, EntryData>, ids: seq<string>)
    requires c.entries == map[]
    requires forall id :: id in ids ==> id in m && EntryInRange(m[id])
    ensures Fold(Each(ids, PairOf(m)), c, AddEntry) == (c.(entries := Restricted(m, ids)), Going)
  {
    if ids == [] {
      assert Restricted(m, ids) == map[];
    } else {
      var init, last := ids[..|ids| - 1], ids[|ids| - 1];
      assert ids == init + [last];
      EntriesReturn(c, m, init);
      hide Fold, AddEntry, EntryItem, EntryInRange, Each, Restricted;
      EntryReturns(c.(entries := Restricted(m, init)), last, m[last]);
      EachMore(init, last, PairOf(m));
      FoldMore(Each(init, PairOf(m)), PairOf(m)(last), c, AddEntry);
      RestrictedMore(m, init, last);
    }
  }

  lemma EntryMapReturns(c: Credential, m: map<string, EntryData>)
    requires c.entries == map[]
    requires forall id :: id in m ==> EntryInRange(m[id])
    ensures Fold(EntryPairs(m), c, AddEntry) == (c.(entries := m), Going)
  {
    hide Fold, Each, AddEntry, SortedSeq, EntryInRange, PairOf;
    var ids := SortedSeq(m.Keys);
    assert forall id :: id in ids <==> id in Elements(ids);
    EntriesReturn(c, m, ids);
    assert Restricted(m, ids) == m;
  }

  /** The credential with the first `n` members of the saved map loaded. */
  ghost function Partial(start: Credential, c: Credential, n: nat): Credential {
    Credential(
      if n >= 1 then c.secureUserId else start.secureUserId,
      if n >= 2 then c.credentialData else [],
      if n >= 3 then c.attestationCertificate else [],
      if n >= 4 then c.profiles else [],
      if n >= 5 then c.entries else map[],
      if n >= 6 then c.keyCount else 0,
      if n >= 7 then c.maxUsesPerKey else 1,
      if n >= 8 then c.minValidTimeMillis else 0,
      if n >= 9 then c.authKeys else [])
  }

  lemma ScalarsReturn(start: Credential, c: Credential, n: nat)
    requires InRange(c) && n < 9 && n !in {3, 4, 8}
    ensures AddMember(Partial(start, c, n), SavedMembers(c)[n]) == (Partial(start, c, n + 1), Going)
  {
    NamesReturn(if n == 0 then SecureUserId else if n == 1 then CredentialDataBlob else if n == 2 then AttestationCertificate
                else if n == 5 then AuthKeyCount else if n == 6 then MaxUses else MinValidTime);
    hide Fold, EntryPairs, Each, AddProfile, AddEntry, AddAuthKey, ProfileItem, AuthKeyItem, Name, MemberNamed;
  }

  lemma CollectionsAreFolded(c: Credential, items: seq<Item>, pairs: seq<(Item, Item)>)
    ensures AddMember(c, (Tstr(Name(Profiles)), Array(items))) == Fold(items, c, AddProfile)
    ensures AddMember(c, (Tstr(Name(AuthKeyDatas)), Array(items))) == Fold(items, c, AddAuthKey)
    ensures AddMember(c, (Tstr(Name(EntryDataMap)), Map(pairs))) == Fold(pairs, c, AddEntry)
  {
    NamesReturn(Profiles);
    NamesReturn(AuthKeyDatas);
    NamesReturn(EntryDataMap);
    hide Fold, AddProfile, AddEntry, AddAuthKey, Name, MemberNamed;
  }

  lemma CollectionsAreSaved(c: Credential)
    ensures SavedMembers(c)[3] == (Tstr(Name(Profiles)), Array(Each(c.profiles, ProfileItem)))
    ensures SavedMembers(c)[4] == (Tstr(Name(EntryDataMap)), Map(EntryPairs(c.entries)))
    ensures SavedMembers(c)[8] == (Tstr(Name(AuthKeyDatas)), Array(Each(c.authKeys, AuthKeyItem)))
  {
    hide EntryPairs, Each, ProfileItem, AuthKeyItem, Name;
  }

  lemma ProfilesMemberReturns(start: Credential, c: Credential)
    requires InRange(c)
    ensures AddMember(Partial(start, c, 3), SavedMembers(c)[3]) == (Partial(start, c, 4), Going)
  {
    hide AddMember, SavedMembers, Fold, Each, Name, AddProfile, ProfileItem, EntryInRange, IsInt32;
    var p := Partial(start, c, 3);
    ProfilesReturn(p, c.profiles);
    CollectionsAreSaved(c);
    CollectionsAreFolded(p, Each(c.profiles, ProfileItem), []);
    assert p.profiles + c.profiles == c.profiles;
  }

  lemma EntriesMemberReturns(start: Credential, c: Credential)
    requires InRange(c)
    ensures AddMember(Partial(start, c, 4), SavedMembers(c)[4]) == (Partial(start, c, 5), Going)
  {
    hide AddMember, SavedMembers, Fold, Each, EntryPairs, Name, AddEntry, EntryInRange, IsInt32;
    var p := Partial(start, c, 4);
    EntryMapReturns(p, c.entries);
    CollectionsAreSaved(c);
    CollectionsAreFolded(p, [], EntryPairs(c.entries));
  }

  lemma AuthKeysMemberReturns(start: Credential, c: Credential)
    requires InRange(c)
    ensures AddMember(Partial(start, c, 8), SavedMembers(c)[8]) == (Partial(start, c, 9), Going)
  {
    hide AddMember, SavedMembers, Fold, Each, Name, AddAuthKey, AuthKeyItem, EntryInRange, IsInt32;
    var p := Partial(start, c, 8);
    AuthKeysReturn(p, c.authKeys);
    CollectionsAreSaved(c);
    CollectionsAreFolded(p, Each(c.authKeys, AuthKeyItem), []);
    assert p.authKeys + c.authKeys == c.authKeys;
  }

  lemma MemberReturns(start: Credential, c: Credential, n: nat)
    requires InRange(c) && n < 9
    ensures AddMember(Partial(start, c, n), SavedMembers(c)[n]) == (Partial(start, c, n + 1), Going)
  {
    hide AddMember, SavedMembers, Partial, InRange;
    if n == 3 {
      ProfilesMemberReturns(start, c);
    } else if n == 4 {
      EntriesMemberReturns(start, c);
    } else if n == 8 {
      AuthKeysMemberReturns(start, c);
    } else {
      ScalarsReturn(start, c, n);
    }
  }

  lemma {:induction false} MembersReturn(start: Credential, c: Credential, n: nat)
    requires InRange(c) && n <= 9
    ensures Fold(SavedMembers(c)[..n], Reset(start), AddMember) == (Partial(start, c, n), Going)
  {
    hide InRange, AddMember, SavedMembers;
    if n > 0 {
      MembersReturn(start, c, n - 1);
      MemberReturns(start, c, n - 1);
      var pairs := SavedMembers(c);
      assert pairs[..n] == pairs[..n - 1] + [pairs[n - 1]];
      FoldMore(pairs[..n - 1], pairs[n - 1], Reset(start), AddMember);
    }
  }

  /** Whatever was there before, loading a saved credential restores it exactly, if it was complete; otherwise it fails. */
  lemma RoundTrip(start: Credential, c: Credential)
    requires InRange(c)
    ensures Loaded(start, Some(Saved(c))).0 == c
    ensures Loaded(start, Some(Saved(c))).1 == Going <==> c.credentialData != [] && c.attestationCertificate != [] && c.keyCount == |c.authKeys|
  {
    MembersReturn(start, c, 9);
    hide Fold, AddMember, SavedMembers;
    assert SavedMembers(c)[..9] == SavedMembers(c);
  }

  /** A record of the older, six field form loads with the latest expiration date. */
  lemma OlderAuthKeysNeverExpire(k: AuthKeyData)
    requires IsInt32(k.useCount)
    ensures ParseAuthKey(Array(AuthKeyItem(k).items[..6])) == (Some(k.(expirationDateMillis := INT64_MAX)), Going)
  {
  }
}
