/**
  The legacy keystore: entries live in a database table or, until they are first read, in files that
  an older version left behind. To clients the two tiers are one map from owner and alias to entry.
 */
module LegacyKeystore {
  import opened Prelude
  import opened Alphabetical
  import opened LegacyNames
  import Tables

  type Entry = Bytes

  datatype Failure = PermissionDenied | NotFound | SystemFailure

  const AID_SYSTEM: nat := 1000
  const AID_WIFI: nat := 1010
  const WIFI_NAMESPACE := 102
  const AID_USER_OFFSET := 100000
  const UID_SELF := -1

  /**
    `keyFiles` are the files of Keystore keys, which share the directories but are not entries;
    `imported` are the entries moved from files to the database since the service started.
   */
  datatype Store = Store(db: map<Id, Entry>, files: map<Id, Entry>, keyFiles: set<Id>, imported: set<Id>)

  function User(uid: nat): nat { uid / AID_USER_OFFSET }

  function AsU32(x: int): nat { x % 0x1_0000_0000 }

  /** On whose behalf the call acts. */
  function EffectiveUid(caller: nat, uid: int): Result<nat, Failure> {
    if AsU32(uid) == AsU32(UID_SELF) || AsU32(uid) == caller then Ok(caller)
    else if caller == AID_SYSTEM && AsU32(uid) == AID_WIFI then Ok(AID_WIFI)
    else Err(PermissionDenied)
  }

  // ---------------------------------------------------------------------------------------------
  // File names

  /** The names in the directory of the user. */
  function Directory(s: Store, user: nat): set<string> {
    set id | id in s.files.Keys + s.keyFiles && IsNameable(id) && User(id.uid) == user :: FileName(id)
  }

  /** What a scan for a uid takes for the encoded alias of a name. */
  function Rest(uid: nat, name: string): string
    requires |name| > |Decimal(uid)|
  {
    name[|Decimal(uid)| + 1..]
  }

  /** The scan picks names that begin with the digits of the uid, unless what follows looks like a key's alias. */
  predicate Picked(uid: nat, name: string) {
    |name| > |Decimal(uid)| && Decimal(uid) <= name && !IsKeystoreAlias(Rest(uid, name))
  }

  /** It cuts every name after the digits of the uid, so shorter ones stop it, and so do picked ones that cannot be decoded. */
  predicate Scans(uid: nat, name: string) {
    |name| > |Decimal(uid)| && (Picked(uid, name) ==> Decode(Rest(uid, name)).Some?)
  }

  predicate Readable(names: set<string>, uid: nat) {
    forall f :: f in names ==> Scans(uid, f)
  }

  function AliasIn(uid: nat, name: string): string
    requires Scans(uid, name) && Picked(uid, name)
  {
    Decode(Rest(uid, name)).value
  }

  /** What the scan takes for the aliases of the uid. */
  function Listed(names: set<string>, uid: nat): set<string> {
    set f | f in names && Scans(uid, f) && Picked(uid, f) :: AliasIn(uid, f)
  }

  /** Another uid of the same user whose digits begin with those of `uid`. */
  predicate Lookalike(uid: nat, other: nat) {
    User(uid) == User(other) && Decimal(uid) < Decimal(other)
  }

  /** The alias under which a lookalike's file is listed. */
  function Misread(uid: nat, id: Id): string
    requires Decimal(uid) < Decimal(id.uid)
  {
    Decimal(id.uid)[|Decimal(uid)| + 1..] + "_" + id.alias
  }

  predicate ReadAs(uid: nat, id: Id, alias: string) {
    Lookalike(uid, id.uid) && Misread(uid, id) == alias
  }

  function Aliases(m: set<Id>, uid: nat): set<string> {
    set id | id in m && id.uid == uid :: id.alias
  }

  // ---------------------------------------------------------------------------------------------
  // What the operations do

  function Get(s: Store, id: Id): (Store, Result<Entry, Failure>) {
    if id in s.db then (s, Ok(s.db[id]))
    else if id in s.imported || id !in s.files then (s, Err(NotFound))
    else (s.(db := s.db[id := s.files[id]], files := s.files - {id}, imported := s.imported + {id}), Ok(s.files[id]))
  }

  function Put(s: Store, id: Id, e: Entry): Store {
    s.(db := s.db[id := e], files := if id in s.imported then s.files else s.files - {id})
  }

  function Remove(s: Store, id: Id): (Store, Result<(), Failure>) {
    if id !in s.imported && id in s.files then (s.(files := s.files - {id}), Ok(()))
    else if id in s.db then (s.(db := s.db - {id}), Ok(()))
    else (s, Err(NotFound))
  }

  function Owned(m: set<Id>, uid: nat): set<Id> {
    set id | id in m && id.uid == uid
  }

  function OwnedByUser(m: set<Id>, user: nat): set<Id> {
    set id | id in m && User(id.uid) == user
  }

  /** The uid whose entries go with the namespace, if any do. */
  function NamespaceUid(domain: Tables.Domain, namespace: int): Option<nat> {
    if domain.App? then Some(AsU32(namespace))
    else if domain.SeLinux? && namespace == WIFI_NAMESPACE then Some(AID_WIFI)
    else None
  }

  /** The files listed for the uid are deleted one by one; if they cannot be listed, none are. */
  function DeleteUid(s: Store, uid: nat): Store {
    var names := Directory(s, User(uid));
    var listed := if Readable(names, uid) then Listed(names, uid) else {};
    s.(files := s.files - Image(listed, (a: string) => Id(uid, a)), db := s.db - Owned(s.db.Keys, uid))
  }

  function ParsedIds(names: set<string>): set<Id> {
    set f | f in names && ParseName(f).Some? :: ParseName(f).value
  }

  /** The files named in the user's directory are deleted one by one. */
  function DeleteUser(s: Store, user: nat): Store {
    s.(files := s.files - ParsedIds(Directory(s, user)), db := s.db - OwnedByUser(s.db.Keys, user))
  }

  function Matching(aliases: set<string>, prefix: string): set<string> {
    set a | a in aliases && prefix <= a
  }

  function List(s: Store, prefix: string, uid: nat): Result<seq<string>, Failure> {
    var names := Directory(s, User(uid));
    if !Readable(names, uid) then Err(SystemFailure)
    else Ok(SortedSeq(Matching(Listed(names, uid) + Aliases(s.db.Keys, uid), prefix)))
  }

  // ---------------------------------------------------------------------------------------------
  // Calls, and the worker thread that does the work on files

  datatype Call =
    | GetCall(caller: nat, alias: string, uid: int)
    | PutCall(caller: nat, alias: string, uid: int, entry: Entry)
    | RemoveCall(caller: nat, alias: string, uid: int)
    | ListCall(caller: nat, prefix: string, uid: int)
    | DeleteNamespaceCall(domain: Tables.Domain, namespace: int)
    | DeleteUserCall(user: nat)

  datatype Reply = Value(value: Result<Entry, Failure>) | Done(done: Result<(), Failure>) | Names(names: Result<seq<string>, Failure>)

  /** What a call does, and answers, while there is a worker. */
  function Next(s: Store, call: Call): (Store, Reply) {
    match call
    case GetCall(caller, alias, uid) =>
      var u := EffectiveUid(caller, uid);
      if u.Err? then (s, Value(Err(u.error)))
      else var (t, r) := Get(s, Id(u.value, alias)); (t, Value(r))
    case PutCall(caller, alias, uid, e) =>
      var u := EffectiveUid(caller, uid);
      if u.Err? then (s, Done(Err(u.error))) else (Put(s, Id(u.value, alias), e), Done(Ok(())))
    case RemoveCall(caller, alias, uid) =>
      var u := EffectiveUid(caller, uid);
      if u.Err? then (s, Done(Err(u.error)))
      else var (t, r) := Remove(s, Id(u.value, alias)); (t, Done(r))
    case ListCall(caller, prefix, uid) =>
      var u := EffectiveUid(caller, uid);
      (s, Names(if u.Err? then Err(u.error) else List(s, prefix, u.value)))
    case DeleteNamespaceCall(domain, namespace) =>
      var u := NamespaceUid(domain, namespace);
      (if u.None? then s else DeleteUid(s, u.value), Done(Ok(())))
    case DeleteUserCall(user) => (DeleteUser(s, user), Done(Ok(())))
  }

  /** The call queues a job and waits for it. */
  predicate NeedsWorker(s: Store, call: Call) {
    match call
    case GetCall(caller, alias, uid) => (var u := EffectiveUid(caller, uid); u.Ok? && Id(u.value, alias) !in s.db)
    case PutCall(caller, _, uid, _) => EffectiveUid(caller, uid).Ok?
    case RemoveCall(caller, _, uid) => EffectiveUid(caller, uid).Ok?
    case ListCall(caller, _, uid) => EffectiveUid(caller, uid).Ok?
    case DeleteNamespaceCall(domain, namespace) => NamespaceUid(domain, namespace).Some?
    case DeleteUserCall(_) => true
  }

  predicate HasShortName(names: set<string>, uid: nat) {
    exists f :: f in names && |f| <= |Decimal(uid)|
  }

  /** The scan that the call makes, if it makes one, does not cut a name that is too short: the worker would panic. */
  predicate ScanReturns(s: Store, call: Call) {
    match call
    case ListCall(caller, _, uid) =>
      var u := EffectiveUid(caller, uid);
      u.Ok? ==> !HasShortName(Directory(s, User(u.value)), u.value)
    case DeleteNamespaceCall(domain, namespace) =>
      var u := NamespaceUid(domain, namespace);
      u.Some? ==> !HasShortName(Directory(s, User(u.value)), u.value)
    case _ => true
  }

  /** What a call has done by the time it waits for the worker: only a put has changed something. */
  function Begun(s: Store, call: Call): Store {
    if call.PutCall? && EffectiveUid(call.caller, call.uid).Ok?
    then s.(db := s.db[Id(EffectiveUid(call.caller, call.uid).value, call.alias) := call.entry])
    else s
  }

  /** A worker that panicked is not replaced, as it still counts as running. */
  datatype Service = Service(store: Store, workerGone: bool)

  /** What a call does, and its answer. The call on which the worker panics gets an error; calls that need it later wait for ever. */
  function Serve(w: Service, call: Call): (Service, Option<Reply>) {
    if w.workerGone && NeedsWorker(w.store, call) then (w.(store := Begun(w.store, call)), None)
    else
      var (t, r) := Next(w.store, call);
      (Service(t, w.workerGone || !ScanReturns(w.store, call)), Some(r))
  }

  // ---------------------------------------------------------------------------------------------
  // The service

  /** A call returns nothing if it never returns. */
  class LegacyKeystoreService {
    var db: map<Id, Entry>
    var files: map<Id, Entry>
    var keyFiles: set<Id>
    var recentlyImported: set<Id>
    var workerGone: bool

    function State(): Store
      reads this
    {
      Store(db, files, keyFiles, recentlyImported)
    }

    function Current(): Service
      reads this
    {
      Service(State(), workerGone)
    }

    constructor (s: Store)
      ensures Current() == Service(s.(imported := {}), false)
    {
      db, files, keyFiles, recentlyImported, workerGone := s.db, s.files, s.keyFiles, {}, false;
    }

    method ImportOneLegacyEntry(id: Id) returns (imported: bool)
      modifies this`db, this`files
      ensures imported == (id in old(files))
      ensures files == old(files) - {id}
      ensures db == if imported then old(db)[id := old(files)[id]] else old(db)
    {
      if id !in files {
        return false;
      }
      db := db[id := files[id]];
      files := files - {id};
      return true;
    }

    method GetLegacy(id: Id) returns (there: bool)
      modifies this`db, this`files, this`recentlyImported
      ensures there == (id in old(recentlyImported) || id in old(files))
      ensures if id !in old(recentlyImported) && id in old(files)
        then State() == Store(old(db)[id := old(files)[id]], old(files) - {id}, keyFiles, old(recentlyImported) + {id})
        else State() == old(State())
    {
      if id in recentlyImported {
        return true;
      }
      there := ImportOneLegacyEntry(id);
      if there {
        recentlyImported := recentlyImported + {id};
      }
    }

    method GetEntry(caller: nat, alias: string, uid: int) returns (r: Option<Result<Entry, Failure>>)
      modifies this
      ensures Serve(old(Current()), GetCall(caller, alias, uid)) == (Current(), if r.None? then None else Some(Value(r.value)))
    {
      var u := EffectiveUid(caller, uid);
      if u.Err? {
        return Some(Err(u.error));
      }
      var id := Id(u.value, alias);
      if id in db {
        return Some(Ok(db[id]));
      }
      if workerGone {
        return None;
      }
      var there := GetLegacy(id);
      if there && id in db {
        return Some(Ok(db[id]));
      }
      return Some(Err(NotFound));
    }

    method RemoveLegacy(id: Id) returns (removed: bool)
      modifies this`files
      ensures removed == (id !in recentlyImported && id in old(files))
      ensures files == if removed then old(files) - {id} else old(files)
    {
      removed := id !in recentlyImported && id in files;
      if removed {
        files := files - {id};
      }
    }

    method PutEntry(caller: nat, alias: string, uid: int, e: Entry) returns (r: Option<Result<(), Failure>>)
      modifies this
      ensures Serve(old(Current()), PutCall(caller, alias, uid, e)) == (Current(), if r.None? then None else Some(Done(r.value)))
    {
      var u := EffectiveUid(caller, uid);
      if u.Err? {
        return Some(Err(u.error));
      }
      var id := Id(u.value, alias);
      db := db[id := e];
      if workerGone {
        return None;
      }
      var _ := RemoveLegacy(id);
      assert id !in old(files) ==> old(files) - {id} == old(files);
      return Some(Ok(()));
    }

    method RemoveEntry(caller: nat, alias: string, uid: int) returns (r: Option<Result<(), Failure>>)
      modifies this
      ensures Serve(old(Current()), RemoveCall(caller, alias, uid)) == (Current(), if r.None? then None else Some(Done(r.value)))
    {
      var u := EffectiveUid(caller, uid);
      if u.Err? {
        return Some(Err(u.error));
      }
      if workerGone {
        return None;
      }
      var id := Id(u.value, alias);
      var removed := RemoveLegacy(id);
      if removed {
        return Some(Ok(()));
      }
      if id !in db {
        return Some(Err(NotFound));
      }
      db := db - {id};
      return Some(Ok(()));
    }

    /** The scan of a directory, whose names are read in the order of `dir`. A name that is too short to be cut is the end of the worker. */
    method ListLegacy(uid: nat, dir: seq<string>) returns (r: Result<seq<string>, Failure>)
      requires !workerGone
      modifies this`workerGone
      ensures r.Ok? <==> Readable(Elements(dir), uid)
      ensures r.Ok? ==> Elements(r.value) == Listed(Elements(dir), uid)
      ensures workerGone ==> HasShortName(Elements(dir), uid)
      ensures HasShortName(Elements(dir), uid) && Decodable(Elements(dir), uid) ==> workerGone
    {
      hide IsKeystoreAlias, Listed, Decode;
      NothingListed(uid);
      assert Elements(dir[..0]) == {};
      var digits := Decimal(uid);
      var result: seq<string> := [];
      for i := 0 to |dir|
        invariant !workerGone
        invariant forall j :: 0 <= j < i ==> Scans(uid, dir[j])
        invariant Elements(result) == Listed(Elements(dir[..i]), uid)
      {
        assert dir[i] in Elements(dir);
        if |dir[i]| <= |digits| {
          workerGone := true;
          return Err(SystemFailure);
        }
        var encoded := dir[i][|digits| + 1..];
        assert dir[..i + 1] == dir[..i] + [dir[i]];
        ElementsOfSum(dir[..i], [dir[i]]);
        ListedGrows(Elements(dir[..i]), dir[i], uid);
        assert Elements([dir[i]]) == {dir[i]};
        if digits <= dir[i] && !IsKeystoreAlias(encoded) {
          var alias := DecodeAlias(encoded);
          if alias.None? {
            return Err(SystemFailure);
          }
          ElementsOfSum(result, [alias.value]);
          assert Elements([alias.value]) == {alias.value};
          result := result + [alias.value];
        }
      }
      assert dir[..|dir|] == dir;
      return Ok(result);
    }

    method BulkDeleteUid(uid: nat, dir: seq<string>)
      requires !workerGone && Elements(dir) == Directory(State(), User(uid))
      modifies this`files, this`workerGone
      ensures files == DeleteUid(old(State()), uid).files
      ensures workerGone <==> HasShortName(Elements(dir), uid)
    {
      DirectoryDecodes(State(), uid);
      hide Directory, Decodable, HasShortName;
      var entries := ListLegacy(uid, dir);
      ReadableExactly(Elements(dir), uid);
      if entries.Err? {
        assert Image({}, (a: string) => Id(uid, a)) == {};
        return;
      }
      var f := (a: string) => Id(uid, a);
      for i := 0 to |entries.value|
        invariant files == old(files) - Image(Elements(entries.value[..i]), f) && !workerGone
      {
        assert entries.value[..i + 1] == entries.value[..i] + [entries.value[i]];
        ElementsOfSum(entries.value[..i], [entries.value[i]]);
        assert Image(Elements(entries.value[..i + 1]), f) == Image(Elements(entries.value[..i]), f) + {f(entries.value[i])};
        files := files - {Id(uid, entries.value[i])};
      }
      assert entries.value[..|entries.value|] == entries.value;
    }

    method DeleteNamespace(domain: Tables.Domain, namespace: int, dir: seq<string>) returns (r: Option<Result<(), Failure>>)
      requires var u := NamespaceUid(domain, namespace); u.Some? ==> Elements(dir) == Directory(State(), User(u.value))
      modifies this
      ensures Serve(old(Current()), DeleteNamespaceCall(domain, namespace)) == (Current(), if r.None? then None else Some(Done(r.value)))
    {
      hide HasShortName, Directory;
      var u := NamespaceUid(domain, namespace);
      if u.None? {
        return Some(Ok(()));
      }
      if workerGone {
        return None;
      }
      BulkDeleteUid(u.value, dir);
      db := db - Owned(db.Keys, u.value);
      return Some(Ok(()));
    }

    /** The entries that the names in the user's directory stand for. */
    method ListLegacyForUser(dir: seq<string>) returns (entries: seq<Id>)
      ensures Elements(entries) == ParsedIds(Elements(dir))
    {
      hide ParseName;
      entries := [];
      for i := 0 to |dir|
        invariant Elements(entries) == ParsedIds(Elements(dir[..i]))
      {
        assert dir[..i + 1] == dir[..i] + [dir[i]];
        ElementsOfSum(dir[..i], [dir[i]]);
        ParsedGrows(Elements(dir[..i]), dir[i]);
        var id := ParseName(dir[i]);
        if id.Some? {
          ElementsOfSum(entries, [id.value]);
          entries := entries + [id.value];
        }
      }
      assert dir[..|dir|] == dir;
    }

    method DeleteUserEntries(user: nat, dir: seq<string>) returns (r: Option<Result<(), Failure>>)
      requires Elements(dir) == Directory(State(), user)
      modifies this
      ensures Serve(old(Current()), DeleteUserCall(user)) == (Current(), if r.None? then None else Some(Done(r.value)))
    {
      hide ParsedIds, Directory;
      if workerGone {
        return None;
      }
      var entries := ListLegacyForUser(dir);
      for i := 0 to |entries|
        invariant files == old(files) - Elements(entries[..i])
        invariant db == old(db) && keyFiles == old(keyFiles) && recentlyImported == old(recentlyImported) && !workerGone
      {
        assert entries[..i + 1] == entries[..i] + [entries[i]];
        ElementsOfSum(entries[..i], [entries[i]]);
        files := files - {entries[i]};
      }
      assert entries[..|entries|] == entries;
      db := db - OwnedByUser(db.Keys, user);
      return Some(Ok(()));
    }

    method ListEntries(caller: nat, prefix: string, uid: int, dir: seq<string>, rows: seq<string>) returns (r: Option<Result<seq<string>, Failure>>)
      requires var u := EffectiveUid(caller, uid);
        u.Ok? ==> Elements(dir) == Directory(State(), User(u.value)) && Elements(rows) == Aliases(db.Keys, u.value)
      modifies this
      ensures Serve(old(Current()), ListCall(caller, prefix, uid)) == (Current(), if r.None? then None else Some(Names(r.value)))
    {
      var u := EffectiveUid(caller, uid);
      if u.Err? {
        return Some(Err(u.error));
      }
      if workerGone {
        return None;
      }
      DirectoryDecodes(State(), u.value);
      hide Directory, Decodable, HasShortName, Aliases;
      var legacy := ListLegacy(u.value, dir);
      ReadableExactly(Elements(dir), u.value);
      if legacy.Err? {
        return Some(Err(SystemFailure));
      }
      ElementsOfSum(legacy.value, rows);
      var result := Retain(legacy.value + rows, prefix);
      SortOrders(result);
      result := Dedup(Sort(result));
      return Some(Ok(result));
    }
  }

  lemma NothingListed(uid: nat)
    ensures Listed({}, uid) == {}
  {
  }

  lemma ListedGrows(names: set<string>, f: string, uid: nat)
    requires |f| > |Decimal(uid)|
    ensures Listed(names + {f}, uid) == Listed(names, uid) + if Scans(uid, f) && Picked(uid, f) then {AliasIn(uid, f)} else {}
  {
    hide Scans, Picked, AliasIn;
  }

  lemma ParsedGrows(names: set<string>, f: string)
    ensures ParsedIds(names + {f}) == ParsedIds(names) + if ParseName(f).Some? then {ParseName(f).value} else {}
  {
    hide ParseName;
  }

  method Retain(s: seq<string>, prefix: string) returns (r: seq<string>)
    ensures Elements(r) == Matching(Elements(s), prefix)
  {
    r := [];
    for i := 0 to |s|
      invariant Elements(r) == Matching(Elements(s[..i]), prefix)
    {
      assert s[..i + 1] == s[..i] + [s[i]];
      ElementsOfSum(s[..i], [s[i]]);
      if prefix <= s[i] {
        ElementsOfSum(r, [s[i]]);
        r := r + [s[i]];
      }
    }
    assert s[..|s|] == s;
  }

  // ---------------------------------------------------------------------------------------------
  // What the directory scan finds

  /** A name begins with the digits of a uid exactly if those of its owner do, and what follows decodes to the alias, or to a misread one. */
  lemma NameBeginsWith(uid: nat, id: Id)
    requires IsNameable(id)
    ensures Decimal(uid) <= FileName(id) <==> Decimal(uid) <= Decimal(id.uid)
    ensures Decimal(uid) == Decimal(id.uid) <==> uid == id.uid
    ensures uid == id.uid ==> FileName(id)[|Decimal(uid)| + 1..] == Encode(id.alias)
    ensures Decimal(uid) < Decimal(id.uid) ==> FileName(id)[|Decimal(uid)| + 1..] == Decimal(id.uid)[|Decimal(uid)| + 1..] + "_" + Encode(id.alias)
  {
    var d, f := Decimal(uid), FileName(id);
    if d == Decimal(id.uid) {
      DecimalIsInjective(uid, id.uid);
    }
    hide Decimal, Encode;
    var e := Decimal(id.uid);
    assert f == e + ("_" + Encode(id.alias));
    assert f[|e|] == '_';
    if d <= f {
      assert forall k :: 0 <= k < |d| ==> d[k] == f[k] && f[k] != '_';
      assert d == f[..|d|] && |d| <= |e|;
    }
  }

  /** A misread alias begins with a digit or an underscore, so it does not look like a key's, and it can be decoded. */
  lemma MisreadDecodes(uid: nat, id: Id)
    requires IsNameable(id) && Decimal(uid) < Decimal(id.uid)
    ensures var rest := Decimal(id.uid)[|Decimal(uid)| + 1..] + "_" + Encode(id.alias);
      !IsKeystoreAlias(rest) && Decode(rest) == Some(Misread(uid, id))
  {
    var plain := Decimal(id.uid)[|Decimal(uid)| + 1..] + "_";
    var rest := plain + Encode(id.alias);
    assert rest[0] == '_' || '0' <= rest[0] <= '9';
    assert forall i :: 0 <= i < |plain| ==> IsPlain(plain[i]);
    hide Decimal, Encode, Decode, IsUtf8;
    PlainStays(plain, Encode(id.alias));
    DecodeReverses(id.alias);
  }

  predicate WellNamed(s: Store) {
    && (forall id :: id in s.files ==> IsNameable(id) && !IsKeystoreAlias(id.alias))
    && (forall id :: id in s.keyFiles ==> IsNameable(id) && IsKeystoreAlias(id.alias))
  }

  ghost predicate Inv(s: Store) {
    && s.db.Keys !! s.files.Keys
    && s.imported !! s.files.Keys
    && WellNamed(s)
  }

  /** How a name is read during the scan for a uid. */
  lemma NameIsRead(uid: nat, id: Id)
    requires IsNameable(id) && |FileName(id)| > |Decimal(uid)|
    ensures Scans(uid, FileName(id))
    ensures Picked(uid, FileName(id)) <==> (uid == id.uid && !IsKeystoreAlias(id.alias)) || Decimal(uid) < Decimal(id.uid)
    ensures Picked(uid, FileName(id)) ==> AliasIn(uid, FileName(id)) == if uid == id.uid then id.alias else Misread(uid, id)
  {
    NameBeginsWith(uid, id);
    DecodeReverses(id.alias);
    EncodedKeystoreAlias(id.alias);
    if Decimal(uid) < Decimal(id.uid) {
      MisreadDecodes(uid, id);
    }
    hide Decimal, Encode, Decode, IsKeystoreAlias, FileName, IsUtf8;
  }

  /** Whatever is picked and long enough can be decoded. */
  predicate Decodable(names: set<string>, uid: nat) {
    forall f :: f in names && |f| > |Decimal(uid)| ==> Scans(uid, f)
  }

  lemma DirectoryDecodes(s: Store, uid: nat)
    ensures Decodable(Directory(s, User(uid)), uid)
  {
    hide Decimal, FileName, IsKeystoreAlias, Encode;
    forall f | f in Directory(s, User(uid)) && |f| > |Decimal(uid)|
      ensures Scans(uid, f)
    {
      var id :| id in s.files.Keys + s.keyFiles && IsNameable(id) && User(id.uid) == User(uid) && FileName(id) == f;
      NameIsRead(uid, id);
    }
  }

  /** Then only a name that is too short keeps the directory from being read. */
  lemma ReadableExactly(names: set<string>, uid: nat)
    requires Decodable(names, uid)
    ensures Readable(names, uid) <==> !HasShortName(names, uid)
  {
    hide Decimal, IsKeystoreAlias, Decode;
  }

  /** The scan lists the uid's own aliases, and those of its lookalikes, cut in the wrong place. */
  lemma ScanFinds(s: Store, uid: nat, alias: string)
    requires WellNamed(s) && Readable(Directory(s, User(uid)), uid)
    ensures alias in Listed(Directory(s, User(uid)), uid) <==>
      Id(uid, alias) in s.files || exists id :: id in s.files.Keys + s.keyFiles && ReadAs(uid, id, alias)
  {
    hide Listed, Directory, Misread, IsKeystoreAlias, Decimal, WellNamed;
    if alias in Listed(Directory(s, User(uid)), uid) {
      ScanFindsOnly(s, uid, alias);
    }
    if Id(uid, alias) in s.files {
      FindsOwn(s, Id(uid, alias));
    }
    if id :| id in s.files.Keys + s.keyFiles && ReadAs(uid, id, alias) {
      FindsLookalike(s, uid, id);
    }
  }

  lemma ScanFindsOnly(s: Store, uid: nat, alias: string)
    requires WellNamed(s)
    requires alias in Listed(Directory(s, User(uid)), uid)
    ensures Id(uid, alias) in s.files || exists id :: id in s.files.Keys + s.keyFiles && ReadAs(uid, id, alias)
  {
    hide Decimal, IsKeystoreAlias, FileName, Scans, Picked, AliasIn;
    var f :| f in Directory(s, User(uid)) && Scans(uid, f) && Picked(uid, f) && alias == AliasIn(uid, f);
    var id :| id in s.files.Keys + s.keyFiles && IsNameable(id) && User(id.uid) == User(uid) && FileName(id) == f;
    ScannedIsLonger(uid, f);
    NameIsRead(uid, id);
    if id.uid != uid {
      assert ReadAs(uid, id, alias);
    }
  }

  lemma ScannedIsLonger(uid: nat, f: string)
    requires Scans(uid, f)
    ensures |f| > |Decimal(uid)|
  {
  }

  lemma FindsOwn(s: Store, id: Id)
    requires WellNamed(s) && Readable(Directory(s, User(id.uid)), id.uid) && id in s.files
    ensures id.alias in Listed(Directory(s, User(id.uid)), id.uid)
  {
    hide Decimal, IsKeystoreAlias, FileName, Picked, AliasIn;
    assert FileName(id) in Directory(s, User(id.uid));
    NameIsRead(id.uid, id);
  }

  lemma FindsLookalike(s: Store, uid: nat, id: Id)
    requires WellNamed(s) && Readable(Directory(s, User(uid)), uid)
    requires id in s.files.Keys + s.keyFiles && Lookalike(uid, id.uid)
    ensures Decimal(uid) < Decimal(id.uid) && Misread(uid, id) in Listed(Directory(s, User(uid)), uid)
  {
    hide Decimal, IsKeystoreAlias, FileName, Picked, AliasIn;
    assert FileName(id) in Directory(s, User(uid));
    NameIsRead(uid, id);
    NameBeginsWith(uid, id);
  }

  // ---------------------------------------------------------------------------------------------
  // Two tiers, one map

  function Abstract(s: Store): map<Id, Entry> {
    s.files + s.db
  }

  /** What the calls mean for the one map. */
  function Meaning(m: map<Id, Entry>, call: Call): (map<Id, Entry>, Reply) {
    match call
    case GetCall(caller, alias, uid) =>
      var u := EffectiveUid(caller, uid);
      (m, Value(if u.Err? then Err(u.error) else if Id(u.value, alias) in m then Ok(m[Id(u.value, alias)]) else Err(NotFound)))
    case PutCall(caller, alias, uid, e) =>
      var u := EffectiveUid(caller, uid);
      if u.Err? then (m, Done(Err(u.error))) else (m[Id(u.value, alias) := e], Done(Ok(())))
    case RemoveCall(caller, alias, uid) =>
      var u := EffectiveUid(caller, uid);
      if u.Err? then (m, Done(Err(u.error)))
      else (m - {Id(u.value, alias)}, Done(if Id(u.value, alias) in m then Ok(()) else Err(NotFound)))
    case ListCall(caller, prefix, uid) =>
      var u := EffectiveUid(caller, uid);
      (m, Names(if u.Err? then Err(u.error) else Ok(SortedSeq(Matching(Aliases(m.Keys, u.value), prefix)))))
    case DeleteNamespaceCall(domain, namespace) =>
      var u := NamespaceUid(domain, namespace);
      (if u.None? then m else m - Owned(m.Keys, u.value), Done(Ok(())))
    case DeleteUserCall(user) => (m - OwnedByUser(m.Keys, user), Done(Ok(())))
  }

  lemma NextKeepsInv(s: Store, call: Call)
    requires Inv(s)
    ensures var t := Next(s, call).0; Inv(t) && t.files.Keys <= s.files.Keys && t.keyFiles == s.keyFiles
  {
    hide EffectiveUid, IsKeystoreAlias, Listed, Directory, Decimal, SortedSeq, NamespaceUid, User;
  }

  lemma AliasIsOwned(m: set<Id>, uid: nat, alias: string)
    ensures alias in Aliases(m, uid) <==> Id(uid, alias) in m
  {
    if Id(uid, alias) in m {
      var id := Id(uid, alias);
      assert id in m && id.uid == uid && id.alias == alias;
    }
  }

  /** No lookalike's file is read as an alias that matches and that the uid does not have. */
  ghost predicate NoConfusion(s: Store, prefix: string, uid: nat) {
    forall id, alias :: id in s.files.Keys + s.keyFiles && ReadAs(uid, id, alias) && prefix <= alias ==> Id(uid, alias) in Abstract(s)
  }

  lemma ListedMatching(s: Store, prefix: string, uid: nat, alias: string)
    requires Inv(s) && Readable(Directory(s, User(uid)), uid)
    ensures alias in Matching(Listed(Directory(s, User(uid)), uid) + Aliases(s.db.Keys, uid), prefix) <==>
      prefix <= alias && (Id(uid, alias) in Abstract(s) || exists id :: id in s.files.Keys + s.keyFiles && ReadAs(uid, id, alias))
  {
    ScanFinds(s, uid, alias);
    AliasIsOwned(s.db.Keys, uid, alias);
    hide Listed, Directory, ReadAs, Aliases, WellNamed, Decimal;
  }

  /** Listing answers with exactly the matching aliases of the one map, in order, under one condition. */
  lemma ListIsExact(s: Store, prefix: string, uid: nat)
    requires Inv(s)
    ensures List(s, prefix, uid) == Ok(SortedSeq(Matching(Aliases(Abstract(s).Keys, uid), prefix))) <==>
      Readable(Directory(s, User(uid)), uid) && NoConfusion(s, prefix, uid)
  {
    if Readable(Directory(s, User(uid)), uid) {
      var listed := Matching(Listed(Directory(s, User(uid)), uid) + Aliases(s.db.Keys, uid), prefix);
      var meant := Matching(Aliases(Abstract(s).Keys, uid), prefix);
      assert SortedSeq(listed) == SortedSeq(meant) <==> listed == meant;
      forall alias
        ensures alias in listed <==> prefix <= alias && (Id(uid, alias) in Abstract(s) || exists id :: id in s.files.Keys + s.keyFiles && ReadAs(uid, id, alias))
        ensures alias in meant <==> prefix <= alias && Id(uid, alias) in Abstract(s)
      {
        ListedMatching(s, prefix, uid, alias);
        AliasIsOwned(Abstract(s).Keys, uid, alias);
      }
      SameExactly(s, prefix, uid, listed, meant);
    }
  }

  lemma SameExactly(s: Store, prefix: string, uid: nat, listed: set<string>, meant: set<string>)
    requires forall alias :: alias in listed <==> prefix <= alias && (Id(uid, alias) in Abstract(s) || exists id :: id in s.files.Keys + s.keyFiles && ReadAs(uid, id, alias))
    requires forall alias :: alias in meant <==> prefix <= alias && Id(uid, alias) in Abstract(s)
    ensures listed == meant <==> NoConfusion(s, prefix, uid)
  {
    hide Abstract, ReadAs;
    assert meant <= listed;
    if NoConfusion(s, prefix, uid) {
      assert listed <= meant;
    }
    if listed == meant {
      forall id, alias | id in s.files.Keys + s.keyFiles && ReadAs(uid, id, alias) && prefix <= alias
        ensures Id(uid, alias) in Abstract(s)
      {
        assert alias in listed;
      }
    }
  }

  /** The condition can fail: a file of the app with uid 10005 spoils the list of the system, uid 1000. */
  lemma SystemListsAnAppsFile(s: Store)
    requires Inv(s) && Id(10005, "vpn") in s.files && Id(AID_SYSTEM, "_vpn") !in Abstract(s)
    ensures List(s, "", AID_SYSTEM) != Ok(SortedSeq(Matching(Aliases(Abstract(s).Keys, AID_SYSTEM), "")))
  {
    SomeDecimals();
    hide Decimal, List, Abstract, SortedSeq, Matching, Aliases, WellNamed, IsKeystoreAlias;
    var id := Id(10005, "vpn");
    assert ReadAs(AID_SYSTEM, id, "_vpn");
    ListIsExact(s, "", AID_SYSTEM);
  }

  lemma SomeDecimals()
    ensures Decimal(0) == "0" && Decimal(1000) == "1000" && Decimal(10005) == "10005"
  {
    assert Decimal(1) == "1";
    assert Decimal(10) == "10";
    assert Decimal(100) == "100";
    assert Decimal(1000) == "1000";
  }

  lemma DeletedAreOwned(s: Store, uid: nat, id: Id)
    requires Inv(s) && Readable(Directory(s, User(uid)), uid) && id in s.files
    ensures id in Image(Listed(Directory(s, User(uid)), uid), (a: string) => Id(uid, a)) <==> id.uid == uid
  {
    var f := (a: string) => Id(uid, a);
    if id.uid == uid {
      FindsOwn(s, id);
      hide Listed, Directory, Decimal;
      assert f(id.alias) == id;
    }
  }

  lemma ScannedUidIsDeleted(s: Store, uid: nat)
    requires Inv(s) && Readable(Directory(s, User(uid)), uid)
    ensures Abstract(DeleteUid(s, uid)) == Abstract(s) - Owned(Abstract(s).Keys, uid)
  {
    hide Listed, Directory, Decimal, Readable, WellNamed, Image, User;
    var gone := Image(Listed(Directory(s, User(uid)), uid), (a: string) => Id(uid, a));
    forall id | id in s.files
      ensures id in gone <==> id.uid == uid
    {
      DeletedAreOwned(s, uid, id);
    }
    assert DeleteUid(s, uid).files == s.files - gone;
  }

  predicate HasFiles(s: Store, uid: nat) {
    exists id :: id in s.files && id.uid == uid
  }

  lemma UnscannedFilesStay(s: Store, uid: nat)
    requires !Readable(Directory(s, User(uid)), uid)
    ensures DeleteUid(s, uid).files == s.files
  {
    hide Directory, Decimal, User;
    assert Image({}, (a: string) => Id(uid, a)) == {};
  }

  /** Deleting a uid deletes exactly its entries if and only if its files can be found, or it has none. */
  lemma DeleteUidMeans(s: Store, uid: nat)
    requires Inv(s)
    ensures Abstract(DeleteUid(s, uid)) == Abstract(s) - Owned(Abstract(s).Keys, uid) <==>
      Readable(Directory(s, User(uid)), uid) || !HasFiles(s, uid)
  {
    if Readable(Directory(s, User(uid)), uid) {
      ScannedUidIsDeleted(s, uid);
    } else {
      UnscannedFilesStay(s, uid);
      hide Directory, Decimal, Readable, WellNamed, User;
      var t := DeleteUid(s, uid);
      assert t.files == s.files && t.db == s.db - Owned(s.db.Keys, uid);
      if id :| id in s.files && id.uid == uid {
        assert id in Abstract(t) && id in Owned(Abstract(s).Keys, uid);
      } else {
        assert Abstract(t) == Abstract(s) - Owned(Abstract(s).Keys, uid);
      }
    }
  }

  /** The condition can fail: beside a file of uid 0 with a two letter alias, the files of uid 1000 outlive its deletion. */
  lemma ShortNameKeepsFiles(s: Store, alias: string)
    requires Inv(s) && Id(0, "ab") in s.files && Id(AID_SYSTEM, alias) in s.files
    ensures Id(AID_SYSTEM, alias) in Abstract(DeleteUid(s, AID_SYSTEM))
  {
    ShortName(s);
    hide Decimal, Directory;
    UnscannedFilesStay(s, AID_SYSTEM);
  }

  lemma ShortName(s: Store)
    requires WellNamed(s) && Id(0, "ab") in s.files
    ensures HasShortName(Directory(s, User(AID_SYSTEM)), AID_SYSTEM) && !Readable(Directory(s, User(AID_SYSTEM)), AID_SYSTEM)
  {
    SomeDecimals();
    var short := Id(0, "ab");
    assert FileName(short) == "0_ab" by { assert short.alias[1..] == "b" && "b"[1..] == ""; }
    assert FileName(short) in Directory(s, User(AID_SYSTEM));
    hide Decimal, Directory, Encode, FileName;
    assert !Scans(AID_SYSTEM, FileName(short));
  }

  lemma GetMeans(s: Store, id: Id)
    requires Inv(s)
    ensures var (t, r) := Get(s, id); Abstract(t) == Abstract(s) && r == if id in Abstract(s) then Ok(Abstract(s)[id]) else Err(NotFound)
  {
    hide WellNamed;
  }

  lemma PutMeans(s: Store, id: Id, e: Entry)
    requires Inv(s)
    ensures Abstract(Put(s, id, e)) == Abstract(s)[id := e]
  {
    hide WellNamed;
  }

  lemma RemoveMeans(s: Store, id: Id)
    requires Inv(s)
    ensures var (t, r) := Remove(s, id); Abstract(t) == Abstract(s) - {id} && r == if id in Abstract(s) then Ok(()) else Err(NotFound)
  {
    hide WellNamed;
  }

  /** Listing a whole user directory finds exactly the entries of the user. */
  lemma UserScanIsExact(s: Store, user: nat)
    requires WellNamed(s)
    ensures ParsedIds(Directory(s, user)) == OwnedByUser(s.files.Keys, user)
  {
    hide ParseName, FileName, IsKeystoreAlias, User;
    forall id | id in s.files.Keys + s.keyFiles
      ensures IsNameable(id) && ParseName(FileName(id)) == if IsKeystoreAlias(id.alias) then None else Some(id)
    {
      ParseReverses(id);
    }
    forall id | id in OwnedByUser(s.files.Keys, user)
      ensures id in ParsedIds(Directory(s, user))
    {
      assert FileName(id) in Directory(s, user);
    }
  }

  lemma DeleteUserMeans(s: Store, user: nat)
    requires Inv(s)
    ensures Abstract(DeleteUser(s, user)) == Abstract(s) - OwnedByUser(Abstract(s).Keys, user)
  {
    UserScanIsExact(s, user);
    hide WellNamed, User, ParsedIds, Directory;
  }

  /** When a call does what it means: a list must not be confused by other uids' files, a deletion must find the files there are. */
  ghost predicate Faithful(s: Store, call: Call) {
    match call
    case ListCall(caller, prefix, uid) =>
      var u := EffectiveUid(caller, uid);
      u.Ok? ==> Readable(Directory(s, User(u.value)), u.value) && NoConfusion(s, prefix, u.value)
    case DeleteNamespaceCall(domain, namespace) =>
      var u := NamespaceUid(domain, namespace);
      u.Some? ==> Readable(Directory(s, User(u.value)), u.value) || !HasFiles(s, u.value)
    case _ => true
  }

  /** A call does to the one map what it means, and answers accordingly, exactly under that condition. */
  lemma CallRefines(s: Store, call: Call)
    requires Inv(s)
    ensures var (t, r) := Next(s, call); (Abstract(t), r) == Meaning(Abstract(s), call) <==> Faithful(s, call)
  {
    hide Get, Put, Remove, List, DeleteUid, DeleteUser, Abstract, Inv, EffectiveUid, NamespaceUid, Directory, Matching, Aliases, Owned, OwnedByUser, Listed, Decimal, ReadAs, Readable, NoConfusion, HasFiles;
    match call {
      case GetCall(caller, alias, uid) =>
        var u := EffectiveUid(caller, uid);
        if u.Ok? {
          GetMeans(s, Id(u.value, alias));
        }
      case PutCall(caller, alias, uid, e) =>
        var u := EffectiveUid(caller, uid);
        if u.Ok? {
          PutMeans(s, Id(u.value, alias), e);
        }
      case RemoveCall(caller, alias, uid) =>
        var u := EffectiveUid(caller, uid);
        if u.Ok? {
          RemoveMeans(s, Id(u.value, alias));
        }
      case ListCall(caller, prefix, uid) =>
        var u := EffectiveUid(caller, uid);
        if u.Ok? {
          ListIsExact(s, prefix, u.value);
        }
      case DeleteNamespaceCall(domain, namespace) =>
        var u := NamespaceUid(domain, namespace);
        if u.Some? {
          DeleteUidMeans(s, u.value);
        }
      case DeleteUserCall(user) =>
        DeleteUserMeans(s, user);
    }
  }

  // ---------------------------------------------------------------------------------------------
  // Whole runs

  /** What a caller can check once, before a run: every name can be cut for the uid, and no file can be mistaken for one of a listed uid. */
  ghost predicate SafeToCall(s: Store, call: Call) {
    match call
    case ListCall(caller, _, uid) =>
      var u := EffectiveUid(caller, uid);
      u.Ok? ==> !HasShortName(Directory(s, User(u.value)), u.value) && forall id :: id in s.files.Keys + s.keyFiles ==> !Lookalike(u.value, id.uid)
    case _ => ScanReturns(s, call)
  }

  lemma SafeIsFaithful(s: Store, call: Call)
    requires SafeToCall(s, call)
    ensures Faithful(s, call) && ScanReturns(s, call)
  {
    forall uid: nat
      ensures !HasShortName(Directory(s, User(uid)), uid) ==> Readable(Directory(s, User(uid)), uid)
    {
      DirectoryDecodes(s, uid);
      ReadableExactly(Directory(s, User(uid)), uid);
    }
    hide Decimal, Directory, Readable, EffectiveUid, NamespaceUid, HasShortName;
  }

  /** Calls only ever remove files, so it stays that way. */
  lemma SafeStays(s: Store, t: Store, call: Call)
    requires SafeToCall(s, call) && t.files.Keys <= s.files.Keys && t.keyFiles == s.keyFiles
    ensures SafeToCall(t, call)
  {
    hide Decimal, User, FileName, EffectiveUid, NamespaceUid;
    forall uid: nat
      ensures HasShortName(Directory(t, User(uid)), uid) ==> HasShortName(Directory(s, User(uid)), uid)
    {
      assert Directory(t, User(uid)) <= Directory(s, User(uid));
    }
  }

  /** A call that does not need the worker changes nothing, and answers from the one map, whatever the state. */
  lemma WithoutWorker(s: Store, call: Call)
    requires !NeedsWorker(s, call)
    ensures Next(s, call).0 == s && (Abstract(s), Next(s, call).1) == Meaning(Abstract(s), call)
    ensures Faithful(s, call) && ScanReturns(s, call)
  {
    hide EffectiveUid, NamespaceUid, Directory, Readable, NoConfusion, HasFiles, List, DeleteUid, HasShortName;
  }

  ghost predicate IsRun(states: seq<Service>, calls: seq<Call>) {
    && |states| == |calls| + 1
    && Inv(states[0].store) && !states[0].workerGone
    && forall i :: 0 <= i < |calls| ==> states[i + 1] == Serve(states[i], calls[i]).0
  }

  /** As long as there is a worker the tiers are disjoint; files never appear; and the worker is gone exactly if a scan met too short a name. */
  lemma {:induction false} RunKeepsInv(states: seq<Service>, calls: seq<Call>, n: nat)
    requires IsRun(states, calls) && n < |states|
    ensures !states[n].workerGone ==> Inv(states[n].store)
    ensures states[n].store.files.Keys <= states[0].store.files.Keys && states[n].store.keyFiles == states[0].store.keyFiles
    ensures states[n].workerGone <==> exists i :: 0 <= i < n && !ScanReturns(states[i].store, calls[i])
  {
    hide Next, Inv, ScanReturns, NeedsWorker;
    if n > 0 {
      RunKeepsInv(states, calls, n - 1);
      var w, call := states[n - 1], calls[n - 1];
      if !w.workerGone {
        NextKeepsInv(w.store, call);
      } else if !NeedsWorker(w.store, call) {
        WithoutWorker(w.store, call);
      }
      if !w.workerGone && !ScanReturns(w.store, call) {
        assert !ScanReturns(states[n - 1].store, calls[n - 1]);
      }
    }
  }

  /**
    In every run from a store whose tiers are disjoint:
    - a call is answered if and only if it does not need the worker, or no earlier scan met too short a name;
    - an answered call acts on the one map and answers as it means to, if and only if it is faithful in the state it meets;
    - a call that is never answered leaves the one map alone, except that a put has put its entry.
   */
  lemma RunRefines(states: seq<Service>, calls: seq<Call>, n: nat)
    requires IsRun(states, calls) && n < |calls|
    ensures var s, t, answer := states[n].store, states[n + 1].store, Serve(states[n], calls[n]).1;
      && (answer.Some? <==> !NeedsWorker(s, calls[n]) || forall i :: 0 <= i < n ==> ScanReturns(states[i].store, calls[i]))
      && (answer.Some? ==> ((Abstract(t), answer.value) == Meaning(Abstract(s), calls[n]) <==> Faithful(s, calls[n])))
      && (answer.None? ==> Abstract(t) == if calls[n].PutCall? then Meaning(Abstract(s), calls[n]).0 else Abstract(s))
  {
    hide Next, Faithful, ScanReturns, NeedsWorker, Inv;
    RunKeepsInv(states, calls, n);
    var w, call := states[n], calls[n];
    if !w.workerGone {
      CallRefines(w.store, call);
    } else if !NeedsWorker(w.store, call) {
      WithoutWorker(w.store, call);
    } else {
      BegunMeans(w.store, call);
    }
  }

  lemma BegunMeans(s: Store, call: Call)
    requires NeedsWorker(s, call)
    ensures Abstract(Begun(s, call)) == if call.PutCall? then Meaning(Abstract(s), call).0 else Abstract(s)
  {
    hide EffectiveUid, NamespaceUid;
  }

  /** If every call of a run was safe at the start, all are answered, and as they mean to. */
  lemma SafeRunRefines(states: seq<Service>, calls: seq<Call>, n: nat)
    requires IsRun(states, calls) && n < |calls|
    requires forall i :: 0 <= i <= n ==> SafeToCall(states[0].store, calls[i])
    ensures var answer := Serve(states[n], calls[n]).1;
      answer.Some? && (Abstract(states[n + 1].store), answer.value) == Meaning(Abstract(states[n].store), calls[n])
  {
    assert |states| == |calls| + 1;
    hide Serve, Meaning, Abstract, SafeToCall, Faithful, ScanReturns, NeedsWorker, Inv, IsRun;
    forall i | 0 <= i <= n
      ensures Faithful(states[i].store, calls[i]) && ScanReturns(states[i].store, calls[i])
    {
      RunKeepsInv(states, calls, i);
      SafeStays(states[0].store, states[i].store, calls[i]);
      SafeIsFaithful(states[i].store, calls[i]);
    }
    RunRefines(states, calls, n);
  }

  /** It does happen: beside a file of uid 0 with a two letter alias, deleting the namespace of uid 1000 is answered, and no put is ever after. */
  lemma PutsHangAfterShortName(w: Service, caller: nat, alias: string, uid: int, e: Entry)
    requires Inv(w.store) && !w.workerGone && Id(0, "ab") in w.store.files && EffectiveUid(caller, uid).Ok?
    ensures var (v, answer) := Serve(w, DeleteNamespaceCall(Tables.App, AID_SYSTEM));
      answer == Some(Done(Ok(()))) && v.workerGone && Serve(v, PutCall(caller, alias, uid, e)).1 == None
  {
    ShortName(w.store);
    var deletion := DeleteNamespaceCall(Tables.App, AID_SYSTEM);
    assert NamespaceUid(Tables.App, AID_SYSTEM) == Some(AID_SYSTEM);
    hide Directory, Decimal, DeleteUid, HasShortName, EffectiveUid, NamespaceUid, Readable, WellNamed, User;
    assert !ScanReturns(w.store, deletion);
    ShortScanEndsWorker(w, deletion);
    hide Serve, ScanReturns;
    NoWorkerNoPut(Serve(w, deletion).0, caller, alias, uid, e);
  }

  lemma ShortScanEndsWorker(w: Service, call: Call)
    requires !w.workerGone && !ScanReturns(w.store, call)
    ensures Serve(w, call).0.workerGone && Serve(w, call).1 == Some(Next(w.store, call).1)
    ensures call.DeleteNamespaceCall? ==> Serve(w, call).1 == Some(Done(Ok(())))
  {
    hide ScanReturns, NeedsWorker, DeleteUid, List;
  }

  lemma NoWorkerNoPut(v: Service, caller: nat, alias: string, uid: int, e: Entry)
    requires v.workerGone && EffectiveUid(caller, uid).Ok?
    ensures Serve(v, PutCall(caller, alias, uid, e)).1 == None
  {
    hide EffectiveUid, Next;
  }
}
