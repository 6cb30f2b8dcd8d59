/**
  On-device signing: at boot, the compiled artifacts are checked against signed digests or against
  those of CompOS, recompiled if need be, and signed again.
 */
module Odsign {
  import opened Prelude

  type Path = string

  type Digest = Bytes

  /** What a path leads to: a link to a file or to a directory counts as what it leads to. */
  datatype Node = Regular(digest: Digest, inVerity: bool) | Directory | DanglingLink | Special

  type Files = map<Path, Node>

  type Digests = map<Path, Digest>

  function RegularPaths(files: Files): set<Path> {
    set p | p in files && files[p].Regular?
  }

  function DigestsOf(files: Files): Digests {
    map p | p in files && files[p].Regular? :: files[p].digest
  }

  /** Only regular files and directories. */
  predicate Plain(files: Files) {
    forall p :: p in files ==> files[p].Regular? || files[p].Directory?
  }

  predicate AllInVerity(files: Files) {
    forall p :: p in files && files[p].Regular? ==> files[p].inVerity
  }

  function Stripped(n: Node): Node {
    if n.Regular? then n.(inVerity := false) else n
  }

  /** Enabling fs-verity changes nothing else. */
  predicate SameButVerity(a: Files, b: Files) {
    a.Keys == b.Keys && forall p :: p in a ==> Stripped(a[p]) == Stripped(b[p])
  }

  /** Every regular file has the digest recorded for it. */
  predicate Covered(files: Files, digests: Digests) {
    forall p :: p in files && files[p].Regular? ==> p in digests && digests[p] == files[p].digest
  }

  /** What may go wrong while a directory is walked: the walk itself, or a file that cannot be read. */
  datatype Walk = Walk(complete: bool, unreadable: set<Path>)

  predicate Readable(files: Files, walk: Walk) {
    walk.complete && forall p :: p in files && files[p].Regular? ==> p !in walk.unreadable
  }

  // ---------------------------------------------------------------------------------------------
  // Checking files

  /** A regular file that is there, can be read and has the digest. */
  predicate Matches(files: Files, digests: Digests, walk: Walk, p: Path) {
    p in files && files[p].Regular? && p in digests && digests[p] == files[p].digest && p !in walk.unreadable
  }

  /** The walk got through, it met nothing but directories and matching files, and these are all that were expected. */
  predicate CompOsAccepts(files: Files, digests: Digests, walk: Walk) {
    && walk.complete
    && (forall p :: p in files ==> files[p].Directory? || Matches(files, digests, walk, p))
    && RegularPaths(files) == digests.Keys
  }

  /** Everything but what is left has been met, and the regular files among it have matched. */
  ghost predicate Progress(files: Files, digests: Digests, walk: Walk, left: set<Path>, verified: set<Path>, after: Files) {
    && left <= files.Keys
    && verified == RegularPaths(files) - left
    && SameButVerity(files, after)
    && (forall p :: p in files && p !in left ==> files[p].Directory? || (Matches(files, digests, walk, p) && after[p].Regular? && after[p].inVerity))
  }

  lemma FileMatched(files: Files, digests: Digests, walk: Walk, left: set<Path>, verified: set<Path>, after: Files, p: Path)
    requires Progress(files, digests, walk, left, verified, after)
    requires p in left && p in files && Matches(files, digests, walk, p)
    ensures Progress(files, digests, walk, left - {p}, verified + {p}, after[p := files[p].(inVerity := true)])
    ensures p !in verified
  {
  }

  lemma DirectoryMet(files: Files, digests: Digests, walk: Walk, left: set<Path>, verified: set<Path>, after: Files, p: Path)
    requires Progress(files, digests, walk, left, verified, after)
    requires p in left && p in files && files[p].Directory?
    ensures Progress(files, digests, walk, left - {p}, verified, after)
  {
  }

  lemma VerityEnabled(files: Files, after: Files, p: Path)
    requires SameButVerity(files, after) && p in files && files[p].Regular?
    ensures SameButVerity(files, after[p := files[p].(inVerity := true)])
  {
  }

  /** Counting suffices: as many matches as expected files are all of them. */
  lemma AllMatched(files: Files, digests: Digests, walk: Walk, verified: set<Path>, after: Files)
    requires Progress(files, digests, walk, {}, verified, after) && walk.complete
    ensures CompOsAccepts(files, digests, walk) <==> |verified| == |digests.Keys|
    ensures AllInVerity(after)
  {
    assert verified <= digests.Keys;
    if |verified| == |digests.Keys| {
      SubsetOfEqualSize(verified, digests.Keys);
    }
    assert forall p :: p in after && after[p].Regular? ==> files[p].Regular?;
  }

  /** The directory is walked in any order, each entry once. */
  method VerifyAllFilesUsingCompOs(files: Files, digests: Digests, walk: Walk) returns (ok: bool, after: Files)
    ensures ok <==> CompOsAccepts(files, digests, walk)
    ensures SameButVerity(files, after)
    ensures ok ==> AllInVerity(after)
  {
    after := files;
    var verifiedCount := 0;
    var left := files.Keys;
    ghost var verified: set<Path> := {};
    hide SameButVerity, AllInVerity, Progress, CompOsAccepts;
    NothingMet(files, digests, walk);
    Rejects(files, digests, walk);
    ProgressMeans(files, digests, walk, left, verified, after);
    while left != {}
      invariant Progress(files, digests, walk, left, verified, after)
      invariant left <= files.Keys && SameButVerity(files, after) && verifiedCount == |verified|
      decreases |left|
    {
      var path :| path in left;
      var node := files[path];
      if node.Regular? {
        if path !in digests || path in walk.unreadable {
          return false, after;
        }
        VerityEnabled(files, after, path);
        if node.digest != digests[path] {
          return false, after[path := node.(inVerity := true)];
        }
        FileMatched(files, digests, walk, left, verified, after, path);
        after := after[path := node.(inVerity := true)];
        verifiedCount := verifiedCount + 1;
        verified := verified + {path};
      } else if node.Directory? {
        DirectoryMet(files, digests, walk, left, verified, after, path);
      } else {
        return false, after;
      }
      left := left - {path};
      ProgressMeans(files, digests, walk, left, verified, after);
    }
    if !walk.complete {
      return false, after;
    }
    AllMatched(files, digests, walk, verified, after);
    return verifiedCount == |digests.Keys|, after;
  }

  lemma Rejects(files: Files, digests: Digests, walk: Walk)
    ensures CompOsAccepts(files, digests, walk) ==> walk.complete && forall p :: p in files ==> files[p].Directory? || Matches(files, digests, walk, p)
  {
  }

  lemma ProgressMeans(files: Files, digests: Digests, walk: Walk, left: set<Path>, verified: set<Path>, after: Files)
    requires Progress(files, digests, walk, left, verified, after)
    ensures left <= files.Keys && SameButVerity(files, after)
  {
  }

  lemma NothingMet(files: Files, digests: Digests, walk: Walk)
    ensures Progress(files, digests, walk, files.Keys, {}, files)
  {
  }

  lemma DigestsMore(files: Files, left: set<Path>, p: Path)
    requires left <= files.Keys && p in left && p in files
    ensures DigestsOf(files - (left - {p})) == if files[p].Regular? then DigestsOf(files - left)[p := files[p].digest] else DigestsOf(files - left)
  {
  }

  lemma NoDigestsYet(files: Files)
    ensures DigestsOf(files - files.Keys) == map[] && files - {} == files
  {
  }

  method VerifyAllFilesInVerity(files: Files, walk: Walk) returns (r: Option<Digests>)
    ensures r.Some? <==> Readable(files, walk) && Plain(files) && AllInVerity(files)
    ensures r.Some? ==> r.value == DigestsOf(files)
  {
    hide DigestsOf;
    NoDigestsYet(files);
    var digests: Digests := map[];
    var left := files.Keys;
    while left != {}
      invariant left <= files.Keys
      invariant digests == DigestsOf(files - left)
      invariant forall p :: p in files && p !in left ==> files[p].Directory? || (files[p].Regular? && files[p].inVerity && p !in walk.unreadable)
      decreases |left|
    {
      var path :| path in left;
      DigestsMore(files, left, path);
      left := left - {path};
      var node := files[path];
      if node.Regular? {
        if !node.inVerity || path in walk.unreadable {
          return None;
        }
        digests := digests[path := node.digest];
      } else if !node.Directory? {
        return None;
      }
    }
    return if walk.complete then Some(digests) else None;
  }

  method ComputeDigests(files: Files, walk: Walk) returns (r: Option<Digests>)
    ensures r.Some? <==> Readable(files, walk)
    ensures r.Some? ==> r.value == DigestsOf(files)
  {
    hide DigestsOf;
    NoDigestsYet(files);
    var digests: Digests := map[];
    var left := files.Keys;
    while left != {}
      invariant left <= files.Keys
      invariant digests == DigestsOf(files - left)
      invariant forall p :: p in files && p !in left && files[p].Regular? ==> p !in walk.unreadable
      decreases |left|
    {
      var path :| path in left;
      DigestsMore(files, left, path);
      left := left - {path};
      if files[path].Regular? {
        if path in walk.unreadable {
          return None;
        }
        digests := digests[path := files[path].digest];
      }
    }
    return if walk.complete then Some(digests) else None;
  }

  method AddFilesToVerityRecursive(files: Files, walk: Walk) returns (r: Option<Digests>, after: Files)
    ensures SameButVerity(files, after)
    ensures r.Some? <==> Readable(files, walk)
    ensures r.Some? ==> r.value == DigestsOf(files) && AllInVerity(after)
  {
    hide DigestsOf, SameButVerity;
    NoDigestsYet(files);
    after := files;
    var digests: Digests := map[];
    var left := files.Keys;
    assert SameButVerity(files, files) by { NothingMet(files, map[], walk); }
    while left != {}
      invariant left <= files.Keys && SameButVerity(files, after) && after.Keys == files.Keys
      invariant digests == DigestsOf(files - left)
      invariant forall p :: p in files && p !in left && files[p].Regular? ==> p !in walk.unreadable
      invariant forall p :: p in files && p !in left && after[p].Regular? ==> after[p].inVerity
      invariant forall p :: p in files && p in left ==> after[p] == files[p]
      decreases |left|
    {
      var path :| path in left;
      DigestsMore(files, left, path);
      left := left - {path};
      if files[path].Regular? {
        if path in walk.unreadable {
          return None, after;
        }
        VerityEnabled(files, after, path);
        after := after[path := files[path].(inVerity := true)];
        digests := digests[path := files[path].digest];
      }
    }
    return if walk.complete then Some(digests) else None, after;
  }

  method VerifyDigests(digests: Digests, trusted: Digests) returns (ok: bool)
    ensures ok <==> forall p :: p in digests ==> p in trusted && trusted[p] == digests[p]
  {
    var left := digests.Keys;
    while left != {}
      invariant left <= digests.Keys
      invariant forall p :: p in digests && p !in left ==> p in trusted && trusted[p] == digests[p]
      decreases |left|
    {
      var path :| path in left;
      left := left - {path};
      if path !in trusted || trusted[path] != digests[path] {
        return false;
      }
    }
    return true;
  }

  /** Whether the files would pass verification, if they can be read. */
  predicate Verifiable(files: Files, trusted: Digests, fsVerity: bool) {
    Covered(files, trusted) && (fsVerity ==> Plain(files) && AllInVerity(files))
  }

  method VerifyArtifactsIntegrity(files: Files, trusted: Digests, fsVerity: bool, walk: Walk) returns (ok: bool)
    ensures ok <==> Readable(files, walk) && Verifiable(files, trusted, fsVerity)
  {
    var digests;
    if fsVerity {
      digests := VerifyAllFilesInVerity(files, walk);
    } else {
      digests := ComputeDigests(files, walk);
    }
    if digests.None? {
      return false;
    }
    ok := VerifyDigests(digests.value, trusted);
  }

  // ---------------------------------------------------------------------------------------------
  // The boot

  datatype ExitCode = Okay | CompilationRequired | CompilationSuccess | CompilationFailed | CleanupFailed | OtherExit

  /** Removing a directory may fail half way. */
  datatype Removal = RemovedAll | RemovedSome(left: set<Path>)

  /** The signature is written without checking that it was; `readBack` is what is trusted after a failure. */
  datatype Signing = NotSigned(readBack: Digests) | SignatureLost | Signed

  datatype ComposInfo = NotGenuine | Unreadable | NotDeleted(left: set<Path>) | Malformed | Genuine(digests: Digests)

  datatype Compilation = Compilation(status: ExitCode, written: Files, deleted: set<Path>)

  /** What the environment answers during one boot. */
  datatype Env = Env(
    updatableApex: bool,
    keystoreKey: bool,
    fsVerity: bool,
    compOs: bool,
    certificate: bool,
    firstCheck: ExitCode,
    secondCheck: ExitCode,
    pendingInfo: bool,
    removeOld: Removal,
    rename: bool,
    removePending: Removal,
    compos: ComposInfo,
    composWalk: Walk,
    composSigning: Signing,
    removeInvalid: Removal,
    accessDenied: bool,
    verifyWalk: Walk,
    removeUnverified: Removal,
    compilation: Compilation,
    signWalk: Walk,
    signing: Signing,
    finalArt: Removal,
    finalPending: Removal)

  const COMPOS_INFO: set<Path> := {"compos.info", "compos.info.signature"}

  /** The directory after an attempt to remove it, and the number of entries removed. */
  function Removed(dir: Option<Files>, r: Removal): (Option<Files>, nat) {
    if dir.None? then (None, 0)
    else if r.RemovedAll? then (None, |dir.value| + 1)
    else (Some(map p | p in dir.value && p in r.left :: dir.value[p]), 0)
  }

  /** A directory that is not there cannot be walked. */
  function WalkOf(dir: Option<Files>, walk: Walk): Walk {
    if dir.None? then walk.(complete := false) else walk
  }

  function FilesOf(dir: Option<Files>): Files {
    if dir.None? then map[] else dir.value
  }

  function Compiled(dir: Option<Files>, c: Compilation): Option<Files> {
    if dir.None? && c.written == map[] then None
    else Some((FilesOf(dir) - c.deleted) + c.written)
  }

  function ReadBack(digests: Digests, s: Signing): Digests {
    match s
    case NotSigned(readBack) => readBack
    case SignatureLost => map[]
    case Signed => digests
  }

  /** The files are as CompOS made them. */
  predicate FromCompOs(files: Files, env: Env) {
    env.compos.Genuine? && Covered(files, env.compos.digests) && RegularPaths(files) == env.compos.digests.Keys && Plain(files) && AllInVerity(files)
  }

  /** Which steps this boot took: it adopted artifacts of CompOS, it asked for a compilation. */
  datatype Steps = Steps(adopted: bool, compiled: bool)

  /** Where a file may come from: it had a signed digest, or a CompOS one, or this boot's compiler wrote it. */
  predicate Accounted(p: Path, digest: Digest, trusted: Digests, env: Env, steps: Steps) {
    || (p in trusted && trusted[p] == digest)
    || (steps.adopted && env.compos.Genuine? && p in env.compos.digests && env.compos.digests[p] == digest)
    || (steps.compiled && p in env.compilation.written && env.compilation.written[p].Regular? && env.compilation.written[p].digest == digest)
  }

  predicate AllAccounted(files: Files, trusted: Digests, env: Env, steps: Steps) {
    forall p :: p in files && files[p].Regular? ==> Accounted(p, files[p].digest, trusted, env, steps)
  }

  /** Asking whether artifacts are valid does not compile. */
  predicate CheckOnlyChecks(env: Env) {
    env.firstCheck !in {CompilationSuccess, CompilationFailed} && env.secondCheck !in {CompilationSuccess, CompilationFailed}
  }

  /** What is left of the directory once the info files of CompOS have been read and deleted. */
  function WithoutInfo(dir: Option<Files>, info: ComposInfo): Option<Files> {
    if dir.None? then None
    else match info
      case NotGenuine | Unreadable => dir
      case NotDeleted(left) => Some(dir.value - (COMPOS_INFO - left))
      case Malformed | Genuine(_) => Some(dir.value - COMPOS_INFO)
  }

  /** The pending artifacts replace the current ones. */
  predicate Switches(art: Option<Files>, pending: Option<Files>, env: Env) {
    && pending.Some? && pending.value != map[]
    && env.firstCheck == CompilationRequired && env.pendingInfo && env.rename
    && var left := Removed(art, env.removeOld).0; left.None? || left.value == map[]
  }

  /** Artifacts that CompOS vouches for. */
  predicate Vouched(dir: Files, env: Env) {
    env.compos.Genuine? && CompOsAccepts(dir - COMPOS_INFO, env.compos.digests, env.composWalk)
  }

  /** They will be used, and have been signed unless a compilation comes next. */
  predicate Adopted(dir: Files, env: Env) {
    Vouched(dir, env) && (env.secondCheck == CompilationRequired || (env.secondCheck == Okay && !env.composSigning.NotSigned?))
  }

  predicate ComposVerified(art: Option<Files>, pending: Option<Files>, env: Env) {
    Switches(art, pending, env) && Adopted(pending.value, env)
  }

  predicate UsesCompOs(env: Env) { env.fsVerity && env.compOs }

  /** What the checks before the compilation say. */
  function CheckStatus(art: Option<Files>, pending: Option<Files>, env: Env): ExitCode {
    if UsesCompOs(env) then PendingStatus(art, pending, env) else env.firstCheck
  }

  function PendingStatus(art: Option<Files>, pending: Option<Files>, env: Env): ExitCode {
    if !Switches(art, pending, env) then env.firstCheck
    else if Vouched(pending.value, env) then (if env.secondCheck == Okay && env.composSigning.NotSigned? then CleanupFailed else env.secondCheck)
    else if env.removeInvalid.RemovedAll? then CompilationRequired else CleanupFailed
  }

  function StepsOf(art: Option<Files>, pending: Option<Files>, env: Env): Steps {
    Steps(UsesCompOs(env) && ComposVerified(art, pending, env), CheckStatus(art, pending, env) == CompilationRequired)
  }

  /** The files passed a check of this boot. */
  predicate Known(dir: Option<Files>, trusted: Digests, env: Env, adopted: bool) {
    dir.None? || Verifiable(dir.value, trusted, env.fsVerity) || (adopted && FromCompOs(dir.value, env))
  }

  /** The compiler writes files and directories, and nothing if it finds nothing to do. */
  predicate TidyCompiler(env: Env) {
    && Plain(env.compilation.written)
    && (env.compilation.status == Okay ==> env.compilation.written == map[] && env.compilation.deleted == {})
  }

  /** The artifacts of CompOS were accepted, but not signed, as a compilation was expected that did not happen. */
  predicate LeftUnsigned(art: Option<Files>, pending: Option<Files>, env: Env) {
    UsesCompOs(env) && ComposVerified(art, pending, env) && env.secondCheck == CompilationRequired && env.compilation.status == Okay
  }

  /** The digests signed last cannot be read back, as nobody noticed that their signature was not written. */
  predicate SignatureWasLost(art: Option<Files>, pending: Option<Files>, env: Env) {
    var steps := StepsOf(art, pending, env);
    || (steps.adopted && env.secondCheck == Okay && env.composSigning == SignatureLost)
    || (steps.compiled && env.compilation.status in {CompilationSuccess, CompilationFailed} && env.signing == SignatureLost)
  }

  predicate Ready(env: Env) {
    env.updatableApex && env.keystoreKey && (env.fsVerity ==> env.certificate)
  }

  /** The artifacts are there and pass verification, or are not there. */
  predicate Intact(dir: Option<Files>, trusted: Digests, env: Env) {
    if dir.None? then !env.accessDenied else Readable(dir.value, env.verifyWalk) && Verifiable(dir.value, trusted, env.fsVerity)
  }

  predicate Tampered(dir: Option<Files>, trusted: Digests, env: Env) {
    dir.Some? && !Verifiable(dir.value, trusted, env.fsVerity)
  }

  predicate Signable(dir: Option<Files>, env: Env) {
    dir.Some? && Readable(dir.value, env.signWalk) && !env.signing.NotSigned?
  }

  class Boot {
    var art: Option<Files>
    var pending: Option<Files>
    var trusted: Digests

    constructor (art: Option<Files>, pending: Option<Files>, trusted: Digests)
      ensures this.art == art && this.pending == pending && this.trusted == trusted
    {
      this.art, this.pending, this.trusted := art, pending, trusted;
    }

    method PersistDigests(digests: Digests, signing: Signing) returns (ok: bool)
      modifies this`trusted
      ensures ok == !signing.NotSigned? && trusted == ReadBack(digests, signing)
    {
      trusted := ReadBack(digests, signing);
      return !signing.NotSigned?;
    }

    /** Deletes the info files, which would confuse the verification. */
    method GetComposInfo(env: Env) returns (digests: Option<Digests>)
      modifies this`art
      ensures digests == if env.compos.Genuine? then Some(env.compos.digests) else None
      ensures art == WithoutInfo(old(art), env.compos)
    {
      digests := None;
      match env.compos {
        case NotGenuine =>
        case Unreadable =>
        case NotDeleted(left) =>
          if art.Some? {
            art := Some(art.value - (COMPOS_INFO - left));
          }
        case Malformed =>
          if art.Some? {
            art := Some(art.value - COMPOS_INFO);
          }
        case Genuine(d) =>
          if art.Some? {
            art := Some(art.value - COMPOS_INFO);
          }
          digests := Some(d);
      }
    }

    /** Checks the artifacts that have just become the current ones. */
    method VerifySwitched(env: Env) returns (status: ExitCode, digestsVerified: bool)
      requires art.Some?
      modifies this`art, this`trusted
      ensures digestsVerified <==> Adopted(old(art).value, env)
      ensures digestsVerified ==> art.Some? && FromCompOs(art.value, env) && SameButVerity(old(art).value - COMPOS_INFO, art.value)
      ensures trusted == if Vouched(old(art).value, env) && env.secondCheck == Okay then ReadBack(env.compos.digests, env.composSigning) else old(trusted)
      ensures status ==
        if Vouched(old(art).value, env) then (if env.secondCheck == Okay && env.composSigning.NotSigned? then CleanupFailed else env.secondCheck)
        else if env.removeInvalid.RemovedAll? then CompilationRequired else CleanupFailed
      ensures !Vouched(old(art).value, env) && env.removeInvalid.RemovedAll? ==> art.None?
    {
      hide CompOsAccepts, FromCompOs, SameButVerity, AllInVerity;
      digestsVerified := false;
      var digests := GetComposInfo(env);
      if digests.Some? {
        var ok, after := VerifyAllFilesUsingCompOs(art.value, digests.value, env.composWalk);
        AcceptedIsFromCompOs(art.value, after, env, ok);
        art := Some(after);
        if ok {
          status := env.secondCheck;
          if status == CompilationRequired {
            digestsVerified := true;
          } else if status == Okay {
            var persisted := PersistDigests(digests.value, env.composSigning);
            if !persisted {
              return CleanupFailed, digestsVerified;
            }
            digestsVerified := true;
          }
          return;
        }
      }
      var (left, count) := Removed(art, env.removeInvalid);
      art := left;
      return if count == 0 then CleanupFailed else CompilationRequired, digestsVerified;
    }

    method CheckCompOsPendingArtifacts(env: Env) returns (status: ExitCode, digestsVerified: bool)
      modifies this
      ensures status == PendingStatus(old(art), old(pending), env)
      ensures digestsVerified <==> ComposVerified(old(art), old(pending), env)
      ensures digestsVerified ==> art.Some? && FromCompOs(art.value, env) && status == env.secondCheck
      ensures digestsVerified ==> SameButVerity(old(pending).value - COMPOS_INFO, art.value)
      ensures trusted == if Switches(old(art), old(pending), env) && Vouched(old(pending).value, env) && env.secondCheck == Okay
        then ReadBack(env.compos.digests, env.composSigning) else old(trusted)
      ensures !digestsVerified && trusted != old(trusted) ==> status == CleanupFailed
      ensures env.firstCheck != CompilationRequired ==> art == old(art) && trusted == old(trusted) && status == env.firstCheck && !digestsVerified
      ensures !Switches(old(art), old(pending), env) ==> status == env.firstCheck && (art == old(art) || art == Removed(old(art), env.removeOld).0)
      ensures Switches(old(art), old(pending), env) ==> pending.None?
    {
      hide Vouched, FromCompOs, SameButVerity;
      digestsVerified := false;
      if pending.None? || pending.value == map[] {
        return env.firstCheck, digestsVerified;
      }
      status := env.firstCheck;
      if status != CompilationRequired {
        if status == Okay {
          pending := Removed(pending, env.removePending).0;
        }
        return;
      }
      if !env.pendingInfo {
        pending := Removed(pending, env.removePending).0;
        return CompilationRequired, digestsVerified;
      }
      art := Removed(art, env.removeOld).0;
      if !env.rename || (art.Some? && art.value != map[]) {
        pending := Removed(pending, env.removePending).0;
        return CompilationRequired, digestsVerified;
      }
      art, pending := pending, None;
      status, digestsVerified := VerifySwitched(env);
    }

    /** Returns whether it is safe to go on. */
    method VerifyExisting(status: ExitCode, digestsVerified: bool, env: Env) returns (ok: bool)
      modifies this`art
      ensures ok && status in {Okay, CompilationRequired} && !digestsVerified ==> art.None? || Verifiable(art.value, trusted, env.fsVerity)
      ensures digestsVerified || status !in {Okay, CompilationRequired} ==> ok && art == old(art)
      ensures Intact(old(art), trusted, env) ==> ok && art == old(art)
      ensures !digestsVerified && status in {Okay, CompilationRequired} && Tampered(old(art), trusted, env) ==>
        art == Removed(old(art), env.removeUnverified).0 && ok == env.removeUnverified.RemovedAll?
    {
      var artifactsPresent := art.Some? || env.accessDenied;
      if artifactsPresent && !digestsVerified && (status == Okay || status == CompilationRequired) {
        var verified := VerifyArtifactsIntegrity(FilesOf(art), trusted, env.fsVerity, WalkOf(art, env.verifyWalk));
        if !verified {
          var (left, count) := Removed(art, env.removeUnverified);
          art := left;
          return count > 0;
        }
      }
      return true;
    }

    /** Signs what is there after a compilation. */
    method SignArtifacts(env: Env) returns (ok: bool)
      modifies this`art, this`trusted
      ensures SameButVerity(FilesOf(old(art)), FilesOf(art)) && (art.None? <==> old(art).None?)
      ensures ok ==> art.Some? && trusted == ReadBack(DigestsOf(art.value), env.signing) && (env.fsVerity ==> AllInVerity(art.value))
      ensures ok <==> Signable(old(art), env)
    {
      SameAsItself(FilesOf(art));
      hide DigestsOf, SameButVerity, AllInVerity;
      var digests;
      if env.fsVerity {
        var after;
        digests, after := AddFilesToVerityRecursive(FilesOf(art), WalkOf(art, env.signWalk));
        SameDigests(FilesOf(art), after);
        if art.Some? {
          art := Some(after);
        } else {
          NothingStays(after);
        }
      } else {
        digests := ComputeDigests(FilesOf(art), WalkOf(art, env.signWalk));
      }
      if digests.None? {
        return false;
      }
      ok := PersistDigests(digests.value, env.signing);
    }

    /** Removes everything, so that nothing unverified is used. */
    method ExitHandler(env: Env)
      modifies this`art, this`pending
      ensures art == Removed(old(art), env.finalArt).0 && pending == Removed(old(pending), env.finalPending).0
    {
      art := Removed(art, env.finalArt).0;
      pending := Removed(pending, env.finalPending).0;
    }

    /** Compiles if need be, and signs what was compiled. `known` are the digests the files were checked against, unless they were adopted from CompOS. */
    method CompileAndSign(status: ExitCode, env: Env, ghost known: Digests, ghost adopted: bool) returns (ok: bool)
      modifies this`art, this`trusted
      ensures ok <==>
        var compiled := if status == CompilationRequired then Compiled(old(art), env.compilation) else old(art);
        var final := if status == CompilationRequired then env.compilation.status else status;
        final == Okay || (final in {CompilationSuccess, CompilationFailed} && Signable(compiled, env))
      ensures ok && status == Okay ==> art == old(art) && trusted == old(trusted)
      ensures ok && status in {CompilationSuccess, CompilationFailed} ==> art.Some? && SameButVerity(FilesOf(old(art)), art.value) && trusted == ReadBack(DigestsOf(art.value), env.signing)
      ensures ok && status == CompilationRequired && env.compilation.status == Okay ==> art == Compiled(old(art), env.compilation) && trusted == old(trusted)
      ensures ok && status in {Okay, CompilationRequired} && Known(old(art), known, env, adopted) ==> AllAccounted(FilesOf(art), known, env, Steps(adopted, status == CompilationRequired))
      ensures ok && status == CompilationRequired && env.compilation.status != Okay && TidyCompiler(env) && Known(old(art), known, env, adopted) ==>
        art.Some? && (Verifiable(art.value, trusted, env.fsVerity) <==> env.signing == Signed || RegularPaths(art.value) == {})
    {
      hide Known, Verifiable, AllAccounted, SameButVerity, DigestsOf, AllInVerity, TidyCompiler;
      if status in {Okay, CompilationRequired} && Known(art, known, env, adopted) {
        KnownIsAccounted(art, known, env, adopted);
        CompiledIsAccounted(art, known, env, adopted);
      }
      var final := status;
      if status == CompilationRequired {
        art := Compiled(art, env.compilation);
        final := env.compilation.status;
      }
      if final == CompilationSuccess || final == CompilationFailed {
        ghost var compiled := art;
        ok := SignArtifacts(env);
        if ok && status == CompilationRequired && Known(old(art), known, env, adopted) {
          StaysAccounted(FilesOf(compiled), art.value, known, env, Steps(adopted, true));
          SignedIsVerifiable(old(art), art.value, known, env, adopted);
        }
      } else {
        ok := final == Okay;
      }
    }

    /** Everything before the compilation. */
    method Check(env: Env) returns (status: ExitCode, digestsVerified: bool, safe: bool)
      modifies this
      ensures status == CheckStatus(old(art), old(pending), env)
      ensures digestsVerified <==> UsesCompOs(env) && ComposVerified(old(art), old(pending), env)
      ensures digestsVerified ==> art.Some? && SameButVerity(old(pending).value - COMPOS_INFO, art.value)
      ensures digestsVerified ==> safe && art.Some? && FromCompOs(art.value, env) && status == env.secondCheck
      ensures digestsVerified ==> trusted == if env.secondCheck == Okay then ReadBack(env.compos.digests, env.composSigning) else old(trusted)
      ensures safe && !digestsVerified && status in {Okay, CompilationRequired} ==> trusted == old(trusted) && (art.None? || Verifiable(art.value, trusted, env.fsVerity))
      ensures CheckOnlyChecks(env) ==> status !in {CompilationSuccess, CompilationFailed}
      ensures env.firstCheck in {CompilationSuccess, CompilationFailed} ==> status == env.firstCheck && safe && art == old(art) && trusted == old(trusted)
      ensures (env.firstCheck == Okay || (env.firstCheck == CompilationRequired && !UsesCompOs(env))) ==>
        && status == env.firstCheck && trusted == old(trusted) && !digestsVerified
        && (Intact(old(art), old(trusted), env) ==> safe && art == old(art))
        && (Tampered(old(art), old(trusted), env) ==> safe == env.removeUnverified.RemovedAll? && (safe ==> art.None?))
    {
      hide Verifiable, FromCompOs, Switches, Vouched, Intact, Tampered, SameButVerity;
      digestsVerified := false;
      status := env.firstCheck;
      if UsesCompOs(env) {
        status, digestsVerified := CheckCompOsPendingArtifacts(env);
      }
      safe := VerifyExisting(status, digestsVerified, env);
    }

    /**
      One boot; returns whether the artifacts are declared valid. Then every file is accounted for, if
      asking for a check does not compile; if it does, whatever is there is signed unseen.
     */
    method Run(env: Env) returns (success: bool)
      modifies this
      ensures success && CheckOnlyChecks(env) ==> AllAccounted(FilesOf(art), old(trusted), env, StepsOf(old(art), old(pending), env))
      ensures !success && env.finalArt.RemovedAll? ==> art.None?
      ensures Ready(env) && env.firstCheck == Okay && Intact(old(art), old(trusted), env) ==> success && art == old(art) && trusted == old(trusted)
      ensures Ready(env) && env.firstCheck == Okay && Tampered(old(art), old(trusted), env) ==> success == env.removeUnverified.RemovedAll? && (success ==> art.None?)
      ensures Ready(env) && env.firstCheck == CompilationRequired && !UsesCompOs(env) && Intact(old(art), old(trusted), env) ==>
        (success <==> env.compilation.status == Okay || (env.compilation.status in {CompilationSuccess, CompilationFailed} && Signable(Compiled(old(art), env.compilation), env)))
      ensures Ready(env) && env.firstCheck in {CompilationSuccess, CompilationFailed} ==>
        (success <==> Signable(old(art), env)) && (success ==> SameButVerity(FilesOf(old(art)), FilesOf(art)) && trusted == ReadBack(DigestsOf(FilesOf(art)), env.signing))
      ensures success && CheckOnlyChecks(env) && TidyCompiler(env) && art.Some? ==>
        (Verifiable(art.value, trusted, env.fsVerity) <==>
          && (LeftUnsigned(old(art), old(pending), env) ==> Covered(old(pending).value - COMPOS_INFO, old(trusted)))
          && (SignatureWasLost(old(art), old(pending), env) ==> RegularPaths(art.value) == {}))
      ensures Ready(env) && TidyCompiler(env) && LeftUnsigned(old(art), old(pending), env) ==>
        success && art.Some? && SameButVerity(old(pending).value - COMPOS_INFO, art.value) && trusted == old(trusted)
    {
      if !env.updatableApex || !env.keystoreKey || (env.fsVerity && !env.certificate) {
        ExitHandler(env);
        return false;
      }
      var status, digestsVerified, safe := Check(env);
      if !safe {
        ExitHandler(env);
        return false;
      }
      hide Covered, Verifiable, FromCompOs, AllAccounted, Switches, Adopted, Vouched, Intact, Tampered, Signable, Removed, SameButVerity, DigestsOf, CheckStatus;
      ghost var checked := art;
      var done := CompileAndSign(status, env, old(trusted), digestsVerified);
      if !done {
        ExitHandler(env);
        return false;
      }
      if TidyCompiler(env) {
        TidyCompilerKeeps(checked, env);
      }
      if checked.Some? {
        FromCompOsIsVerifiable(checked.value, old(trusted), env);
        if digestsVerified {
          SameIsCovered(old(pending).value - COMPOS_INFO, checked.value, old(trusted));
        }
      }
      return true;
    }
  }

  lemma KnownIsAccounted(dir: Option<Files>, trusted: Digests, env: Env, adopted: bool)
    requires Known(dir, trusted, env, adopted)
    ensures AllAccounted(FilesOf(dir), trusted, env, Steps(adopted, false))
  {
  }

  lemma CompiledIsAccounted(dir: Option<Files>, trusted: Digests, env: Env, adopted: bool)
    requires Known(dir, trusted, env, adopted)
    ensures AllAccounted(FilesOf(Compiled(dir, env.compilation)), trusted, env, Steps(adopted, true))
  {
  }

  lemma StaysAccounted(a: Files, b: Files, trusted: Digests, env: Env, steps: Steps)
    requires SameButVerity(a, b) && AllAccounted(a, trusted, env, steps)
    ensures AllAccounted(b, trusted, env, steps)
  {
    hide Accounted;
    assert forall p :: p in a ==> Stripped(a[p]) == Stripped(b[p]);
  }

  /** What was compiled on top of checked files, and then signed, can be verified at the next boot. */
  lemma SignedIsVerifiable(dir: Option<Files>, after: Files, trusted: Digests, env: Env, adopted: bool)
    requires Known(dir, trusted, env, adopted) && SameButVerity(FilesOf(Compiled(dir, env.compilation)), after)
    requires env.fsVerity ==> AllInVerity(after)
    ensures TidyCompiler(env) ==> Verifiable(after, DigestsOf(after), env.fsVerity)
    ensures TidyCompiler(env) ==> (Verifiable(after, map[], env.fsVerity) <==> RegularPaths(after) == {})
  {
    NothingTrusted(after);
    if TidyCompiler(env) && env.fsVerity {
      var compiled := FilesOf(Compiled(dir, env.compilation));
      assert Plain(compiled);
      assert forall p :: p in compiled ==> Stripped(compiled[p]) == Stripped(after[p]);
      assert Plain(after);
    }
  }

  /** If nothing is trusted, only a directory without files is covered. */
  lemma NothingTrusted(files: Files)
    ensures Covered(files, map[]) <==> RegularPaths(files) == {}
  {
    if p :| p in files && files[p].Regular? {
      assert p in RegularPaths(files);
    }
  }

  lemma SameIsCovered(a: Files, b: Files, trusted: Digests)
    requires SameButVerity(a, b)
    ensures Covered(a, trusted) <==> Covered(b, trusted)
  {
    assert forall p :: p in a ==> Stripped(a[p]) == Stripped(b[p]);
  }

  lemma TidyCompilerKeeps(dir: Option<Files>, env: Env)
    requires TidyCompiler(env)
    ensures env.compilation.status == Okay ==> Compiled(dir, env.compilation) == dir
  {
    if dir.Some? {
      assert (dir.value - {}) + map[] == dir.value;
    }
  }

  lemma FromCompOsIsVerifiable(files: Files, trusted: Digests, env: Env)
    ensures FromCompOs(files, env) ==> Verifiable(files, env.compos.digests, env.fsVerity)
    ensures FromCompOs(files, env) ==> (Verifiable(files, trusted, env.fsVerity) <==> Covered(files, trusted))
    ensures FromCompOs(files, env) ==> (Verifiable(files, map[], env.fsVerity) <==> RegularPaths(files) == {})
  {
    NothingTrusted(files);
    hide Covered;
  }

  lemma SameAsItself(files: Files)
    ensures SameButVerity(files, files)
  {
  }

  lemma NothingStays(after: Files)
    requires SameButVerity(map[], after)
    ensures after == map[]
  {
  }

  lemma SameDigests(a: Files, b: Files)
    requires SameButVerity(a, b)
    ensures DigestsOf(a) == DigestsOf(b)
  {
    assert forall p :: p in a ==> a[p].Regular? == b[p].Regular? && (a[p].Regular? ==> a[p].digest == b[p].digest) by {
      forall p | p in a
        ensures a[p].Regular? == b[p].Regular? && (a[p].Regular? ==> a[p].digest == b[p].digest)
      {
        assert Stripped(a[p]) == Stripped(b[p]);
      }
    }
  }

  lemma AcceptedIsFromCompOs(files: Files, after: Files, env: Env, ok: bool)
    requires SameButVerity(files, after) && env.compos.Genuine?
    requires ok ==> CompOsAccepts(files, env.compos.digests, env.composWalk) && AllInVerity(after)
    ensures ok ==> FromCompOs(after, env)
  {
    if ok {
      SameDigests(files, after);
      assert forall p :: p in files ==> Stripped(files[p]) == Stripped(after[p]);
      assert forall p :: p in after && after[p].Regular? ==> DigestsOf(after)[p] == after[p].digest && Matches(files, env.compos.digests, env.composWalk, p);
      assert RegularPaths(after) == DigestsOf(after).Keys == RegularPaths(files);
    }
  }

  // ---------------------------------------------------------------------------------------------
  // The two exceptions do occur

  const SOUND := Walk(true, {})

  /** A boot in which nothing fails, with the answers given. */
  function Smooth(firstCheck: ExitCode, secondCheck: ExitCode, compOs: bool, compos: ComposInfo, compilation: Compilation): Env {
    Env(true, true, true, compOs, true, firstCheck, secondCheck, true, RemovedAll, true, RemovedAll, compos, SOUND, Signed, RemovedAll,
        false, SOUND, RemovedAll, compilation, SOUND, Signed, RemovedAll, RemovedAll)
  }

  /** CompOS artifacts are accepted, a compilation is asked for and finds nothing to do: the boot succeeds, and the next one will reject them. */
  method BootThatLeavesUnsigned() returns (b: Boot, env: Env, success: bool)
    ensures success && b.art.Some? && env.fsVerity && !Verifiable(b.art.value, b.trusted, env.fsVerity)
    ensures CheckOnlyChecks(env) && TidyCompiler(env) && env.signing == Signed && env.composSigning == Signed
  {
    var pending: Files := map["boot.art" := Regular([1], false), "compos.info" := Regular([2], false), "compos.info.signature" := Regular([3], false)];
    env := Smooth(CompilationRequired, CompilationRequired, true, Genuine(map["boot.art" := [1]]), Compilation(Okay, map[], {}));
    b := new Boot(None, Some(pending), map[]);
    OneFileAccepted(pending, env);
    success := b.Run(env);
    ghost var art := b.art.value;
    assert "boot.art" in art && Stripped(art["boot.art"]) == Stripped(Regular([1], false));
  }

  lemma OneFileAccepted(pending: Files, env: Env)
    requires pending == map["boot.art" := Regular([1], false), "compos.info" := Regular([2], false), "compos.info.signature" := Regular([3], false)]
    requires env == Smooth(CompilationRequired, CompilationRequired, true, Genuine(map["boot.art" := [1]]), Compilation(Okay, map[], {}))
    ensures LeftUnsigned(None, Some(pending), env) && "boot.art" in pending - COMPOS_INFO && (pending - COMPOS_INFO)["boot.art"] == Regular([1], false)
  {
    var files := pending - COMPOS_INFO;
    assert "boot.art"[0] != "compos.info"[0] && "boot.art"[0] != "compos.info.signature"[0];
    assert files == map["boot.art" := Regular([1], false)];
    assert Matches(files, env.compos.digests, SOUND, "boot.art");
    assert RegularPaths(files) == {"boot.art"};
  }

  /** If asking for a check compiles, a file that nothing vouches for is signed, and trusted from then on. */
  method BootThatSignsUnseen() returns (b: Boot, env: Env, success: bool)
    ensures success && !AllAccounted(FilesOf(b.art), map[], env, StepsOf(Some(map["boot.art" := Regular([1], false)]), None, env))
    ensures b.art.Some? && Covered(b.art.value, b.trusted)
  {
    var files: Files := map["boot.art" := Regular([1], false)];
    env := Smooth(CompilationSuccess, Okay, false, NotGenuine, Compilation(Okay, map[], {}));
    b := new Boot(Some(files), None, map[]);
    success := b.Run(env);
    ghost var art := b.art.value;
    assert "boot.art" in files && Stripped(art["boot.art"]) == Stripped(files["boot.art"]);
    assert !Accounted("boot.art", art["boot.art"].digest, map[], env, StepsOf(Some(files), None, env));
  }
}
