/**
  `Enforcements::authorize_create`: one pass over the key parameters fills a dozen variables, and a
  cascade of checks decides. The decision is restated in terms of which parameters are present, and
  does not depend on their order.
 */
module AuthorizeCreate {
  import opened Prelude
  import opened AuthTokens

  datatype Purpose = Encrypt | Decrypt | Sign | Verify | WrapKey | AgreeKey | AttestKey

  datatype Algorithm = Rsa | Ec | Aes | TripleDes | Hmac

  datatype KeyParam =
    | NoAuth
    | AuthTimeout(seconds: int)
    | AuthenticatorType(ty: bv32)
    | PurposeIs(purpose: Purpose)
    | CallerNonce
    | ActiveDateTime(millis: int)
    | OriginationExpire(millis: int)
    | UsageExpire(millis: int)
    | UserSecureId(sid: int)
    | UserId(user: int)
    | UnlockedDeviceRequired
    | AllowWhileOnBody
    | UsageCountLimit(limit: int)
    | TrustedConfirmationRequired
    | MaxBootLevel(level: int)
    | AlgorithmIs(algorithm: Algorithm)
    | OtherParam(tag: int)

  datatype TokenEntry = TokenEntry(token: Hat, received: int)

  /** What the decision reads besides its arguments. `now` is absent if the clock is before the epoch. */
  datatype Env = Env(
    now: Option<nat>,
    monotonicNow: int,
    unlockedUsers: set<int>,
    accessibleLevels: int -> bool,
    tokens: seq<TokenEntry>,
    lastOffBody: int)

  datatype Reason =
    | IncompatiblePurpose | UnsupportedPurpose | KeyNotYetValid | KeyExpired | InvalidKey
    | UserNotAuthenticated | NonceProhibited | DeviceLocked | BootLevelExceeded | SystemFailure

  /** `Panic` is the arm the source calls a logical error. */
  datatype Outcome =
    | Accepted(hat: Option<Hat>, state: AuthState, usageLimited: Option<int>, confirmation: bool)
    | Rejected(reason: Reason)
    | Panic

  const NONCE := 0x900003E9

  // ---------------------------------------------------------------------------------------------
  // Time and tokens

  /** A negative time becomes a huge unsigned number, which no clock reaches. */
  function AsU128(x: int): int {
    if x >= 0 then x else 0x1_0000_0000_0000_0000_0000_0000_0000_0000 + x
  }

  predicate TimePassed(now: Option<nat>, given: int, inclusive: bool) {
    now.Some? && if inclusive then now.value >= AsU128(given) else now.value > AsU128(given)
  }

  /** The rejection a parameter causes by itself, during the pass. */
  function TimeError(p: KeyParam, purpose: Purpose, now: Option<nat>): Option<Reason> {
    match p
    case ActiveDateTime(t) => if TimePassed(now, t, true) then None else Some(KeyNotYetValid)
    case OriginationExpire(t) =>
      if (purpose == Encrypt || purpose == Sign) && TimePassed(now, t, false) then Some(KeyExpired) else None
    case UsageExpire(t) =>
      if (purpose == Decrypt || purpose == Verify) && TimePassed(now, t, false) then Some(KeyExpired) else None
    case _ => None
  }

  function FirstTimeError(ps: seq<KeyParam>, purpose: Purpose, now: Option<nat>): Option<Reason> {
    if ps == [] then None
    else
      var before := FirstTimeError(ps[..|ps| - 1], purpose, now);
      if before.Some? then before else TimeError(ps[|ps| - 1], purpose, now)
  }

  /** `AuthTokenEntry::satisfies` */
  predicate Satisfies(h: Hat, sids: seq<int>, ty: bv32) {
    exists sid :: sid in sids && SatisfiesOne(h, sid, ty)
  }

  predicate SatisfiesOne(h: Hat, sid: int, ty: bv32) {
    (sid == h.userId || sid == h.authenticatorId) && (ty & h.authenticatorType) != 0
  }

  /** The newest matching token; among equally old ones, the last in iteration order. */
  function FindToken(tokens: seq<TokenEntry>, matches: TokenEntry -> bool): (r: Option<TokenEntry>)
    ensures r.Some? <==> exists e :: e in tokens && matches(e)
    ensures r.Some? ==> r.value in tokens && matches(r.value) && forall e :: e in tokens && matches(e) ==> e.received <= r.value.received
  {
    if tokens == [] then None
    else
      var e := tokens[|tokens| - 1];
      var r := FindToken(tokens[..|tokens| - 1], matches);
      assert tokens == tokens[..|tokens| - 1] + [e];
      if matches(e) && (r.None? || r.value.received <= e.received) then Some(e) else r
  }

  lemma {:induction false} FindTokenExtensional(tokens: seq<TokenEntry>, f: TokenEntry -> bool, g: TokenEntry -> bool)
    requires forall e :: f(e) == g(e)
    ensures FindToken(tokens, f) == FindToken(tokens, g)
  {
    if tokens != [] {
      FindTokenExtensional(tokens[..|tokens| - 1], f, g);
    }
  }

  function Sub64(a: int, b: int): Option<int> {
    if -0x8000_0000_0000_0000 <= a - b < 0x8000_0000_0000_0000 then Some(a - b) else None
  }

  /** Milliseconds to seconds, toward zero. */
  function Seconds(millis: int): int {
    if millis >= 0 then millis / 1000 else -(-millis / 1000)
  }

  // ---------------------------------------------------------------------------------------------
  // What the pass collects

  function TimeoutOf(p: KeyParam): Option<int> { if p.AuthTimeout? then Some(p.seconds) else None }

  function AuthTypeOf(p: KeyParam): Option<bv32> { if p.AuthenticatorType? then Some(p.ty) else None }

  function UserOf(p: KeyParam): Option<int> { if p.UserId? then Some(p.user) else None }

  function LevelOf(p: KeyParam): Option<int> { if p.MaxBootLevel? then Some(p.level) else None }

  /** A variable that each occurrence overwrites ends up with the last. */
  function Last<T>(ps: seq<KeyParam>, sel: KeyParam -> Option<T>): Option<T> {
    if ps == [] then None
    else if sel(ps[|ps| - 1]).Some? then sel(ps[|ps| - 1])
    else Last(ps[..|ps| - 1], sel)
  }

  datatype Facts = Facts(
    purposes: set<Purpose>,
    noAuth: bool,
    timeout: Option<int>,
    authType: Option<bv32>,
    callerNonce: bool,
    userId: int,
    sids: set<int>,
    onBody: bool,
    unlocked: bool,
    limited: bool,
    confirmation: bool,
    level: Option<int>)

  function Purposes(ps: seq<KeyParam>): set<Purpose> {
    set p | p in ps && p.PurposeIs? :: p.purpose
  }

  function SecureIds(ps: seq<KeyParam>): set<int> {
    set p | p in ps && p.UserSecureId? :: p.sid
  }

  predicate Has(ps: seq<KeyParam>, p: KeyParam) { p in ps }

  predicate Limited(ps: seq<KeyParam>) {
    exists p :: p in ps && p.UsageCountLimit?
  }

  /** The parameters that matter, as a statement about which are present. */
  function FactsOf(ps: seq<KeyParam>): Facts {
    Facts(
      Purposes(ps),
      Has(ps, NoAuth),
      Last(ps, TimeoutOf),
      Last(ps, AuthTypeOf),
      Has(ps, CallerNonce),
      var u := Last(ps, UserOf); if u.Some? then u.value else -1,
      SecureIds(ps),
      Has(ps, AllowWhileOnBody),
      Has(ps, UnlockedDeviceRequired),
      Limited(ps),
      Has(ps, TrustedConfirmationRequired),
      Last(ps, LevelOf))
  }

  // ---------------------------------------------------------------------------------------------
  // The decision

  predicate IsAsymmetric(p: KeyParam) {
    p == AlgorithmIs(Rsa) || p == AlgorithmIs(Ec)
  }

  /** Purposes ruled out before the parameters are looked at in detail. */
  function PurposeError(purpose: Purpose, ps: seq<KeyParam>): Option<Reason> {
    match purpose
    case Sign | Decrypt => None
    case WrapKey => Some(IncompatiblePurpose)
    case AgreeKey => if exists p :: p in ps && p.AlgorithmIs? && p.algorithm != Ec then Some(UnsupportedPurpose) else None
    case Verify | Encrypt => if exists p :: p in ps && IsAsymmetric(p) then Some(UnsupportedPurpose) else None
    case AttestKey => Some(UnsupportedPurpose)
  }

  /** The checks between the pass and the search for a token. */
  function CheckError(f: Facts, purpose: Purpose, opTags: seq<int>, env: Env): Option<Reason> {
    if purpose !in f.purposes then Some(IncompatiblePurpose)
    else if f.sids != {} && f.noAuth then Some(InvalidKey)
    else if f.authType.Some? != (f.sids != {}) then Some(UserNotAuthenticated)
    else if (purpose == Encrypt || purpose == Sign) && !f.callerNonce && NONCE in opTags then Some(NonceProhibited)
    else if f.unlocked && f.userId !in env.unlockedUsers then Some(DeviceLocked)
    else if f.level.Some? && !env.accessibleLevels(f.level.value) then Some(BootLevelExceeded)
    else None
  }

  predicate TimeoutBound(f: Facts) { f.timeout.Some? && f.sids != {} }

  predicate PerOpBound(f: Facts) { f.timeout.None? && f.sids != {} }

  predicate Suitable(f: Facts, e: TokenEntry) {
    if f.authType.Some? && TimeoutBound(f)
    then exists sid :: sid in f.sids && SatisfiesOne(e.token, sid, f.authType.value)
    else f.unlocked
  }

  datatype Found = NotNeeded | Missing | Stale(reason: Reason) | Usable(entry: TokenEntry) | Unreachable

  function TokenFor(f: Facts, env: Env): Found {
    if !(TimeoutBound(f) || f.unlocked) then (if f.timeout.Some? then Unreachable else NotNeeded)
    else
      var e := FindToken(env.tokens, (e: TokenEntry) => Suitable(f, e));
      if e.None? then Missing
      else if f.timeout.None? then Usable(e.value)
      else
        var age := Sub64(env.monotonicNow, e.value.received);
        if age.None? then Stale(SystemFailure)
        else if Seconds(age.value) > f.timeout.value && !(f.onBody && env.lastOffBody < e.value.received) then Stale(UserNotAuthenticated)
        else Usable(e.value)
  }

  function Grant(hat: Option<Hat>, requiresTimestamp: bool, perOp: bool): (Option<Hat>, AuthState) {
    if hat.Some? && requiresTimestamp && perOp then (None, TimeStampedOpAuthRequired)
    else if hat.Some? && requiresTimestamp then (hat, TimeStampRequired(hat.value))
    else if perOp then (hat, OpAuthRequired)
    else (hat, NoAuthRequired)
  }

  /** The decision, as a function of what is present. */
  function DecideFacts(f: Facts, keyId: int, requiresTimestamp: bool, env: Env): Outcome {
    var limited := if f.limited then Some(keyId) else None;
    if !f.unlocked && f.noAuth then Accepted(None, NoAuthRequired, limited, f.confirmation)
    else
      match TokenFor(f, env)
      case Missing => Rejected(UserNotAuthenticated)
      case Stale(reason) => Rejected(reason)
      case Unreachable => Panic
      case NotNeeded =>
        var g := Grant(None, requiresTimestamp, PerOpBound(f));
        Accepted(g.0, g.1, limited, f.confirmation)
      case Usable(e) =>
        var g := Grant(Some(e.token), requiresTimestamp, PerOpBound(f));
        Accepted(g.0, g.1, limited, f.confirmation)
  }

  function Decision(purpose: Purpose, key: Option<(int, seq<KeyParam>)>, opTags: seq<int>, requiresTimestamp: bool, env: Env): Outcome {
    if key.None? then Accepted(None, NoAuthRequired, None, false)
    else
      var (keyId, ps) := key.value;
      var f := FactsOf(ps);
      if PurposeError(purpose, ps).Some? then Rejected(PurposeError(purpose, ps).value)
      else if FirstTimeError(ps, purpose, env.now).Some? then Rejected(FirstTimeError(ps, purpose, env.now).value)
      else if CheckError(f, purpose, opTags, env).Some? then Rejected(CheckError(f, purpose, opTags, env).value)
      else DecideFacts(f, keyId, requiresTimestamp, env)
  }

  // ---------------------------------------------------------------------------------------------
  // The pass computes the facts

  /** One more parameter, as the arms of the loop treat it. */
  function Noted(f: Facts, p: KeyParam): Facts {
    match p
    case NoAuth => f.(noAuth := true)
    case AuthTimeout(t) => f.(timeout := Some(t))
    case AuthenticatorType(a) => f.(authType := Some(a))
    case PurposeIs(q) => f.(purposes := f.purposes + {q})
    case CallerNonce => f.(callerNonce := true)
    case UserSecureId(s) => f.(sids := f.sids + {s})
    case UserId(u) => f.(userId := u)
    case UnlockedDeviceRequired => f.(unlocked := true)
    case AllowWhileOnBody => f.(onBody := true)
    case UsageCountLimit(_) => f.(limited := true)
    case TrustedConfirmationRequired => f.(confirmation := true)
    case MaxBootLevel(l) => f.(level := Some(l))
    case _ => f
  }

  lemma SetsGrow(ps: seq<KeyParam>, p: KeyParam)
    ensures Purposes(ps + [p]) == if p.PurposeIs? then Purposes(ps) + {p.purpose} else Purposes(ps)
    ensures SecureIds(ps + [p]) == if p.UserSecureId? then SecureIds(ps) + {p.sid} else SecureIds(ps)
    ensures Limited(ps + [p]) <==> Limited(ps) || p.UsageCountLimit?
  {
    var qs := ps + [p];
    assert p in qs && forall q :: q in qs <==> q in ps || q == p;
  }

  /** What noting a parameter does, field by field. */
  lemma NotedFields(f: Facts, p: KeyParam)
    ensures Noted(f, p) == Facts(
      if p.PurposeIs? then f.purposes + {p.purpose} else f.purposes,
      f.noAuth || p == NoAuth,
      if TimeoutOf(p).Some? then TimeoutOf(p) else f.timeout,
      if AuthTypeOf(p).Some? then AuthTypeOf(p) else f.authType,
      f.callerNonce || p == CallerNonce,
      if UserOf(p).Some? then UserOf(p).value else f.userId,
      if p.UserSecureId? then f.sids + {p.sid} else f.sids,
      f.onBody || p == AllowWhileOnBody,
      f.unlocked || p == UnlockedDeviceRequired,
      f.limited || p.UsageCountLimit?,
      f.confirmation || p == TrustedConfirmationRequired,
      if LevelOf(p).Some? then LevelOf(p) else f.level)
  {
  }

  lemma FactsGrow(ps: seq<KeyParam>, p: KeyParam)
    ensures FactsOf(ps + [p]) == Noted(FactsOf(ps), p)
  {
    hide Purposes, SecureIds, Limited, Last, Has, Noted, TimeoutOf, AuthTypeOf, UserOf, LevelOf;
    NotedFields(FactsOf(ps), p);
    SetsGrow(ps, p);
    FlagsGrow(ps, p);
    LastMore(ps, p, TimeoutOf);
    LastMore(ps, p, AuthTypeOf);
    LastMore(ps, p, UserOf);
    LastMore(ps, p, LevelOf);
  }

  lemma FlagsGrow(ps: seq<KeyParam>, p: KeyParam)
    ensures forall q :: Has(ps + [p], q) <==> Has(ps, q) || q == p
  {
  }

  lemma LastMore<T>(ps: seq<KeyParam>, p: KeyParam, sel: KeyParam -> Option<T>)
    ensures Last(ps + [p], sel) == if sel(p).Some? then sel(p) else Last(ps, sel)
  {
    assert (ps + [p])[..|ps|] == ps;
  }

  method CheckPurpose(ps: seq<KeyParam>, purpose: Purpose) returns (error: Option<Reason>)
    ensures error == PurposeError(purpose, ps)
  {
    error := None;
    match purpose {
      case Sign | Decrypt =>
      case WrapKey => error := Some(IncompatiblePurpose);
      case AgreeKey =>
        for i := 0 to |ps|
          invariant forall j :: 0 <= j < i ==> !(ps[j].AlgorithmIs? && ps[j].algorithm != Ec)
        {
          if ps[i].AlgorithmIs? && ps[i] != AlgorithmIs(Ec) {
            assert ps[i] in ps;
            return Some(UnsupportedPurpose);
          }
        }
      case Verify | Encrypt =>
        for i := 0 to |ps|
          invariant forall j :: 0 <= j < i ==> !IsAsymmetric(ps[j])
        {
          if ps[i] == AlgorithmIs(Rsa) || ps[i] == AlgorithmIs(Ec) {
            assert ps[i] in ps && IsAsymmetric(ps[i]);
            return Some(UnsupportedPurpose);
          }
        }
      case AttestKey => error := Some(UnsupportedPurpose);
    }
  }

  method FindTokenFor(f: Facts, sids: seq<int>, env: Env) returns (r: Found)
    requires f.sids == Elements(sids)
    ensures r == TokenFor(f, env)
  {
    var hasSids := |sids| > 0;
    assert hasSids ==> sids[0] in f.sids;
    var timeoutBound := f.timeout.Some? && hasSids;
    if !(timeoutBound || f.unlocked) {
      return if f.timeout.Some? then Unreachable else NotNeeded;
    }
    var matches := (e: TokenEntry) =>
      if f.authType.Some? && timeoutBound then Satisfies(e.token, sids, f.authType.value) else f.unlocked;
    var found := FindToken(env.tokens, matches);
    FindTokenExtensional(env.tokens, matches, (e: TokenEntry) => Suitable(f, e));
    if found.None? {
      return Missing;
    }
    if f.timeout.None? {
      return Usable(found.value);
    }
    var age := Sub64(env.monotonicNow, found.value.received);
    if age.None? {
      return Stale(SystemFailure);
    }
    var onBodyExtended := f.onBody && env.lastOffBody < found.value.received;
    if Seconds(age.value) > f.timeout.value && !onBodyExtended {
      return Stale(UserNotAuthenticated);
    }
    return Usable(found.value);
  }

  /** The pass over the parameters, which a time restriction may cut short. */
  method CollectFacts(ps: seq<KeyParam>, purpose: Purpose, env: Env) returns (error: Option<Reason>, f: Facts, sids: seq<int>)
    ensures error == FirstTimeError(ps, purpose, env.now)
    ensures error.None? ==> f == FactsOf(ps) && f.sids == Elements(sids)
  {
    f := Facts({}, false, None, None, false, -1, {}, false, false, false, false, None);
    sids := [];
    error := None;
    assert FactsOf(ps[..0]) == f;
    hide FactsOf, TimeError;
    for i := 0 to |ps|
      invariant f == FactsOf(ps[..i])
      invariant f.sids == Elements(sids)
      invariant FirstTimeError(ps[..i], purpose, env.now).None?
    {
      var p := ps[i];
      assert ps[..i + 1][..i] == ps[..i];
      error := TimeError(p, purpose, env.now);
      if error.Some? {
        TimeErrorStays(ps, i + 1, purpose, env.now);
        return;
      }
      FactsGrow(ps[..i], p);
      assert ps[..i + 1] == ps[..i] + [p];
      f := Noted(f, p);
      if p.UserSecureId? {
        ElementsOfSum(sids, [p.sid]);
        sids := sids + [p.sid];
      }
    }
    assert ps[..|ps|] == ps;
    error := None;
  }

  method AuthorizeCreate(purpose: Purpose, key: Option<(int, seq<KeyParam>)>, opTags: seq<int>, requiresTimestamp: bool, env: Env)
    returns (r: Outcome)
    ensures r == Decision(purpose, key, opTags, requiresTimestamp, env)
  {
    hide FactsOf, FirstTimeError, PurposeError, TokenFor;
    if key.None? {
      return Accepted(None, NoAuthRequired, None, false);
    }
    var (keyId, ps) := key.value;
    var purposeError := CheckPurpose(ps, purpose);
    if purposeError.Some? {
      return Rejected(purposeError.value);
    }
    var timeError, f, sids := CollectFacts(ps, purpose, env);
    if timeError.Some? {
      return Rejected(timeError.value);
    }
    var error := CheckError(f, purpose, opTags, env);
    if error.Some? {
      return Rejected(error.value);
    }
    var limited := if f.limited then Some(keyId) else None;
    if !f.unlocked && f.noAuth {
      return Accepted(None, NoAuthRequired, limited, f.confirmation);
    }
    var found := FindTokenFor(f, sids, env);
    match found {
      case Missing => return Rejected(UserNotAuthenticated);
      case Stale(reason) => return Rejected(reason);
      case Unreachable => return Panic;
      case NotNeeded =>
        var (hat, state) := Grant(None, requiresTimestamp, PerOpBound(f));
        return Accepted(hat, state, limited, f.confirmation);
      case Usable(e) =>
        var (hat, state) := Grant(Some(e.token), requiresTimestamp, PerOpBound(f));
        return Accepted(hat, state, limited, f.confirmation);
    }
  }

  lemma {:induction false} TimeErrorStays(ps: seq<KeyParam>, n: nat, purpose: Purpose, now: Option<nat>)
    requires n <= |ps|
    requires FirstTimeError(ps[..n], purpose, now).Some?
    ensures FirstTimeError(ps, purpose, now) == FirstTimeError(ps[..n], purpose, now)
    decreases |ps|
  {
    if n == |ps| {
      assert ps[..n] == ps;
    } else {
      assert ps[..|ps| - 1][..n] == ps[..n];
      TimeErrorStays(ps[..|ps| - 1], n, purpose, now);
    }
  }

  // ---------------------------------------------------------------------------------------------
  // What the decision depends on

  /** All occurrences have the same value. */
  ghost predicate Agree<T>(ps: seq<KeyParam>, sel: KeyParam -> Option<T>) {
    forall p, q :: p in ps && q in ps && sel(p).Some? && sel(q).Some? ==> sel(p) == sel(q)
  }

  lemma {:induction false} LastIsAny<T>(ps: seq<KeyParam>, sel: KeyParam -> Option<T>)
    ensures Last(ps, sel).None? <==> forall p :: p in ps ==> sel(p).None?
    ensures Last(ps, sel).Some? ==> exists p :: p in ps && sel(p) == Last(ps, sel)
  {
    if ps != [] {
      var init, last := ps[..|ps| - 1], ps[|ps| - 1];
      assert ps == init + [last];
      LastIsAny(init, sel);
    }
  }

  lemma LastIgnoresOrder<T>(ps: seq<KeyParam>, qs: seq<KeyParam>, sel: KeyParam -> Option<T>)
    requires multiset(ps) == multiset(qs) && Agree(ps, sel)
    ensures Last(ps, sel) == Last(qs, sel)
  {
    LastIsAny(ps, sel);
    LastIsAny(qs, sel);
    SameMembers(ps, qs);
    if Last(ps, sel).Some? {
      var p :| p in ps && sel(p) == Last(ps, sel);
      assert p in qs;
      var q :| q in qs && sel(q) == Last(qs, sel);
      assert q in ps;
    }
  }

  lemma SameMembers(ps: seq<KeyParam>, qs: seq<KeyParam>)
    requires multiset(ps) == multiset(qs)
    ensures forall p :: p in ps <==> p in qs
  {
    assert forall p :: p in ps <==> p in multiset(ps);
    assert forall p :: p in qs <==> p in multiset(qs);
  }

  lemma {:induction false} TimeErrorIffAny(ps: seq<KeyParam>, purpose: Purpose, now: Option<nat>)
    ensures FirstTimeError(ps, purpose, now).Some? <==> exists p :: p in ps && TimeError(p, purpose, now).Some?
  {
    if ps != [] {
      var init, last := ps[..|ps| - 1], ps[|ps| - 1];
      assert ps == init + [last];
      TimeErrorIffAny(init, purpose, now);
    }
  }

  /** Parameters whose last occurrence counts do not contradict each other. */
  ghost predicate Unambiguous(ps: seq<KeyParam>) {
    && Agree(ps, TimeoutOf)
    && Agree(ps, AuthTypeOf)
    && Agree(ps, UserOf)
    && Agree(ps, LevelOf)
  }

  lemma FactsIgnoreOrder(ps: seq<KeyParam>, qs: seq<KeyParam>)
    requires multiset(ps) == multiset(qs)
    requires Unambiguous(ps)
    ensures FactsOf(ps) == FactsOf(qs)
  {
    SameMembers(ps, qs);
    LastIgnoresOrder(ps, qs, TimeoutOf);
    LastIgnoresOrder(ps, qs, AuthTypeOf);
    LastIgnoresOrder(ps, qs, UserOf);
    LastIgnoresOrder(ps, qs, LevelOf);
    assert FactsOf(ps).purposes == FactsOf(qs).purposes;
    assert FactsOf(ps).sids == FactsOf(qs).sids;
  }

  /**
    Reordering the key's parameters changes neither whether the operation is accepted nor with which
    token, state, usage limit and confirmation; nor whether the logical error is reached. Only which
    of two time restrictions is reported first may change.
   */
  lemma OrderDoesNotMatter(purpose: Purpose, keyId: int, ps: seq<KeyParam>, qs: seq<KeyParam>, opTags: seq<int>, requiresTimestamp: bool, env: Env)
    requires multiset(ps) == multiset(qs)
    requires Unambiguous(ps)
    ensures var r := Decision(purpose, Some((keyId, ps)), opTags, requiresTimestamp, env);
      var s := Decision(purpose, Some((keyId, qs)), opTags, requiresTimestamp, env);
      r == s || (r.Rejected? && s.Rejected? && {r.reason, s.reason} == {KeyNotYetValid, KeyExpired})
  {
    SameMembers(ps, qs);
    FactsIgnoreOrder(ps, qs);
    assert PurposeError(purpose, ps) == PurposeError(purpose, qs);
    TimeErrorIffAny(ps, purpose, env.now);
    TimeErrorIffAny(qs, purpose, env.now);
    TimeErrorKinds(ps, purpose, env.now);
    TimeErrorKinds(qs, purpose, env.now);
  }

  lemma {:induction false} TimeErrorKinds(ps: seq<KeyParam>, purpose: Purpose, now: Option<nat>)
    ensures FirstTimeError(ps, purpose, now) in {None, Some(KeyNotYetValid), Some(KeyExpired)}
  {
    if ps != [] {
      TimeErrorKinds(ps[..|ps| - 1], purpose, now);
    }
  }

  /** Of two boot levels the last one counts, so there the order does matter. */
  lemma OrderMattersWithTwoLevels(a: int, b: int, env: Env)
    requires env.accessibleLevels(a) && !env.accessibleLevels(b)
    ensures Decision(Sign, Some((1, TwoLevels(b, a))), [], false, env).Accepted?
    ensures Decision(Sign, Some((1, TwoLevels(a, b))), [], false, env) == Rejected(BootLevelExceeded)
    ensures multiset(TwoLevels(a, b)) == multiset(TwoLevels(b, a))
  {
    TwoLevelFacts(a, b, env);
    TwoLevelFacts(b, a, env);
    hide FactsOf, FirstTimeError;
  }

  function TwoLevels(a: int, b: int): seq<KeyParam> {
    [PurposeIs(Sign), NoAuth, MaxBootLevel(a), MaxBootLevel(b)]
  }

  lemma TwoLevelFacts(a: int, b: int, env: Env)
    ensures FirstTimeError(TwoLevels(a, b), Sign, env.now).None?
    ensures var f := FactsOf(TwoLevels(a, b));
      Sign in f.purposes && f.noAuth && !f.unlocked && f.sids == {} && f.authType.None? && f.level == Some(b)
  {
    var ps := TwoLevels(a, b);
    TimeErrorIffAny(ps, Sign, env.now);
    LastIsAny(ps, AuthTypeOf);
    assert PurposeIs(Sign) in ps;
  }

  // ---------------------------------------------------------------------------------------------
  // When the logical error is reached

  /** A timeout, but neither secure ids, nor NO_AUTH_REQUIRED, nor UNLOCKED_DEVICE_REQUIRED. */
  predicate OnlyTimeout(ps: seq<KeyParam>) {
    && (exists p :: p in ps && p.AuthTimeout?)
    && forall p :: p in ps ==> !p.UserSecureId? && p != NoAuth && p != UnlockedDeviceRequired
  }

  lemma PanicsOnTimeout(f: Facts, keyId: int, requiresTimestamp: bool, env: Env)
    ensures DecideFacts(f, keyId, requiresTimestamp, env).Panic? <==> f.timeout.Some? && f.sids == {} && !f.noAuth && !f.unlocked
  {
    hide FindToken;
  }

  lemma OnlyTimeoutFacts(ps: seq<KeyParam>)
    ensures var f := FactsOf(ps);
      OnlyTimeout(ps) <==> f.timeout.Some? && f.sids == {} && !f.noAuth && !f.unlocked
  {
    LastIsAny(ps, TimeoutOf);
    SidsOf(ps);
    hide Last;
    assert FactsOf(ps).sids == {} <==> forall p :: p in ps ==> !p.UserSecureId? by {
      if p :| p in ps && p.UserSecureId? {
        assert p.sid in FactsOf(ps).sids;
      }
    }
  }

  // ---------------------------------------------------------------------------------------------
  // What an accepted operation satisfies

  ghost predicate UserPresent(ps: seq<KeyParam>) { exists p :: p in ps && p.UserSecureId? }

  ghost predicate RightAlgorithm(purpose: Purpose, ps: seq<KeyParam>) {
    match purpose
    case Sign | Decrypt => true
    case Verify | Encrypt => AlgorithmIs(Rsa) !in ps && AlgorithmIs(Ec) !in ps
    case AgreeKey => forall a :: AlgorithmIs(a) in ps ==> a == Ec
    case WrapKey | AttestKey => false
  }

  /** Every validity period is respected. A clock before the epoch makes no key active and none expired. */
  ghost predicate InTime(purpose: Purpose, ps: seq<KeyParam>, now: Option<nat>) {
    && (forall t :: ActiveDateTime(t) in ps ==> now.Some? && AsU128(t) <= now.value)
    && (purpose in {Encrypt, Sign} ==> forall t :: OriginationExpire(t) in ps ==> now.None? || now.value <= AsU128(t))
    && (purpose in {Decrypt, Verify} ==> forall t :: UsageExpire(t) in ps ==> now.None? || now.value <= AsU128(t))
  }

  /** The parameters, taken one by one, allow the operation. */
  ghost predicate Allowed(purpose: Purpose, ps: seq<KeyParam>, opTags: seq<int>, env: Env) {
    && RightAlgorithm(purpose, ps)
    && InTime(purpose, ps, env.now)
    && PurposeIs(purpose) in ps
    && !(UserPresent(ps) && NoAuth in ps)
    && (UserPresent(ps) <==> exists p :: p in ps && p.AuthenticatorType?)
    && (purpose in {Encrypt, Sign} && NONCE in opTags ==> CallerNonce in ps)
    && (UnlockedDeviceRequired in ps ==> FactsOf(ps).userId in env.unlockedUsers)
    && (Last(ps, LevelOf).Some? ==> env.accessibleLevels(Last(ps, LevelOf).value))
  }

  lemma PurposeExactly(purpose: Purpose, ps: seq<KeyParam>)
    ensures PurposeError(purpose, ps).None? <==> RightAlgorithm(purpose, ps)
  {
    if purpose == AgreeKey {
      if p :| p in ps && p.AlgorithmIs? && p.algorithm != Ec {
        assert AlgorithmIs(p.algorithm) in ps;
      }
      if a :| AlgorithmIs(a) in ps && a != Ec {
        var p := AlgorithmIs(a);
        assert p in ps && p.AlgorithmIs? && p.algorithm != Ec;
      }
    } else if purpose == Verify || purpose == Encrypt {
      assert IsAsymmetric(AlgorithmIs(Rsa)) && IsAsymmetric(AlgorithmIs(Ec));
    }
  }

  lemma TimeExactly(purpose: Purpose, ps: seq<KeyParam>, now: Option<nat>)
    ensures FirstTimeError(ps, purpose, now).None? <==> InTime(purpose, ps, now)
  {
    TimeErrorIffAny(ps, purpose, now);
    hide FirstTimeError, AsU128;
    if InTime(purpose, ps, now) {
      forall p | p in ps
        ensures TimeError(p, purpose, now).None?
      {
        match p
        case ActiveDateTime(t) => assert ActiveDateTime(t) in ps;
        case OriginationExpire(t) => assert OriginationExpire(t) in ps;
        case UsageExpire(t) => assert UsageExpire(t) in ps;
        case _ =>
      }
    } else {
      if t :| ActiveDateTime(t) in ps && !(now.Some? && AsU128(t) <= now.value) {
        assert TimeError(ActiveDateTime(t), purpose, now).Some?;
      } else if purpose in {Encrypt, Sign} && exists t :: OriginationExpire(t) in ps && !(now.None? || now.value <= AsU128(t)) {
        var t :| OriginationExpire(t) in ps && !(now.None? || now.value <= AsU128(t));
        assert TimeError(OriginationExpire(t), purpose, now).Some?;
      } else {
        var t :| UsageExpire(t) in ps && !(now.None? || now.value <= AsU128(t));
        assert TimeError(UsageExpire(t), purpose, now).Some?;
      }
    }
  }

  lemma FactsMean(ps: seq<KeyParam>, purpose: Purpose)
    ensures var f := FactsOf(ps);
      && (purpose in f.purposes <==> PurposeIs(purpose) in ps)
      && (f.sids != {} <==> UserPresent(ps))
      && (f.authType.Some? <==> exists p :: p in ps && p.AuthenticatorType?)
  {
    LastIsAny(ps, AuthTypeOf);
    SidsOf(ps);
    hide Last;
    if p :| p in ps && p.UserSecureId? {
      assert UserSecureId(p.sid) in ps;
    }
    if p :| p in ps && p.AuthenticatorType? {
      assert AuthTypeOf(p).Some?;
    }
    assert PurposeIs(purpose) in ps ==> PurposeIs(purpose).purpose in FactsOf(ps).purposes;
  }

  /** The checks made before a token is looked for pass if and only if every parameter allows the operation. */
  lemma ChecksPassExactly(purpose: Purpose, ps: seq<KeyParam>, opTags: seq<int>, env: Env)
    ensures Allowed(purpose, ps, opTags, env) <==>
      PurposeError(purpose, ps).None? && FirstTimeError(ps, purpose, env.now).None? && CheckError(FactsOf(ps), purpose, opTags, env).None?
  {
    PurposeExactly(purpose, ps);
    TimeExactly(purpose, ps, env.now);
    FactsMean(ps, purpose);
    var f := FactsOf(ps);
    assert f.noAuth == (NoAuth in ps) && f.callerNonce == (CallerNonce in ps) && f.unlocked == (UnlockedDeviceRequired in ps) && f.level == Last(ps, LevelOf);
    hide FactsOf, FirstTimeError, Last, PurposeError, RightAlgorithm, InTime, UserPresent;
  }

  /** An accepted operation is allowed; one that needs no authentication is accepted exactly if it is allowed. */
  lemma AcceptedIsAllowed(purpose: Purpose, keyId: int, ps: seq<KeyParam>, opTags: seq<int>, requiresTimestamp: bool, env: Env)
    ensures var r := Decision(purpose, Some((keyId, ps)), opTags, requiresTimestamp, env);
      && (r.Accepted? ==> Allowed(purpose, ps, opTags, env))
      && (NoAuth in ps && UnlockedDeviceRequired !in ps && Allowed(purpose, ps, opTags, env) ==> r.Accepted? && r.hat.None? && r.state == NoAuthRequired)
      && (r.Accepted? ==> (r.usageLimited == if exists p :: p in ps && p.UsageCountLimit? then Some(keyId) else None))
      && (r.Accepted? ==> (r.confirmation <==> TrustedConfirmationRequired in ps))
  {
    ChecksPassExactly(purpose, ps, opTags, env);
    var f := FactsOf(ps);
    assert f.noAuth == (NoAuth in ps) && f.unlocked == (UnlockedDeviceRequired in ps) && f.confirmation == (TrustedConfirmationRequired in ps);
    assert f.limited <==> exists p :: p in ps && p.UsageCountLimit?;
    hide FactsOf, FirstTimeError, PurposeError, CheckError, Allowed, TokenFor;
  }

  /** When the arm marked as a logical error is reached: only a timeout, and nothing else in the way. */
  lemma LogicalErrorExactly(purpose: Purpose, keyId: int, ps: seq<KeyParam>, opTags: seq<int>, requiresTimestamp: bool, env: Env)
    ensures Decision(purpose, Some((keyId, ps)), opTags, requiresTimestamp, env).Panic? <==> OnlyTimeout(ps) && Allowed(purpose, ps, opTags, env)
  {
    hide FactsOf, FirstTimeError, PurposeError, DecideFacts, CheckError, OnlyTimeout, Allowed;
    OnlyTimeoutFacts(ps);
    PanicsOnTimeout(FactsOf(ps), keyId, requiresTimestamp, env);
    ChecksPassExactly(purpose, ps, opTags, env);
  }

  /** The token matches one of the key's secure ids, and is fresh or has stayed on the body. */
  ghost predicate Justifies(e: TokenEntry, ps: seq<KeyParam>, timeout: int, env: Env) {
    && e in env.tokens
    && (exists s, ty :: UserSecureId(s) in ps && AuthenticatorType(ty) in ps && Last(ps, AuthTypeOf) == Some(ty) && SatisfiesOne(e.token, s, ty))
    && (Seconds(env.monotonicNow - e.received) <= timeout || (AllowWhileOnBody in ps && env.lastOffBody < e.received))
  }

  lemma AcceptedFacts(f: Facts, keyId: int, requiresTimestamp: bool, env: Env)
    requires f.sids != {} && !f.noAuth && f.authType.Some?
    requires DecideFacts(f, keyId, requiresTimestamp, env).Accepted?
    ensures PerOpBound(f) ==> PerOp(DecideFacts(f, keyId, requiresTimestamp, env).state)
    ensures TimeoutBound(f) ==> TokenFor(f, env).Usable? && DecideFacts(f, keyId, requiresTimestamp, env).hat == Some(TokenFor(f, env).entry.token)
  {
    hide TokenFor;
    if TimeoutBound(f) {
      NeededTokenIsSought(f, env);
    }
  }

  lemma UsableJustifies(ps: seq<KeyParam>, env: Env)
    requires var f := FactsOf(ps); TimeoutBound(f) && f.authType.Some? && TokenFor(f, env).Usable?
    ensures var f := FactsOf(ps); Justifies(TokenFor(f, env).entry, ps, f.timeout.value, env)
  {
    var f := FactsOf(ps);
    LastIsAny(ps, AuthTypeOf);
    SidsOf(ps);
    hide FactsOf;
    var e := TokenFor(f, env).entry;
    assert Suitable(f, e);
    var s :| s in f.sids && SatisfiesOne(e.token, s, f.authType.value);
    assert UserSecureId(s) in ps && AuthenticatorType(f.authType.value) in ps;
  }

  lemma SidsOf(ps: seq<KeyParam>)
    ensures forall s :: s in FactsOf(ps).sids <==> UserSecureId(s) in ps
    ensures FactsOf(ps).authType == Last(ps, AuthTypeOf) && FactsOf(ps).timeout == Last(ps, TimeoutOf)
    ensures FactsOf(ps).onBody <==> AllowWhileOnBody in ps
  {
    forall s | UserSecureId(s) in ps ensures s in FactsOf(ps).sids {
      var p := UserSecureId(s);
      assert p in ps && p.sid == s;
    }
  }

  /**
    A key with secure ids and no timeout is accepted only into a state in which every later use needs
    a token for that very operation. A key with both is accepted only with a token that justifies it.
   */
  lemma SecureIdsAreEnforced(purpose: Purpose, keyId: int, ps: seq<KeyParam>, opTags: seq<int>, requiresTimestamp: bool, env: Env, sid: int)
    requires UserSecureId(sid) in ps
    requires Decision(purpose, Some((keyId, ps)), opTags, requiresTimestamp, env).Accepted?
    ensures var r := Decision(purpose, Some((keyId, ps)), opTags, requiresTimestamp, env);
      var timeout := Last(ps, TimeoutOf);
      && (timeout.None? ==> PerOp(r.state))
      && (timeout.Some? ==> exists e :: Justifies(e, ps, timeout.value, env) && r.hat == Some(e.token))
  {
    var f := FactsOf(ps);
    SidsOf(ps);
    hide FactsOf, DecideFacts, FirstTimeError, PurposeError, TokenFor;
    assert sid in f.sids;
    AcceptedFacts(f, keyId, requiresTimestamp, env);
    if TimeoutBound(f) {
      UsableJustifies(ps, env);
    }
  }

  /**
    From the key to the token: whenever an operation of a key with secure ids and no timeout, once
    accepted, is let through later, it comes with a token whose challenge is that operation's.
   */
  lemma SecureIdsReachTheToken(purpose: Purpose, keyId: int, ps: seq<KeyParam>, opTags: seq<int>, requiresTimestamp: bool, env: Env, sid: int,
      states: seq<System>, steps: seq<Step>, m: nat, n: nat, o: int, answer: Option<TimeStampToken>)
    requires UserSecureId(sid) in ps && forall p :: p in ps ==> !p.AuthTimeout?
    requires Decision(purpose, Some((keyId, ps)), opTags, requiresTimestamp, env).Accepted?
    requires IsExecution(states, steps) && m < n <= |steps|
    requires steps[m] == CreateOp(o, Decision(purpose, Some((keyId, ps)), opTags, requiresTimestamp, env).state)
    requires forall i :: m < i < n ==> steps[i] != DropOp(o)
    ensures o in states[n].ops
    ensures UseOp(states[n], o, answer).0.Ok? ==>
      var hat := UseOp(states[n], o, answer).0.value.0;
      hat.Some? && states[n].ops[o].challenge == Some(hat.value.challenge)
  {
    LastIsAny(ps, TimeoutOf);
    SecureIdsAreEnforced(purpose, keyId, ps, opTags, requiresTimestamp, env, sid);
    hide Decision, Last, UseOp;
    assert states[m + 1] == AuthTokens.Next(states[m], steps[m]);
    PerOpStays(states, steps, m + 1, n, o);
    if UseOp(states[n], o, answer).0.Ok? {
      TokenMatchesOperation(states, steps, n, o, answer);
    }
  }

  // ---------------------------------------------------------------------------------------------
  // When an operation is accepted, exactly

  /** The token is young enough, or has stayed on the body; its age can be computed. */
  predicate FreshFor(f: Facts, e: TokenEntry, env: Env)
    requires f.timeout.Some?
  {
    && Sub64(env.monotonicNow, e.received).Some?
    && (Seconds(env.monotonicNow - e.received) <= f.timeout.value || (f.onBody && env.lastOffBody < e.received))
  }

  /** Some suitable token is fresh, if there is a timeout, and no suitable one comes from so far in the future that its age overflows. */
  ghost predicate TokenServes(f: Facts, env: Env) {
    && (exists e :: e in env.tokens && Suitable(f, e) && (f.timeout.Some? ==> FreshFor(f, e, env)))
    && (f.timeout.Some? ==> forall e :: e in env.tokens && Suitable(f, e) ==> env.monotonicNow - e.received >= -0x8000_0000_0000_0000)
  }

  /** A newer token is at least as fresh. */
  lemma NewerIsFresher(f: Facts, e: TokenEntry, n: TokenEntry, env: Env)
    requires f.timeout.Some? && FreshFor(f, e, env) && e.received <= n.received
    requires env.monotonicNow - n.received >= -0x8000_0000_0000_0000
    ensures FreshFor(f, n, env)
  {
  }

  lemma UsableExactly(f: Facts, env: Env)
    requires TimeoutBound(f) || f.unlocked
    ensures TokenFor(f, env).Usable? <==> TokenServes(f, env)
  {
    var found := FindToken(env.tokens, (e: TokenEntry) => Suitable(f, e));
    hide FindToken, Suitable;
    if found.Some? && f.timeout.Some? {
      var n := found.value;
      if TokenServes(f, env) {
        var e :| e in env.tokens && Suitable(f, e) && FreshFor(f, e, env);
        NewerIsFresher(f, e, n, env);
      }
      assert TokenFor(f, env).Usable? <==> FreshFor(f, n, env);
      if FreshFor(f, n, env) {
        assert forall e :: e in env.tokens && Suitable(f, e) ==> env.monotonicNow - e.received >= env.monotonicNow - n.received;
      }
    }
  }

  lemma DecidedExactly(f: Facts, keyId: int, requiresTimestamp: bool, env: Env)
    ensures DecideFacts(f, keyId, requiresTimestamp, env).Accepted? <==>
      || (f.noAuth && !f.unlocked)
      || (if TimeoutBound(f) || f.unlocked then TokenServes(f, env) else f.timeout.None?)
  {
    if TimeoutBound(f) || f.unlocked {
      UsableExactly(f, env);
      NeededTokenIsSought(f, env);
    }
    hide TokenServes, FindToken;
  }

  lemma NeededTokenIsSought(f: Facts, env: Env)
    requires TimeoutBound(f) || f.unlocked
    ensures TokenFor(f, env) !in {NotNeeded, Unreachable}
  {
  }

  /**
    An operation is accepted if and only if every parameter allows it and, unless the key needs no
    authentication at all, the tokens at hand serve it: a fresh one of the user's for a key with
    secure ids and a timeout, any at all for a key that needs an unlocked device, none otherwise.
   */
  lemma AcceptedExactly(purpose: Purpose, keyId: int, ps: seq<KeyParam>, opTags: seq<int>, requiresTimestamp: bool, env: Env)
    ensures var f := FactsOf(ps);
      Decision(purpose, Some((keyId, ps)), opTags, requiresTimestamp, env).Accepted? <==>
        && Allowed(purpose, ps, opTags, env)
        && ((f.noAuth && !f.unlocked) || (if TimeoutBound(f) || f.unlocked then TokenServes(f, env) else f.timeout.None?))
  {
    hide FactsOf, FirstTimeError, PurposeError, DecideFacts, CheckError, Allowed, TokenServes;
    ChecksPassExactly(purpose, ps, opTags, env);
    DecidedExactly(FactsOf(ps), keyId, requiresTimestamp, env);
  }

  // ---------------------------------------------------------------------------------------------
  // Contradicting timeouts, authenticator types or user ids: the last one counts

  const NOTHING_NOTED := Facts({}, false, None, None, false, -1, {}, false, false, false, false, None)

  lemma FactsOfFive(a: KeyParam, b: KeyParam, c: KeyParam, d: KeyParam, e: KeyParam)
    ensures FactsOf([a, b, c, d, e]) == Noted(Noted(Noted(Noted(Noted(NOTHING_NOTED, a), b), c), d), e)
  {
    hide FactsOf, Noted;
    NoFacts();
    FactsGrow([], a);
    assert [] + [a] == [a];
    FactsGrow([a], b);
    assert [a] + [b] == [a, b];
    FactsGrow([a, b], c);
    assert [a, b] + [c] == [a, b, c];
    FactsGrow([a, b, c], d);
    assert [a, b, c] + [d] == [a, b, c, d];
    FactsGrow([a, b, c, d], e);
    assert [a, b, c, d] + [e] == [a, b, c, d, e];
  }

  lemma NoFacts()
    ensures FactsOf([]) == NOTHING_NOTED
  {
  }

  function TwoTimeouts(a: int, b: int): seq<KeyParam> {
    [PurposeIs(Sign), UserSecureId(7), AuthenticatorType(1), AuthTimeout(a), AuthTimeout(b)]
  }

  function TwoTypes(a: bv32, b: bv32): seq<KeyParam> {
    [PurposeIs(Sign), UserSecureId(7), AuthTimeout(10), AuthenticatorType(a), AuthenticatorType(b)]
  }

  function TwoUsers(a: int, b: int): seq<KeyParam> {
    [PurposeIs(Sign), NoAuth, UnlockedDeviceRequired, UserId(a), UserId(b)]
  }

  /** Five seconds ago user 7 authenticated with authenticator type 1. */
  ghost predicate OneToken(env: Env) {
    env.tokens == [TokenEntry(Hat(0, 7, 7, 1), 0)] && env.monotonicNow == 5000
  }

  lemma UndatedIsInTime(purpose: Purpose, ps: seq<KeyParam>, now: Option<nat>)
    requires forall p :: p in ps ==> !p.ActiveDateTime? && !p.OriginationExpire? && !p.UsageExpire?
    ensures InTime(purpose, ps, now)
  {
  }

  lemma TimeoutFacts(a: int, b: int)
    ensures var f := FactsOf(TwoTimeouts(a, b));
      f.timeout == Some(b) && f.sids == {7} && f.authType == Some(1) && !f.onBody && !f.unlocked && !f.noAuth && f.level.None?
  {
    FactsOfFive(PurposeIs(Sign), UserSecureId(7), AuthenticatorType(1), AuthTimeout(a), AuthTimeout(b));
    hide FactsOf;
  }

  lemma TimeoutsAllowed(a: int, b: int, env: Env)
    ensures Allowed(Sign, TwoTimeouts(a, b), [], env)
  {
    var ps := TwoTimeouts(a, b);
    TimeoutFacts(a, b);
    UndatedIsInTime(Sign, ps, env.now);
    SidsOf(ps);
    assert FactsOf(ps).level == Last(ps, LevelOf);
    hide FactsOf, Last, InTime;
    assert PurposeIs(Sign) in ps && UserSecureId(7) in ps && AuthenticatorType(1) in ps;
  }

  lemma OrderMattersWithTwoTimeouts(env: Env)
    requires OneToken(env)
    ensures Decision(Sign, Some((1, TwoTimeouts(1, 10))), [], false, env).Accepted?
    ensures !Decision(Sign, Some((1, TwoTimeouts(10, 1))), [], false, env).Accepted?
    ensures multiset(TwoTimeouts(1, 10)) == multiset(TwoTimeouts(10, 1))
  {
    hide FactsOf, Decision, Allowed;
    TimeoutFacts(1, 10);
    TimeoutFacts(10, 1);
    TimeoutsAllowed(1, 10, env);
    AcceptedExactly(Sign, 1, TwoTimeouts(1, 10), [], false, env);
    AcceptedExactly(Sign, 1, TwoTimeouts(10, 1), [], false, env);
    ServedByOneToken(FactsOf(TwoTimeouts(1, 10)), env);
    ServedByOneToken(FactsOf(TwoTimeouts(10, 1)), env);
  }

  /** The token of five seconds ago serves user 7 exactly if the timeout is not shorter, and the type is the right one. */
  lemma ServedByOneToken(f: Facts, env: Env)
    requires OneToken(env) && f.timeout.Some? && f.sids == {7} && f.authType.Some? && !f.onBody
    ensures TokenServes(f, env) <==> 5 <= f.timeout.value && (f.authType.value & 1) != 0
  {
    var e := env.tokens[0];
    assert forall x :: x in env.tokens <==> x == e;
    assert Suitable(f, e) <==> SatisfiesOne(e.token, 7, f.authType.value) by {
      assert 7 in f.sids;
    }
    assert FreshFor(f, e, env) <==> 5 <= f.timeout.value;
  }

  lemma TypeFacts(a: bv32, b: bv32)
    ensures var f := FactsOf(TwoTypes(a, b));
      f.timeout == Some(10) && f.sids == {7} && f.authType == Some(b) && !f.onBody && !f.unlocked && !f.noAuth && f.level.None?
  {
    FactsOfFive(PurposeIs(Sign), UserSecureId(7), AuthTimeout(10), AuthenticatorType(a), AuthenticatorType(b));
    hide FactsOf;
  }

  lemma TypesAllowed(a: bv32, b: bv32, env: Env)
    ensures Allowed(Sign, TwoTypes(a, b), [], env)
  {
    var ps := TwoTypes(a, b);
    TypeFacts(a, b);
    UndatedIsInTime(Sign, ps, env.now);
    assert FactsOf(ps).level == Last(ps, LevelOf);
    hide FactsOf, Last, InTime;
    assert PurposeIs(Sign) in ps && UserSecureId(7) in ps && AuthenticatorType(a) in ps;
  }

  lemma OrderMattersWithTwoTypes(env: Env)
    requires OneToken(env)
    ensures Decision(Sign, Some((1, TwoTypes(2, 1))), [], false, env).Accepted?
    ensures !Decision(Sign, Some((1, TwoTypes(1, 2))), [], false, env).Accepted?
    ensures multiset(TwoTypes(1, 2)) == multiset(TwoTypes(2, 1))
  {
    hide FactsOf, Decision, Allowed;
    TypeFacts(1, 2);
    TypeFacts(2, 1);
    TypesAllowed(2, 1, env);
    AcceptedExactly(Sign, 1, TwoTypes(2, 1), [], false, env);
    AcceptedExactly(Sign, 1, TwoTypes(1, 2), [], false, env);
    ServedByOneToken(FactsOf(TwoTypes(2, 1)), env);
    ServedByOneToken(FactsOf(TwoTypes(1, 2)), env);
  }

  lemma UserFacts(a: int, b: int)
    ensures var f := FactsOf(TwoUsers(a, b)); f.timeout.None? && f.sids == {} && f.unlocked && f.userId == b && f.level.None?
  {
    FactsOfFive(PurposeIs(Sign), NoAuth, UnlockedDeviceRequired, UserId(a), UserId(b));
    hide FactsOf;
  }

  lemma UserAllowedExactly(a: int, b: int, env: Env)
    ensures Allowed(Sign, TwoUsers(a, b), [], env) <==> b in env.unlockedUsers
  {
    var ps := TwoUsers(a, b);
    UserFacts(a, b);
    UndatedIsInTime(Sign, ps, env.now);
    assert FactsOf(ps).level == Last(ps, LevelOf);
    hide FactsOf, Last, InTime;
    assert PurposeIs(Sign) in ps && UnlockedDeviceRequired in ps;
  }

  lemma OrderMattersWithTwoUsers(a: int, b: int, env: Env)
    requires OneToken(env) && a in env.unlockedUsers && b !in env.unlockedUsers
    ensures Decision(Sign, Some((1, TwoUsers(b, a))), [], false, env).Accepted?
    ensures !Decision(Sign, Some((1, TwoUsers(a, b))), [], false, env).Accepted?
    ensures multiset(TwoUsers(a, b)) == multiset(TwoUsers(b, a))
  {
    hide FactsOf, Decision, Allowed;
    UserFacts(b, a);
    UserAllowedExactly(a, b, env);
    UserAllowedExactly(b, a, env);
    AcceptedExactly(Sign, 1, TwoUsers(b, a), [], false, env);
    AcceptedExactly(Sign, 1, TwoUsers(a, b), [], false, env);
    assert env.tokens[0] in env.tokens && Suitable(FactsOf(TwoUsers(b, a)), env.tokens[0]);
  }
}
