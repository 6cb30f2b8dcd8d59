/**
  The authentication keys of an identity credential: which key is presented, and how many
  presentations there are before the keys are used up.
 */
module AuthKeys {
  import opened Prelude

  datatype AuthKeyData = AuthKeyData(
    certificate: Bytes,
    keyBlob: Bytes,
    expirationDateMillis: int,
    staticAuthenticationData: Bytes,
    pendingCertificate: Bytes,
    pendingKeyBlob: Bytes,
    useCount: int)

  /** Seconds to milliseconds, unless 64 bits do not hold them. */
  function Millis(seconds: int): Option<int> {
    if -0x8000_0000_0000_0000 <= seconds * 1000 < 0x8000_0000_0000_0000 then Some(seconds * 1000) else None
  }

  predicate Expired(k: AuthKeyData, millis: int) {
    millis > k.expirationDateMillis
  }

  /** A certified key that has not expired, or may be used nevertheless. */
  predicate Eligible(k: AuthKeyData, millis: int, allowExpired: bool) {
    k.certificate != [] && (allowExpired || !Expired(k, millis))
  }

  /** The first of the least used eligible keys. */
  predicate IsCandidate(keys: seq<AuthKeyData>, millis: int, allowExpired: bool, i: nat) {
    && i < |keys|
    && Eligible(keys[i], millis, allowExpired)
    && (forall j :: 0 <= j < |keys| && Eligible(keys[j], millis, allowExpired) ==> keys[i].useCount <= keys[j].useCount)
    && (forall j :: 0 <= j < i && Eligible(keys[j], millis, allowExpired) ==> keys[i].useCount < keys[j].useCount)
  }

  function Candidate(keys: seq<AuthKeyData>, millis: int, allowExpired: bool): (r: Option<nat>)
    ensures r.None? <==> forall j :: 0 <= j < |keys| ==> !Eligible(keys[j], millis, allowExpired)
    ensures r.Some? ==> IsCandidate(keys, millis, allowExpired, r.value)
  {
    if keys == [] then None
    else
      var n := |keys| - 1;
      var before := Candidate(keys[..n], millis, allowExpired);
      assert forall j :: 0 <= j < n ==> keys[..n][j] == keys[j];
      if Eligible(keys[n], millis, allowExpired) && (before.None? || keys[n].useCount < keys[before.value].useCount) then Some(n)
      else before
  }

  lemma CandidateIsUnique(keys: seq<AuthKeyData>, millis: int, allowExpired: bool, i: nat)
    requires IsCandidate(keys, millis, allowExpired, i)
    ensures Candidate(keys, millis, allowExpired) == Some(i)
  {
    assert Candidate(keys, millis, allowExpired).Some?;
  }

  function Find(keys: seq<AuthKeyData>, maxUses: int, now: int, allowExhausted: bool, allowExpired: bool): (r: Option<nat>)
    ensures r.Some? ==> r.value < |keys|
  {
    if Millis(now).None? then None
    else
      var c := Candidate(keys, Millis(now).value, allowExpired);
      if c.Some? && (allowExhausted || keys[c.value].useCount < maxUses) then c else None
  }

  function Select(keys: seq<AuthKeyData>, maxUses: int, now: int, allowExhausted: bool, allowExpired: bool): (r: Option<nat>)
    ensures r.Some? ==> r.value < |keys|
  {
    var unexpired := Find(keys, maxUses, now, allowExhausted, false);
    if unexpired.Some? || !allowExpired then unexpired else Find(keys, maxUses, now, allowExhausted, true)
  }

  function Used(keys: seq<AuthKeyData>, i: Option<nat>): seq<AuthKeyData>
    requires i.Some? ==> i.value < |keys|
  {
    if i.None? then keys else keys[i.value := keys[i.value].(useCount := keys[i.value].useCount + 1)]
  }

  // ---------------------------------------------------------------------------------------------
  // One selection

  function UsesLeft(k: AuthKeyData, maxUses: int, millis: int, allowExpired: bool): nat {
    if Eligible(k, millis, allowExpired) && k.useCount < maxUses then maxUses - k.useCount else 0
  }

  function Remaining(keys: seq<AuthKeyData>, maxUses: int, millis: int, allowExpired: bool): nat {
    if keys == [] then 0
    else Remaining(keys[..|keys| - 1], maxUses, millis, allowExpired) + UsesLeft(keys[|keys| - 1], maxUses, millis, allowExpired)
  }

  lemma {:induction false} RemainingIsPositive(keys: seq<AuthKeyData>, maxUses: int, millis: int, allowExpired: bool)
    ensures Remaining(keys, maxUses, millis, allowExpired) > 0 <==> exists i :: 0 <= i < |keys| && UsesLeft(keys[i], maxUses, millis, allowExpired) > 0
  {
    if keys != [] {
      var init := keys[..|keys| - 1];
      RemainingIsPositive(init, maxUses, millis, allowExpired);
      assert forall i :: 0 <= i < |init| ==> init[i] == keys[i];
      if i :| 0 <= i < |init| && UsesLeft(init[i], maxUses, millis, allowExpired) > 0 {
        assert UsesLeft(keys[i], maxUses, millis, allowExpired) > 0;
      }
    }
  }

  lemma {:induction false} UseTakesOne(keys: seq<AuthKeyData>, i: nat, maxUses: int, millis: int, allowExpired: bool)
    requires i < |keys| && UsesLeft(keys[i], maxUses, millis, allowExpired) > 0
    ensures Remaining(Used(keys, Some(i)), maxUses, millis, allowExpired) == Remaining(keys, maxUses, millis, allowExpired) - 1
  {
    var n := |keys| - 1;
    var used := Used(keys, Some(i));
    if i == n {
      assert used[..n] == keys[..n];
    } else {
      UseTakesOne(keys[..n], i, maxUses, millis, allowExpired);
      assert used[..n] == Used(keys[..n], Some(i));
    }
  }

  /** A selection that may not exhaust keys succeeds exactly if a use is left, and takes it. */
  lemma SelectionTakesOneUse(keys: seq<AuthKeyData>, maxUses: int, now: int, millis: int, allowExpired: bool)
    requires Millis(now) == Some(millis)
    ensures var r := Select(keys, maxUses, now, false, allowExpired);
      var left := Remaining(keys, maxUses, millis, allowExpired);
      && (r.Some? <==> left > 0)
      && Remaining(Used(keys, r), maxUses, millis, allowExpired) == (if left > 0 then left - 1 else 0)
  {
    RemainingIsPositive(keys, maxUses, millis, allowExpired);
    hide Remaining;
    FoundIffUsesLeft(keys, maxUses, now, millis, false);
    FoundIffUsesLeft(keys, maxUses, now, millis, true);
    var r := Select(keys, maxUses, now, false, allowExpired);
    if r.Some? {
      assert UsesLeft(keys[r.value], maxUses, millis, allowExpired) > 0;
      UseTakesOne(keys, r.value, maxUses, millis, allowExpired);
    } else {
      assert forall i :: 0 <= i < |keys| ==> UsesLeft(keys[i], maxUses, millis, allowExpired) == 0;
    }
  }

  lemma FoundIffUsesLeft(keys: seq<AuthKeyData>, maxUses: int, now: int, millis: int, allowExpired: bool)
    requires Millis(now) == Some(millis)
    ensures var r := Find(keys, maxUses, now, false, allowExpired);
      if r.Some? then UsesLeft(keys[r.value], maxUses, millis, allowExpired) > 0
      else forall i :: 0 <= i < |keys| ==> UsesLeft(keys[i], maxUses, millis, allowExpired) == 0
  {
  }

  /** An expired key is chosen only if no unexpired key qualifies. */
  lemma ExpiredOnlyIfNeeded(keys: seq<AuthKeyData>, maxUses: int, now: int, millis: int, allowExhausted: bool, allowExpired: bool)
    requires Millis(now) == Some(millis)
    ensures var r := Select(keys, maxUses, now, allowExhausted, allowExpired);
      r.Some? && Expired(keys[r.value], millis) ==>
        allowExpired && forall i :: 0 <= i < |keys| && Eligible(keys[i], millis, false) ==> !allowExhausted && keys[i].useCount >= maxUses
  {
  }

  /** If unexpired certified keys are there, the choice among them is a least used one, or falls on an expired key. */
  lemma SelectionIsLeastUsed(keys: seq<AuthKeyData>, maxUses: int, now: int, millis: int, allowExhausted: bool, allowExpired: bool, i: nat)
    requires Millis(now) == Some(millis)
    requires i < |keys| && Eligible(keys[i], millis, false)
    ensures var r := Select(keys, maxUses, now, allowExhausted, allowExpired);
      r.Some? && !Expired(keys[r.value], millis) ==> keys[r.value].useCount <= keys[i].useCount
  {
  }

  // ---------------------------------------------------------------------------------------------
  // Runs at a fixed time

  datatype Selection = Selection(allowExhausted: bool, allowExpired: bool, increment: bool)

  function After(keys: seq<AuthKeyData>, maxUses: int, now: int, s: Selection): seq<AuthKeyData> {
    if s.increment then Used(keys, Select(keys, maxUses, now, s.allowExhausted, s.allowExpired)) else keys
  }

  ghost predicate IsRun(states: seq<seq<AuthKeyData>>, selections: seq<Selection>, maxUses: int, now: int) {
    && |states| == |selections| + 1
    && forall i :: 0 <= i < |selections| ==> states[i + 1] == After(states[i], maxUses, now, selections[i])
  }

  /** Nothing but use counts changes. */
  predicate SameKeys(a: seq<AuthKeyData>, b: seq<AuthKeyData>) {
    && |a| == |b|
    && forall i :: 0 <= i < |a| ==> a[i].(useCount := 0) == b[i].(useCount := 0)
  }

  lemma {:induction false} RunKeepsKeys(states: seq<seq<AuthKeyData>>, selections: seq<Selection>, maxUses: int, now: int, n: nat)
    requires IsRun(states, selections, maxUses, now) && n < |states|
    ensures SameKeys(states[0], states[n])
  {
    hide Select;
    if n > 0 {
      RunKeepsKeys(states, selections, maxUses, now, n - 1);
      assert SameKeys(states[n - 1], After(states[n - 1], maxUses, now, selections[n - 1]));
      assert forall i :: 0 <= i < |states[0]| ==> states[0][i].(useCount := 0) == states[n - 1][i].(useCount := 0) == states[n][i].(useCount := 0);
    }
  }

  /**
    Among counted selections that exhaust no key, exactly as many succeed as there are uses left on
    the eligible keys: the n-th one succeeds if and only if there were more than n.
   */
  lemma {:induction false} ExactlySoManySucceed(states: seq<seq<AuthKeyData>>, selections: seq<Selection>, maxUses: int, now: int, millis: int, allowExpired: bool, n: nat)
    requires IsRun(states, selections, maxUses, now) && n < |states| && Millis(now) == Some(millis)
    requires forall i :: 0 <= i < |selections| ==> selections[i] == Selection(false, allowExpired, true)
    ensures var total := Remaining(states[0], maxUses, millis, allowExpired);
      && Remaining(states[n], maxUses, millis, allowExpired) == (if n <= total then total - n else 0)
      && (Select(states[n], maxUses, now, false, allowExpired).Some? <==> n < total)
  {
    hide Remaining, Select, Used;
    SelectionTakesOneUse(states[n], maxUses, now, millis, allowExpired);
    if n > 0 {
      ExactlySoManySucceed(states, selections, maxUses, now, millis, allowExpired, n - 1);
      SelectionTakesOneUse(states[n - 1], maxUses, now, millis, allowExpired);
      assert selections[n - 1] == Selection(false, allowExpired, true);
    }
  }

  /** No key is used beyond the limit, unless a selection may exhaust keys. */
  lemma {:induction false} LimitIsKept(states: seq<seq<AuthKeyData>>, selections: seq<Selection>, maxUses: int, now: int, n: nat, i: nat)
    requires IsRun(states, selections, maxUses, now) && n < |states| && i < |states[0]|
    requires forall j :: 0 <= j < |selections| ==> !selections[j].allowExhausted
    ensures |states[n]| == |states[0]|
    ensures states[0][i].useCount <= states[n][i].useCount
    ensures states[n][i].useCount <= maxUses || states[n][i].useCount == states[0][i].useCount
  {
    if n > 0 {
      LimitIsKept(states, selections, maxUses, now, n - 1, i);
      var s := selections[n - 1];
      SelectedIsBelowLimit(states[n - 1], maxUses, now, s.allowExpired);
      hide Select;
      assert states[n] == After(states[n - 1], maxUses, now, s);
    }
  }

  lemma SelectedIsBelowLimit(keys: seq<AuthKeyData>, maxUses: int, now: int, allowExpired: bool)
    ensures var r := Select(keys, maxUses, now, false, allowExpired); r.Some? ==> keys[r.value].useCount < maxUses
  {
    hide Candidate;
  }

  /** Unexpired keys that start equally used never differ by more than one use, whatever the selections allow. */
  lemma {:induction false} UsesStayBalanced(states: seq<seq<AuthKeyData>>, selections: seq<Selection>, maxUses: int, now: int, millis: int, n: nat, i: nat, j: nat)
    requires IsRun(states, selections, maxUses, now) && n < |states| && Millis(now) == Some(millis)
    requires i < |states[0]| && j < |states[0]|
    requires Eligible(states[0][i], millis, false) && Eligible(states[0][j], millis, false)
    requires states[0][i].useCount == states[0][j].useCount
    ensures |states[n]| == |states[0]|
    ensures -1 <= states[n][i].useCount - states[n][j].useCount <= 1
  {
    if n > 0 {
      var s := selections[n - 1];
      UsesStayBalanced(states, selections, maxUses, now, millis, n - 1, i, j);
      RunKeepsKeys(states, selections, maxUses, now, n - 1);
      SameEligibility(states[0][i], states[n - 1][i], millis);
      SameEligibility(states[0][j], states[n - 1][j], millis);
      SelectionIsLeastUsed(states[n - 1], maxUses, now, millis, s.allowExhausted, s.allowExpired, i);
      SelectionIsLeastUsed(states[n - 1], maxUses, now, millis, s.allowExhausted, s.allowExpired, j);
      hide Select;
      assert states[n] == After(states[n - 1], maxUses, now, s);
    }
  }

  lemma SameEligibility(a: AuthKeyData, b: AuthKeyData, millis: int)
    requires a.(useCount := 0) == b.(useCount := 0)
    ensures Eligible(a, millis, false) == Eligible(b, millis, false) && Expired(a, millis) == Expired(b, millis)
  {
    assert a.certificate == a.(useCount := 0).certificate && a.expirationDateMillis == a.(useCount := 0).expirationDateMillis;
    assert b.certificate == b.(useCount := 0).certificate && b.expirationDateMillis == b.(useCount := 0).expirationDateMillis;
  }
}
