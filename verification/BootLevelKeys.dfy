/**
  The cache of boot level keys: the key of level n + 1 is derived from that of level n, and once the
  boot level advances, keys of earlier levels cannot be obtained again.
 */
module BootLevelKeys {
  import opened Prelude

  type Key = Bytes

  /** The two uses of the key derivation function. */
  datatype Kdf = Kdf(advance: Key -> Key, aes: Key -> Key)

  datatype Failure = HkdfFailed

  /** `current` is the least accessible level; `keys[i]` is the key of level `current + i`. */
  datatype Cache = Cache(current: nat, keys: seq<Key>)

  /** Which of the derivations made by one call succeed. */
  type Working = nat -> bool

  predicate Accessible(c: Cache, level: nat) {
    c.current <= level && c.keys != []
  }

  // ---------------------------------------------------------------------------------------------
  // What the operations do

  /** `n` more keys, or as many as can be derived before a derivation fails. */
  function Grown(kdf: Kdf, keys: seq<Key>, n: nat, working: Working, i: nat): seq<Key>
    requires keys != []
    decreases n
  {
    if n == 0 || !working(i) then keys
    else Grown(kdf, keys + [kdf.advance(keys[|keys| - 1])], n - 1, working, i + 1)
  }

  /** How many keys are missing up to `level`. */
  function Missing(c: Cache, level: nat): nat {
    if level < c.current + |c.keys| then 0 else level + 1 - (c.current + |c.keys|)
  }

  /** `get_hkdf_key` keeps the keys it derived even if it fails. */
  function Get(kdf: Kdf, c: Cache, level: nat, working: Working): (r: (Cache, Result<Option<Key>, Failure>))
    ensures r.0.current == c.current
    ensures Accessible(c, level) && r.1.Ok? ==> level - c.current < |r.0.keys|
  {
    if !Accessible(c, level) then (c, Ok(None))
    else
      var n := Missing(c, level);
      var keys := Grown(kdf, c.keys, n, working, 0);
      (c.(keys := keys), if c.current + |keys| <= level then Err(HkdfFailed) else Ok(Some(keys[level - c.current])))
  }

  function Advance(kdf: Kdf, c: Cache, level: nat, working: Working): (Cache, Result<(), Failure>) {
    if !Accessible(c, level) then (c, Ok(()))
    else
      var (d, key) := Get(kdf, c, level, working);
      if key.Err? then (d, Err(HkdfFailed))
      else (Cache(level, d.keys[level - d.current..]), Ok(()))
  }

  function Aes(kdf: Kdf, c: Cache, level: nat, working: Working): (Cache, Result<Option<Key>, Failure>) {
    var (d, key) := Get(kdf, c, level, working);
    if key.Err? || key.value.None? then (d, key)
    else (d, if working(Missing(c, level)) then Ok(Some(kdf.aes(key.value.value))) else Err(HkdfFailed))
  }

  // ---------------------------------------------------------------------------------------------
  // The object

  class BootLevelKeyCache {
    const kdf: Kdf
    var current: nat
    var cache: seq<Key>

    function State(): Cache
      reads this
    {
      Cache(current, cache)
    }

    constructor (kdf: Kdf, levelZeroKey: Key)
      ensures this.kdf == kdf && State() == Cache(0, [levelZeroKey])
    {
      this.kdf, current, cache := kdf, 0, [levelZeroKey];
    }

    method GetHkdfKey(level: nat, working: Working) returns (r: Result<Option<Key>, Failure>)
      modifies this
      ensures (State(), r) == Get(kdf, old(State()), level, working)
    {
      if !(level >= current && |cache| > 0) {
        return Ok(None);
      }
      var firstNotCached := current + |cache|;
      var i := 0;
      while firstNotCached + i <= level
        invariant |cache| > 0 && firstNotCached + i == current + |cache|
        invariant current == old(current)
        invariant firstNotCached + i <= if firstNotCached <= level then level + 1 else firstNotCached
        invariant Grown(kdf, old(cache), Missing(old(State()), level), working, 0)
               == Grown(kdf, cache, Missing(State(), level), working, i)
        decreases level + 1 - (firstNotCached + i)
      {
        var highest := cache[|cache| - 1];
        if !working(i) {
          return Err(HkdfFailed);
        }
        cache := cache + [kdf.advance(highest)];
        i := i + 1;
      }
      return Ok(Some(cache[level - current]));
    }

    method AdvanceBootLevel(level: nat, working: Working) returns (r: Result<(), Failure>)
      modifies this
      ensures (State(), r) == Advance(kdf, old(State()), level, working)
    {
      if !(level >= current && |cache| > 0) {
        return Ok(());
      }
      var key := GetHkdfKey(level, working);
      if key.Err? {
        return Err(HkdfFailed);
      }
      cache := cache[level - current..];
      current := level;
      return Ok(());
    }

    method Finish()
      modifies this
      ensures State() == Cache(old(current), [])
    {
      cache := [];
    }

    method AesKey(level: nat, working: Working) returns (r: Result<Option<Key>, Failure>)
      modifies this
      ensures (State(), r) == Aes(kdf, old(State()), level, working)
    {
      var missing := Missing(State(), level);
      var key := GetHkdfKey(level, working);
      if key.Err? || key.value.None? {
        return key;
      }
      return if working(missing) then Ok(Some(kdf.aes(key.value.value))) else Err(HkdfFailed);
    }
  }

  // ---------------------------------------------------------------------------------------------
  // Every run

  /** The key of a level: the level zero key, advanced that many times. */
  function LevelKey(kdf: Kdf, zero: Key, level: nat): Key {
    if level == 0 then zero else kdf.advance(LevelKey(kdf, zero, level - 1))
  }

  ghost predicate Good(kdf: Kdf, zero: Key, c: Cache) {
    forall i :: 0 <= i < |c.keys| ==> c.keys[i] == LevelKey(kdf, zero, c.current + i)
  }

  lemma {:induction false} GrownIsGood(kdf: Kdf, zero: Key, current: nat, keys: seq<Key>, n: nat, working: Working, i: nat)
    requires keys != [] && Good(kdf, zero, Cache(current, keys))
    ensures var grown := Grown(kdf, keys, n, working, i);
      keys <= grown && |grown| <= |keys| + n && Good(kdf, zero, Cache(current, grown))
    ensures |Grown(kdf, keys, n, working, i)| == |keys| + n <==> forall j :: i <= j < i + n ==> working(j)
    decreases n
  {
    if n == 0 || !working(i) {
    } else {
      var more := keys + [kdf.advance(keys[|keys| - 1])];
      assert LevelKey(kdf, zero, current + |keys|) == kdf.advance(LevelKey(kdf, zero, current + |keys| - 1));
      GrownIsGood(kdf, zero, current, more, n - 1, working, i + 1);
      assert (forall j :: i <= j < i + n ==> working(j)) <==> working(i) && forall j :: i + 1 <= j < i + n ==> working(j);
    }
  }

  /** A key is returned exactly if the level is accessible, and it is that level's key. */
  lemma GetReturnsLevelKey(kdf: Kdf, zero: Key, c: Cache, level: nat, working: Working)
    requires Good(kdf, zero, c)
    ensures var (d, r) := Get(kdf, c, level, working);
      && Good(kdf, zero, d)
      && c.keys <= d.keys
      && (r.Err? <==> Accessible(c, level) && exists j :: 0 <= j < Missing(c, level) && !working(j))
      && (r.Ok? ==> r.value == if Accessible(c, level) then Some(LevelKey(kdf, zero, level)) else None)
  {
    hide Grown, LevelKey;
    if Accessible(c, level) {
      var n := Missing(c, level);
      GrownIsGood(kdf, zero, c.current, c.keys, n, working, 0);
      var grown := Grown(kdf, c.keys, n, working, 0);
      assert Get(kdf, c, level, working).1.Err? <==> |grown| < |c.keys| + n;
    }
  }

  datatype Step = AdvanceTo(level: nat, working: Working) | AesFor(level: nat, working: Working) | FinishAll

  function Next(kdf: Kdf, c: Cache, step: Step): Cache {
    match step
    case AdvanceTo(level, working) => Advance(kdf, c, level, working).0
    case AesFor(level, working) => Aes(kdf, c, level, working).0
    case FinishAll => c.(keys := [])
  }

  lemma NextKeepsGood(kdf: Kdf, zero: Key, c: Cache, step: Step)
    requires Good(kdf, zero, c)
    ensures Good(kdf, zero, Next(kdf, c, step))
    ensures forall l :: Accessible(Next(kdf, c, step), l) ==> Accessible(c, l)
    ensures c.current <= Next(kdf, c, step).current
  {
    if !step.FinishAll? {
      GetReturnsLevelKey(kdf, zero, c, step.level, step.working);
    }
  }

  /** A successful advance makes exactly the levels from the new one on accessible; a failed one changes none. */
  lemma AdvanceIsExact(kdf: Kdf, zero: Key, c: Cache, level: nat, working: Working)
    requires Good(kdf, zero, c)
    ensures var (d, r) := Advance(kdf, c, level, working);
      forall l :: Accessible(d, l) <==> Accessible(c, l) && (r.Ok? && Accessible(c, level) ==> level <= l)
  {
    GetReturnsLevelKey(kdf, zero, c, level, working);
  }

  ghost predicate IsRun(kdf: Kdf, zero: Key, states: seq<Cache>, steps: seq<Step>) {
    && |states| == |steps| + 1
    && states[0] == Cache(0, [zero])
    && forall i :: 0 <= i < |steps| ==> states[i + 1] == Next(kdf, states[i], steps[i])
  }

  lemma {:induction false} RunKeepsGood(kdf: Kdf, zero: Key, states: seq<Cache>, steps: seq<Step>, n: nat)
    requires IsRun(kdf, zero, states, steps) && n < |states|
    ensures Good(kdf, zero, states[n])
  {
    if n > 0 {
      RunKeepsGood(kdf, zero, states, steps, n - 1);
      NextKeepsGood(kdf, zero, states[n - 1], steps[n - 1]);
    }
  }

  /** Forward security: a level that has become inaccessible stays so. */
  lemma {:induction false} InaccessibleForGood(kdf: Kdf, zero: Key, states: seq<Cache>, steps: seq<Step>, m: nat, n: nat, level: nat)
    requires IsRun(kdf, zero, states, steps) && m <= n < |states|
    requires !Accessible(states[m], level)
    ensures !Accessible(states[n], level)
    ensures states[m].current <= states[n].current
    decreases n
  {
    if m < n {
      InaccessibleForGood(kdf, zero, states, steps, m, n - 1, level);
      RunKeepsGood(kdf, zero, states, steps, n - 1);
      NextKeepsGood(kdf, zero, states[n - 1], steps[n - 1]);
    }
  }

  /**
    At any point of any run, with any earlier failures, the AES key returned for a level is the one
    derived from the level zero key, and it is withheld exactly if the level is inaccessible.
   */
  lemma AesKeyDependsOnLevelOnly(kdf: Kdf, zero: Key, states: seq<Cache>, steps: seq<Step>, n: nat, level: nat, working: Working)
    requires IsRun(kdf, zero, states, steps) && n < |states|
    ensures var r := Aes(kdf, states[n], level, working).1;
      && (r == Ok(None) <==> !Accessible(states[n], level))
      && (r.Ok? && Accessible(states[n], level) ==> r.value == Some(kdf.aes(LevelKey(kdf, zero, level))))
  {
    RunKeepsGood(kdf, zero, states, steps, n);
    GetReturnsLevelKey(kdf, zero, states[n], level, working);
  }

  /** The level that counts is the highest advanced to, as long as every derivation works. */
  lemma {:induction false} CurrentIsHighest(kdf: Kdf, zero: Key, states: seq<Cache>, steps: seq<Step>, n: nat)
    requires IsRun(kdf, zero, states, steps) && n < |states|
    requires forall i :: 0 <= i < n ==> steps[i].AdvanceTo? || steps[i].AesFor?
    requires forall i, j :: 0 <= i < n && 0 <= j ==> steps[i].working(j)
    ensures states[n].keys != []
    ensures forall i :: 0 <= i < n && steps[i].AdvanceTo? ==> steps[i].level <= states[n].current
    ensures states[n].current == 0 || exists i :: 0 <= i < n && steps[i].AdvanceTo? && steps[i].level == states[n].current
  {
    if n > 0 {
      CurrentIsHighest(kdf, zero, states, steps, n - 1);
      RunKeepsGood(kdf, zero, states, steps, n - 1);
      GetReturnsLevelKey(kdf, zero, states[n - 1], steps[n - 1].level, steps[n - 1].working);
    }
  }
}
