/** The names of legacy files: a uid in decimal, an underscore, and the alias with unusual bytes escaped. */
module LegacyNames {
  import opened Prelude

  /** The characters of an alias stand for its bytes. */
  predicate IsByteString(s: string) {
    forall i :: 0 <= i < |s| ==> s[i] as int < 256
  }

  predicate Between(s: string, i: nat, low: int, high: int) {
    i < |s| && low <= s[i] as int <= high
  }

  /** Well-formed UTF-8: section 4 of RFC 3629. */
  predicate IsUtf8(s: string) {
    if s == [] then true
    else if Between(s, 0, 0x00, 0x7F) then IsUtf8(s[1..])
    else if Between(s, 0, 0xC2, 0xDF) && Between(s, 1, 0x80, 0xBF) then IsUtf8(s[2..])
    else if |s| >= 3 && Between(s, 2, 0x80, 0xBF)
      && ((Between(s, 0, 0xE0, 0xE0) && Between(s, 1, 0xA0, 0xBF))
          || ((Between(s, 0, 0xE1, 0xEC) || Between(s, 0, 0xEE, 0xEF)) && Between(s, 1, 0x80, 0xBF))
          || (Between(s, 0, 0xED, 0xED) && Between(s, 1, 0x80, 0x9F))) then IsUtf8(s[3..])
    else if |s| >= 4 && Between(s, 2, 0x80, 0xBF) && Between(s, 3, 0x80, 0xBF)
      && ((Between(s, 0, 0xF0, 0xF0) && Between(s, 1, 0x90, 0xBF))
          || (Between(s, 0, 0xF1, 0xF3) && Between(s, 1, 0x80, 0xBF))
          || (Between(s, 0, 0xF4, 0xF4) && Between(s, 1, 0x80, 0x8F))) then IsUtf8(s[4..])
    else false
  }

  predicate IsPlain(c: char) { '0' <= c <= '~' }

  // ---------------------------------------------------------------------------------------------
  // Aliases

  /** Other bytes become two characters: the two upper bits from `+`, the six lower bits from `0`. */
  function Encode(alias: string): string
    requires IsByteString(alias)
  {
    if alias == [] then []
    else
      var c := alias[0];
      (if IsPlain(c) then [c] else [(43 + c as int / 64) as char, (48 + c as int % 64) as char]) + Encode(alias[1..])
  }

  /** `multi` holds the upper bits once the first of two characters has been read. */
  function DecodeFrom(multi: Option<int>, s: string): Option<string>
    requires multi.Some? ==> multi.value in {0, 64, 128, 192}
    decreases |s|
  {
    if s == [] then (if multi.None? then Some([]) else None)
    else if multi.Some? then
      if '0' <= s[0] <= 'o' then Prepend([(multi.value + (s[0] as int - 48)) as char], DecodeFrom(None, s[1..])) else None
    else if '+' <= s[0] <= '.' then DecodeFrom(Some((s[0] as int - 43) * 64), s[1..])
    else if IsPlain(s[0]) then Prepend([s[0]], DecodeFrom(None, s[1..]))
    else None
  }

  function Prepend(s: string, r: Option<string>): Option<string> {
    if r.None? then None else Some(s + r.value)
  }

  /** Bytes that are no text are refused. */
  function Decode(s: string): Option<string> {
    var bytes := DecodeFrom(None, s);
    if bytes.Some? && IsUtf8(bytes.value) then bytes else None
  }

  method DecodeAlias(name: string) returns (r: Option<string>)
    ensures r == Decode(name)
  {
    var multi: Option<int> := None;
    var s: string := [];
    assert name[0..] == name;
    PrependNothing(DecodeFrom(None, name));
    for i := 0 to |name|
      invariant multi.Some? ==> multi.value in {0, 64, 128, 192}
      invariant DecodeFrom(None, name) == Prepend(s, DecodeFrom(multi, name[i..]))
    {
      var c := name[i];
      assert name[i..][1..] == name[i + 1..];
      if multi.Some? {
        if !('0' <= c <= 'o') {
          return None;
        }
        PrependTwice(s, [(multi.value + (c as int - 48)) as char], DecodeFrom(None, name[i + 1..]));
        s := s + [(multi.value + (c as int - 48)) as char];
        multi := None;
      } else if '+' <= c <= '.' {
        multi := Some((c as int - 43) * 64);
      } else if IsPlain(c) {
        PrependTwice(s, [c], DecodeFrom(None, name[i + 1..]));
        s := s + [c];
      } else {
        return None;
      }
    }
    if multi.Some? {
      return None;
    }
    assert s + [] == s;
    return if IsUtf8(s) then Some(s) else None;
  }

  lemma PrependTwice(a: string, b: string, r: Option<string>)
    ensures Prepend(a, Prepend(b, r)) == Prepend(a + b, r)
  {
    if r.Some? {
      assert a + (b + r.value) == (a + b) + r.value;
    }
  }

  lemma PrependNothing(r: Option<string>)
    ensures Prepend([], r) == r
  {
    if r.Some? {
      assert [] + r.value == r.value;
    }
  }

  lemma {:induction false} UnescapeReverses(alias: string)
    requires IsByteString(alias)
    ensures DecodeFrom(None, Encode(alias)) == Some(alias)
  {
    if alias != [] {
      var c, rest := alias[0], alias[1..];
      UnescapeReverses(rest);
      assert alias == [c] + rest;
      if IsPlain(c) {
        assert ([c] + Encode(rest))[1..] == Encode(rest);
      } else {
        EscapeReverses(c, Encode(rest));
      }
    }
  }

  lemma EscapeReverses(c: char, s: string)
    requires c as int < 256
    ensures DecodeFrom(None, [(43 + c as int / 64) as char, (48 + c as int % 64) as char] + s) == Prepend([c], DecodeFrom(None, s))
  {
    var q, m := c as int / 64, c as int % 64;
    var e := [(43 + q) as char, (48 + m) as char] + s;
    assert e[1..] == [(48 + m) as char] + s && e[1..][1..] == s;
    assert q in {0, 1, 2, 3} && q * 64 + m == c as int;
    assert DecodeFrom(None, e) == DecodeFrom(Some(q * 64), e[1..]);
    assert DecodeFrom(Some(q * 64), e[1..]) == Prepend([(q * 64 + m) as char], DecodeFrom(None, s));
  }

  /** Decoding reverses the encoding of every alias, as aliases are text. */
  lemma DecodeReverses(alias: string)
    requires IsByteString(alias)
    ensures Decode(Encode(alias)) == if IsUtf8(alias) then Some(alias) else None
  {
    UnescapeReverses(alias);
  }

  lemma {:induction false} PlainBytesStay(plain: string, s: string)
    requires forall i :: 0 <= i < |plain| ==> IsPlain(plain[i])
    ensures DecodeFrom(None, plain + s) == Prepend(plain, DecodeFrom(None, s))
    ensures IsUtf8(plain + s) <==> IsUtf8(s)
  {
    if plain == [] {
      assert plain + s == s;
      PrependNothing(DecodeFrom(None, s));
    } else {
      PlainBytesStay(plain[1..], s);
      assert (plain + s)[1..] == plain[1..] + s;
      PrependTwice([plain[0]], plain[1..], DecodeFrom(None, s));
      assert [plain[0]] + plain[1..] == plain;
    }
  }

  /** Plain characters stand for themselves. */
  lemma PlainStays(plain: string, s: string)
    requires forall i :: 0 <= i < |plain| ==> IsPlain(plain[i])
    ensures Decode(plain + s) == Prepend(plain, Decode(s))
  {
    PlainBytesStay(plain, s);
    var bytes := DecodeFrom(None, s);
    if bytes.Some? {
      PlainBytesStay(plain, bytes.value);
    }
  }

  /** An encoded alias begins with plain characters exactly if the alias does. */
  lemma {:induction false} EncodeKeepsPrefix(prefix: string, alias: string)
    requires IsByteString(alias) && forall i :: 0 <= i < |prefix| ==> IsPlain(prefix[i])
    ensures prefix <= Encode(alias) <==> prefix <= alias
  {
    if prefix != [] && alias != [] {
      var c, rest := alias[0], alias[1..];
      EncodeKeepsPrefix(prefix[1..], rest);
      assert alias == [c] + rest && prefix == [prefix[0]] + prefix[1..];
      if IsPlain(c) {
        assert Encode(alias) == [c] + Encode(rest);
        ConsPrefix(prefix, c, Encode(rest));
      }
      ConsPrefix(prefix, c, rest);
    }
  }

  lemma ConsPrefix(prefix: string, c: char, s: string)
    requires prefix != []
    ensures prefix <= [c] + s <==> prefix[0] == c && prefix[1..] <= s
  {
    var t := [c] + s;
    if prefix <= t {
      assert forall i :: 0 <= i < |prefix| - 1 ==> prefix[1..][i] == prefix[i + 1] == t[i + 1] == s[i];
    }
    if prefix[0] == c && prefix[1..] <= s {
      assert forall i :: 0 < i < |prefix| ==> prefix[i] == prefix[1..][i - 1] == s[i - 1] == t[i];
    }
  }

  /** Aliases that belong to Keystore keys. */
  predicate IsKeystoreAlias(alias: string) {
    "USRPKEY_" <= alias || "USRSKEY_" <= alias || "USRCERT_" <= alias || "CACERT_" <= alias
  }

  /** It makes no difference whether the alias is checked before or after encoding. */
  lemma EncodedKeystoreAlias(alias: string)
    requires IsByteString(alias)
    ensures IsKeystoreAlias(Encode(alias)) <==> IsKeystoreAlias(alias)
  {
    EncodeKeepsPrefix("USRPKEY_", alias);
    EncodeKeepsPrefix("USRSKEY_", alias);
    EncodeKeepsPrefix("USRCERT_", alias);
    EncodeKeepsPrefix("CACERT_", alias);
  }

  // ---------------------------------------------------------------------------------------------
  // Uids

  function Decimal(n: nat): (s: string)
    ensures s != [] && forall i :: 0 <= i < |s| ==> '0' <= s[i] <= '9'
  {
    if n < 10 then [('0' as int + n) as char] else Decimal(n / 10) + [('0' as int + n % 10) as char]
  }

  function ValueOf(digits: string): nat
    requires forall i :: 0 <= i < |digits| ==> '0' <= digits[i] <= '9'
  {
    if digits == [] then 0 else ValueOf(digits[..|digits| - 1]) * 10 + (digits[|digits| - 1] as int - '0' as int)
  }

  /** A number of 32 bits without sign, with or without a plus in front. */
  function ParseU32(s: string): Option<nat> {
    var digits := if |s| > 1 && s[0] == '+' then s[1..] else s;
    if digits != [] && (forall i :: 0 <= i < |digits| ==> '0' <= digits[i] <= '9') && ValueOf(digits) < 0x1_0000_0000
    then Some(ValueOf(digits)) else None
  }

  lemma {:induction false} ValueOfDecimal(n: nat)
    ensures ValueOf(Decimal(n)) == n
  {
    var d := Decimal(n);
    if n >= 10 {
      ValueOfDecimal(n / 10);
      assert d[..|d| - 1] == Decimal(n / 10);
    } else {
      assert d[..0] == [];
    }
  }

  lemma DecimalIsInjective(m: nat, n: nat)
    requires Decimal(m) == Decimal(n)
    ensures m == n
  {
    ValueOfDecimal(m);
    ValueOfDecimal(n);
  }

  // ---------------------------------------------------------------------------------------------
  // Names

  datatype Id = Id(uid: nat, alias: string)

  predicate IsNameable(id: Id) {
    id.uid < 0x1_0000_0000 && IsByteString(id.alias) && IsUtf8(id.alias)
  }

  function FileName(id: Id): string
    requires IsNameable(id)
  {
    Decimal(id.uid) + "_" + Encode(id.alias)
  }

  /** The position of the first underscore, or the length. */
  function FirstUnderscore(s: string): (i: nat)
    ensures i <= |s| && (forall j :: 0 <= j < i ==> s[j] != '_') && (i < |s| ==> s[i] == '_')
  {
    if s == [] || s[0] == '_' then 0 else 1 + FirstUnderscore(s[1..])
  }

  /** The entry a name stands for when a whole user directory is listed, if it stands for one. */
  function ParseName(name: string): Option<Id> {
    var sep := FirstUnderscore(name);
    if sep == |name| || ParseU32(name[..sep]).None? then None
    else
      var encoded := name[sep + 1..];
      if IsKeystoreAlias(encoded) || Decode(encoded).None? then None
      else Some(Id(ParseU32(name[..sep]).value, Decode(encoded).value))
  }

  /** Names are parsed back to what they were made of, except those of Keystore keys. */
  lemma ParseReverses(id: Id)
    requires IsNameable(id)
    ensures ParseName(FileName(id)) == if IsKeystoreAlias(id.alias) then None else Some(id)
  {
    var d, name := Decimal(id.uid), FileName(id);
    DecodeReverses(id.alias);
    EncodedKeystoreAlias(id.alias);
    ValueOfDecimal(id.uid);
    hide Decimal, Encode, Decode, ValueOf, IsKeystoreAlias, IsByteString, IsUtf8;
    assert name[|d|] == '_' && name[..|d|] == d && name[|d| + 1..] == Encode(id.alias);
    assert forall j :: 0 <= j < |d| ==> name[j] == d[j] && d[j] != '_';
    assert FirstUnderscore(name) == |d|;
    assert d[0] != '+';
  }
}
