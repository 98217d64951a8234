/**
 Reading a magnet's info hash. Sources spell the same 20 bytes in hex or in base32 (section 6 of
 RFC 4648), in either letter case; the pipeline keys on upper-case hex.
 */
module InfoHash {
  import opened Options

  type Bytes = seq<nat>

  predicate IsHash(bytes: Bytes) {
    |bytes| == 20 && InRange(bytes, 8)
  }

  function Pow2(w: nat): nat {
    if w == 0 then 1 else 2 * Pow2(w - 1)
  }

  /** Every value fits in `w` bits. */
  predicate InRange(values: seq<nat>, w: nat) {
    forall i | 0 <= i < |values| :: values[i] < Pow2(w)
  }

  // -- bits ------------------------------------------------------------------

  predicate AreBits(bits: seq<nat>) {
    forall i | 0 <= i < |bits| :: bits[i] < 2
  }

  /** A value's lowest `w` bits, highest first. */
  function ToBits(value: nat, w: nat): (bits: seq<nat>)
    ensures |bits| == w && AreBits(bits)
  {
    if w == 0 then [] else ToBits(value / 2, w - 1) + [value % 2]
  }

  function FromBits(bits: seq<nat>): nat {
    if bits == [] then 0 else 2 * FromBits(bits[..|bits| - 1]) + bits[|bits| - 1]
  }

  lemma {:induction false} BitsOfValue(value: nat, w: nat)
    requires value < Pow2(w)
    ensures FromBits(ToBits(value, w)) == value
  {
    if w > 0 {
      BitsOfValue(value / 2, w - 1);
      assert ToBits(value, w)[..w - 1] == ToBits(value / 2, w - 1);
    }
  }

  lemma {:induction false} ValueOfBits(bits: seq<nat>)
    requires AreBits(bits)
    ensures FromBits(bits) < Pow2(|bits|) && ToBits(FromBits(bits), |bits|) == bits
  {
    if bits != [] {
      var most, last := bits[..|bits| - 1], bits[|bits| - 1];
      ValueOfBits(most);
      assert FromBits(bits) / 2 == FromBits(most) && FromBits(bits) % 2 == last;
      assert bits == most + [last];
    }
  }

  /** `n * w`, kept linear. */
  function Times(n: nat, w: nat): nat {
    if n == 0 then 0 else w + Times(n - 1, w)
  }

  lemma {:induction false} TimesIsProduct(n: nat, w: nat)
    ensures Times(n, w) == n * w
  {
    if n > 0 {
      TimesIsProduct(n - 1, w);
    }
  }

  /** Values of `w` bits each, written one after another. */
  function Spread(values: seq<nat>, w: nat): (bits: seq<nat>)
    ensures |bits| == Times(|values|, w) && AreBits(bits)
  {
    if values == [] then [] else ToBits(values[0], w) + Spread(values[1..], w)
  }

  /** Bits read `w` at a time. */
  function Group(bits: seq<nat>, w: nat): (values: seq<nat>)
    requires w > 0
  {
    if |bits| < w then [] else [FromBits(bits[..w])] + Group(bits[w..], w)
  }

  lemma {:induction false} GroupOfSpread(values: seq<nat>, w: nat)
    requires w > 0 && InRange(values, w)
    ensures Group(Spread(values, w), w) == values
  {
    if values != [] {
      var bits := Spread(values, w);
      assert |bits| == w + |Spread(values[1..], w)|;
      assert bits[..w] == ToBits(values[0], w) && bits[w..] == Spread(values[1..], w);
      BitsOfValue(values[0], w);
      assert InRange(values[1..], w) by {
        assert forall i | 0 <= i < |values[1..]| :: values[1..][i] == values[i + 1];
      }
      GroupOfSpread(values[1..], w);
    }
  }

  lemma {:induction false} SpreadOfGroup(bits: seq<nat>, w: nat, n: nat)
    requires w > 0 && |bits| == Times(n, w) && AreBits(bits)
    ensures |Group(bits, w)| == n && InRange(Group(bits, w), w) && Spread(Group(bits, w), w) == bits
    decreases n
  {
    if n == 0 {
      assert bits == [];
    } else {
      var head, tail := bits[..w], bits[w..];
      assert |tail| == Times(n - 1, w);
      assert AreBits(head) && AreBits(tail);
      ValueOfBits(head);
      SpreadOfGroup(tail, w, n - 1);
      OneMore(FromBits(head), Group(tail, w), w);
      assert bits == head + tail;
    }
  }

  lemma OneMore(value: nat, values: seq<nat>, w: nat)
    requires value < Pow2(w) && InRange(values, w)
    ensures InRange([value] + values, w) && Spread([value] + values, w) == ToBits(value, w) + Spread(values, w)
  {
    assert ([value] + values)[1..] == values;
  }

  /** The same 160 bits are 20 bytes or 32 base32 digits. */
  lemma HashSize()
    ensures Times(20, 8) == Times(32, 5) == 160
  {
    TimesIsProduct(20, 8);
    TimesIsProduct(32, 5);
  }

  // -- spellings -------------------------------------------------------------

  function Upper(c: char): char {
    if 'a' <= c <= 'z' then (c as int - 'a' as int + 'A' as int) as char else c
  }

  function UpperAll(s: string): (u: string)
    ensures |u| == |s| && forall i | 0 <= i < |s| :: u[i] == Upper(s[i])
  {
    seq(|s|, i requires 0 <= i < |s| => Upper(s[i]))
  }

  predicate AlNum(c: char) {
    'a' <= c <= 'z' || 'A' <= c <= 'Z' || '0' <= c <= '9'
  }

  /** A digit's value in base 16 or 32, in either letter case. */
  function HexValue(c: char): (value: Option<nat>)
    ensures value.Some? ==> value.value < 16
  {
    var u := Upper(c);
    if '0' <= u <= '9' then Some(u as int - '0' as int)
    else if 'A' <= u <= 'F' then Some(u as int - 'A' as int + 10)
    else None
  }

  function HexDigit(value: nat): (c: char)
    requires value < 16
    ensures HexValue(c) == Some(value) && Upper(c) == c && AlNum(c) && c != 'X'
  {
    if value < 10 then ('0' as int + value) as char else ('A' as int + value - 10) as char
  }

  function Base32Value(c: char): (value: Option<nat>)
    ensures value.Some? ==> value.value < 32
  {
    if 'A' <= c <= 'Z' then Some(c as int - 'A' as int)
    else if '2' <= c <= '7' then Some(c as int - '2' as int + 26)
    else None
  }

  function Base32Digit(value: nat): (c: char)
    requires value < 32
    ensures Base32Value(c) == Some(value) && Upper(c) == c && AlNum(c)
  {
    if value < 26 then ('A' as int + value) as char else ('2' as int + value - 26) as char
  }

  /** `bytes.hex().upper()`. */
  function Hex(bytes: Bytes): (s: string)
    requires InRange(bytes, 8)
    ensures |s| == 2 * |bytes|
    ensures forall i | 0 <= i < |s| :: s[i] == HexDigit(if i % 2 == 0 then bytes[i / 2] / 16 else bytes[i / 2] % 16)
  {
    assert Pow2(8) == 256;
    seq(2 * |bytes|, i requires 0 <= i < 2 * |bytes| =>
      HexDigit(if i % 2 == 0 then bytes[i / 2] / 16 else bytes[i / 2] % 16))
  }

  function Spelled(values: seq<nat>): (s: string)
    requires InRange(values, 5)
    ensures |s| == |values| && forall i | 0 <= i < |s| :: s[i] == Base32Digit(values[i])
  {
    assert Pow2(5) == 32;
    seq(|values|, i requires 0 <= i < |values| => Base32Digit(values[i]))
  }

  /** Base32 of a hash: its bits, five at a time; 20 bytes need no padding. */
  function Base32(hash: Bytes): (s: string)
    requires IsHash(hash)
    ensures |s| == 32
  {
    HashSize();
    SpreadOfGroup(Spread(hash, 8), 5, 32);
    Spelled(Group(Spread(hash, 8), 5))
  }

  // -- reading ---------------------------------------------------------------

  predicate AllHex(s: string) {
    forall i | 0 <= i < |s| :: HexValue(s[i]).Some?
  }

  predicate Prefixed(s: string) {
    |s| > 2 && s[0] == '0' && Upper(s[1]) == 'X'
  }

  /** What `int(value, 16)` accepts of letters and digits. */
  predicate ReadsAsHex(s: string) {
    AllHex(s) || (Prefixed(s) && AllHex(s[2..]))
  }

  function Base32Values(s: string): (values: Option<seq<nat>>)
    ensures values.Some? ==> |values.value| == |s| && InRange(values.value, 5)
    ensures values.Some? <==> forall i | 0 <= i < |s| :: Base32Value(s[i]).Some?
    ensures values.Some? ==> forall i | 0 <= i < |s| :: Base32Value(s[i]) == Some(values.value[i])
  {
    assert Pow2(5) == 32;
    if forall i | 0 <= i < |s| :: Base32Value(s[i]).Some?
    then Some(seq(|s|, i requires 0 <= i < |s| => Base32Value(s[i]).value)) else None
  }

  /** What becomes of the letters and digits after `urn:btih:`. */
  function ReadValue(value: string): Option<string> {
    if |value| == 40 then (if ReadsAsHex(value) then Some(UpperAll(value)) else None)
    else if |value| == 32 then
      var values := Base32Values(UpperAll(value));
      if values == None then None else
      HashSize();
      SpreadOfGroup(Spread(values.value, 5), 8, 20);
      Some(Hex(Group(Spread(values.value, 5), 8)))
    else None
  }

  const MARK := "URN:BTIH:"

  /** The mark, in any letter case. */
  predicate MarkHere(s: string, i: nat) {
    i + |MARK| <= |s| && UpperAll(s[i..i + |MARK|]) == MARK
  }

  predicate MarkAt(s: string, i: nat) {
    MarkHere(s, i) && i + |MARK| < |s| && AlNum(s[i + |MARK|])
  }

  /** The letters and digits from here on. */
  function Word(s: string): (word: string)
    ensures word <= s && forall c | c in word :: AlNum(c)
  {
    if s == "" || !AlNum(s[0]) then "" else [s[0]] + Word(s[1..])
  }

  /** `extract_info_hash`: the leftmost match counts. */
  function ExtractInfoHash(magnet: string): Option<string> {
    if magnet == "" then None
    else if MarkAt(magnet, 0) then ReadValue(Word(magnet[|MARK|..]))
    else ExtractInfoHash(magnet[1..])
  }

  // -- what it promises ------------------------------------------------------

  /** Hex in any letter case reads as the hash. */
  lemma HexReads(hash: Bytes, value: string)
    requires IsHash(hash) && UpperAll(value) == Hex(hash)
    ensures ReadValue(value) == Some(Hex(hash))
  {
    forall i | 0 <= i < |value| ensures HexValue(value[i]).Some? {
      assert Upper(value[i]) == Hex(hash)[i];
    }
  }

  /** Base32 in any letter case reads as the same. */
  lemma Base32Reads(hash: Bytes, value: string)
    requires IsHash(hash) && UpperAll(value) == Base32(hash)
    ensures ReadValue(value) == Some(Hex(hash))
  {
    var bits := Spread(hash, 8);
    HashSize();
    SpreadOfGroup(bits, 5, 32);
    var digits := Group(bits, 5);
    var values := Base32Values(UpperAll(value));
    assert forall i | 0 <= i < 32 :: UpperAll(value)[i] == Base32Digit(digits[i]);
    assert values.value == digits;
    GroupOfSpread(hash, 8);
  }

  /** Different hashes keep different keys. */
  lemma HexIsInjective(a: Bytes, b: Bytes)
    requires IsHash(a) && IsHash(b) && Hex(a) == Hex(b)
    ensures a == b
  {
    forall k | 0 <= k < 20 ensures a[k] == b[k] {
      assert Hex(a)[2 * k] == HexDigit(a[k] / 16) && Hex(a)[2 * k + 1] == HexDigit(a[k] % 16);
      assert Hex(b)[2 * k] == HexDigit(b[k] / 16) && Hex(b)[2 * k + 1] == HexDigit(b[k] % 16);
      assert HexValue(Hex(a)[2 * k]) == HexValue(Hex(b)[2 * k]);
      assert HexValue(Hex(a)[2 * k + 1]) == HexValue(Hex(b)[2 * k + 1]);
    }
  }

  lemma {:induction false} WordOf(value: string, rest: string)
    requires (forall c | c in value :: AlNum(c)) && (rest == "" || !AlNum(rest[0]))
    ensures Word(value + rest) == value
  {
    if value != "" {
      assert (value + rest)[0] == value[0] && (value + rest)[1..] == value[1..] + rest;
      WordOf(value[1..], rest);
    } else {
      assert value + rest == rest;
    }
  }

  /** No part of the text is the mark. */
  ghost predicate NoMark(text: string) {
    forall i: nat :: !MarkHere(text, i)
  }

  /** The search goes past whatever stands before the mark: the mark cannot begin in it and end outside,
      since no other letter of it is its first. */
  lemma {:induction false} SearchSkips(prefix: string, text: string)
    requires NoMark(prefix) && text != "" && AlNum(text[0])
    ensures ExtractInfoHash(prefix + "urn:btih:" + text) == ReadValue(Word(text))
  {
    if prefix == "" {
      assert prefix + "urn:btih:" + text == "urn:btih:" + text;
      MarkIsFound(text);
    } else {
      var magnet := prefix + "urn:btih:" + text;
      var rest := prefix[1..];
      assert magnet[1..] == rest + "urn:btih:" + text;
      MarkNotHere(prefix, text);
      forall i: nat ensures !MarkHere(rest, i) {
        assert !MarkHere(prefix, i + 1);
        if i + |MARK| <= |rest| {
          SliceOfTail(prefix, i, i + |MARK|);
        }
      }
      SearchSkips(rest, text);
    }
  }

  lemma SliceOfTail(s: string, i: nat, j: nat)
    requires i <= j < |s|
    ensures s[1..][i..j] == s[i + 1..j + 1]
  {
  }

  lemma MarkNotHere(prefix: string, text: string)
    requires NoMark(prefix) && prefix != ""
    ensures !MarkAt(prefix + "urn:btih:" + text, 0)
  {
    var magnet := prefix + "urn:btih:" + text;
    var seen := magnet[0..0 + |MARK|];
    assert !MarkHere(prefix, 0);
    if |prefix| >= |MARK| {
      assert seen == prefix[0..0 + |MARK|];
    } else {
      assert magnet[|prefix|] == 'u' && seen[|prefix|] == 'u';
      assert UpperAll(seen)[|prefix|] == 'U' && MARK[|prefix|] != 'U';
    }
  }

  lemma MarkIsFound(text: string)
    requires text != "" && AlNum(text[0])
    ensures ExtractInfoHash("urn:btih:" + text) == ReadValue(Word(text))
  {
    var magnet := "urn:btih:" + text;
    assert magnet[0..0 + |MARK|] == "urn:btih:" && magnet[|MARK|..] == text;
    assert UpperAll("urn:btih:") == MARK;
    assert MarkAt(magnet, 0);
  }

  /** A magnet for a stored key reads as that key again, whatever comes before its mark and whatever
      parameters follow the key. */
  lemma RereadsItself(prefix: string, hash: Bytes, rest: string)
    requires IsHash(hash) && NoMark(prefix) && (rest == "" || !AlNum(rest[0]))
    ensures ExtractInfoHash(prefix + "urn:btih:" + Hex(hash) + rest) == Some(Hex(hash))
    ensures ReadValue(Hex(hash)) == Some(Hex(hash))
  {
    var key := Hex(hash);
    forall c | c in key ensures AlNum(c) {
      var i :| 0 <= i < |key| && key[i] == c;
    }
    assert key[0] in key && (key + rest)[0] == key[0];
    SearchSkips(prefix, key + rest);
    assert prefix + "urn:btih:" + key + rest == prefix + "urn:btih:" + (key + rest);
    WordOf(key, rest);
    assert UpperAll(key) == key;
    HexReads(hash, key);
  }

  lemma PlainPrefix()
    ensures NoMark("magnet:?xt=")
  {
    var prefix := "magnet:?xt=";
    forall i: nat ensures !MarkHere(prefix, i) {
      if i + |MARK| <= |prefix| {
        assert UpperAll(prefix[i..i + |MARK|])[0] == Upper(prefix[i]) != 'U';
      }
    }
  }

  /** A magnet as the sites write it, in either spelling and any letter case. */
  lemma MagnetReads(hash: Bytes, value: string, rest: string)
    requires IsHash(hash) && (UpperAll(value) == Hex(hash) || UpperAll(value) == Base32(hash))
    requires rest == "" || !AlNum(rest[0])
    ensures ExtractInfoHash("magnet:?xt=" + "urn:btih:" + value + rest) == Some(Hex(hash))
  {
    var prefix := "magnet:?xt=";
    PlainPrefix();
    SpellingIsAlNum(hash, value);
    assert value[0] in value && (value + rest)[0] == value[0];
    SearchSkips(prefix, value + rest);
    assert prefix + "urn:btih:" + value + rest == prefix + "urn:btih:" + (value + rest);
    WordOf(value, rest);
    if UpperAll(value) == Hex(hash) {
      HexReads(hash, value);
    } else {
      Base32Reads(hash, value);
    }
  }

  lemma SpellingIsAlNum(hash: Bytes, value: string)
    requires IsHash(hash) && (UpperAll(value) == Hex(hash) || UpperAll(value) == Base32(hash))
    ensures |value| > 0 && forall c | c in value :: AlNum(c)
  {
    HashSize();
    SpreadOfGroup(Spread(hash, 8), 5, 32);
    forall c | c in value ensures AlNum(c) {
      var i :| 0 <= i < |value| && value[i] == c;
      assert UpperAll(value)[i] == Upper(c) && AlNum(Upper(c));
    }
  }

  /** The one thing `int` lets through that is no hash: a value read as a key is 40 hex digits exactly
      unless it starts with `0x`. */
  lemma KeysAreHexUnlessPrefixed(value: string)
    requires ReadValue(value).Some?
    ensures |ReadValue(value).value| == 40
    ensures AllHex(ReadValue(value).value) <==> !(|value| == 40 && Prefixed(value))
  {
    var key := ReadValue(value).value;
    if |value| == 40 {
      forall i | 0 <= i < 40 ensures HexValue(key[i]) == HexValue(value[i]) {
      }
      if Prefixed(value) {
        assert HexValue(value[1]) == None;
      }
    } else {
      var values := Base32Values(UpperAll(value));
      HashSize();
      SpreadOfGroup(Spread(values.value, 5), 8, 20);
    }
  }

  /** Such a value, and the key it makes. */
  lemma SomeArePrefixed(value: string)
    requires |value| == 40 && value[0] == '0' && value[1] == 'x' && forall i | 2 <= i < 40 :: value[i] == '0'
    ensures ReadValue(value) == Some(UpperAll(value)) && !AllHex(UpperAll(value))
  {
    assert forall i | 0 <= i < 38 :: value[2..][i] == '0';
    assert UpperAll(value)[1] == 'X';
  }
}
