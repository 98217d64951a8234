/**
 One spelling for video IDs: `normalize_number`, and the migration that renames stored keys to it.

 The parser reads digits as Python does, any Unicode decimal digit included; the migration reads
 ASCII digits and works on strings. `Digits` is a Unicode digit table: what it says of ASCII digits
 is fixed, the rest is arbitrary.
 */
module VideoIds {
  import opened Options

  type Digits = char -> Option<nat>

  predicate AsciiDigit(c: char) {
    '0' <= c <= '9'
  }

  predicate AsciiUpper(c: char) {
    'A' <= c <= 'Z'
  }

  /** A digit table: ASCII digits have their values, other ASCII characters none, and none is ten or more. */
  ghost predicate IsTable(digits: Digits) {
    && (forall c: char :: digits(c).Some? ==> digits(c).value < 10)
    && (forall c: char :: AsciiDigit(c) ==> digits(c) == Some(c as int - '0' as int))
    && (forall c: char :: (c == '-' || c == '\n') ==> digits(c) == None)
  }

  /** `_NON_CID_BRANDS`, which the migration repeats. */
  function NonCidBrands(): seq<string> {
    ["FC2", "HEYZO", "HEYDOUGA", "GETCHU", "GYUTTO", "MKBD", "MKD", "S2M", "S2MBD", "MK3D2DBD", "CW3D2BD", "CW3D2DBD"]
  }

  predicate OneOf(brand: string, brands: seq<string>) {
    brands != [] && (brand == brands[0] || OneOf(brand, brands[1..]))
  }

  lemma {:induction false} OneOfIsMembership(brand: string, brands: seq<string>)
    ensures OneOf(brand, brands) <==> brand in brands
  {
    if brands != [] {
      OneOfIsMembership(brand, brands[1..]);
    }
  }

  /** Whether the brand's numbers are catalog numbers. */
  predicate Catalogued(brand: string) {
    !OneOf(brand, NonCidBrands())
  }

  // -- numbers ---------------------------------------------------------------

  function Digit(value: nat): (c: char)
    requires value < 10
    ensures AsciiDigit(c) && c as int - '0' as int == value
  {
    ('0' as int + value) as char
  }

  /** A number without leading zeros; nothing for zero. */
  function Decimal(value: nat): string {
    if value == 0 then "" else Decimal(value / 10) + [Digit(value % 10)]
  }

  predicate Readable(text: string, digits: Digits) {
    forall i | 0 <= i < |text| :: digits(text[i]).Some?
  }

  /** `int(text)` for a run of digits. */
  function Value(text: string, digits: Digits): nat
    requires IsTable(digits) && Readable(text, digits)
  {
    if text == "" then 0 else 10 * Value(text[..|text| - 1], digits) + digits(text[|text| - 1]).value
  }

  /** `:03d`, and SQL's `lpad(..., 3, '0')` on what is shorter. */
  function Pad3(text: string): (padded: string)
    ensures |padded| >= 3
  {
    if |text| >= 3 then text else if |text| == 2 then "0" + text else if |text| == 1 then "00" + text else "000"
  }

  /** SQL's `ltrim(text, '0')`. */
  function TrimZeros(text: string): string {
    if text != "" && text[0] == '0' then TrimZeros(text[1..]) else text
  }

  predicate AllAscii(text: string) {
    forall i | 0 <= i < |text| :: AsciiDigit(text[i])
  }

  /** Trimming zeros is what reading a number and writing it again does. */
  lemma {:induction false} TrimIsDecimal(text: string, digits: Digits)
    requires IsTable(digits) && AllAscii(text)
    ensures TrimZeros(text) == Decimal(Value(text, digits))
    decreases |text|
  {
    if text != "" {
      var most, last := text[..|text| - 1], text[|text| - 1];
      TrimIsDecimal(most, digits);
      assert text == most + [last];
      TrimAppends(most, last);
      assert Value(text, digits) / 10 == Value(most, digits) && Value(text, digits) % 10 == last as int - '0' as int;
    }
  }

  lemma {:induction false} TrimAppends(text: string, last: char)
    requires AllAscii(text) && AsciiDigit(last)
    ensures TrimZeros(text + [last]) == if TrimZeros(text) == "" && last == '0' then "" else TrimZeros(text) + [last]
  {
    if text != "" && text[0] == '0' {
      assert (text + [last])[1..] == text[1..] + [last];
      TrimAppends(text[1..], last);
    } else if text == "" {
      assert text + [last] == [last] && [last][1..] == "";
    }
  }

  lemma {:induction false} DecimalIsAscii(value: nat)
    ensures AllAscii(Decimal(value)) && (value > 0 ==> Decimal(value)[0] != '0')
  {
    if value > 0 {
      DecimalIsAscii(value / 10);
    }
  }

  lemma {:induction false} ZerosInFront(zeros: string, text: string, digits: Digits)
    requires IsTable(digits) && (forall i | 0 <= i < |zeros| :: zeros[i] == '0') && Readable(text, digits)
    ensures Readable(zeros + text, digits)
    ensures Value(zeros + text, digits) == Value(text, digits)
    decreases |zeros| + |text|
  {
    if text != "" {
      assert (zeros + text)[..|zeros + text| - 1] == zeros + text[..|text| - 1];
      ZerosInFront(zeros, text[..|text| - 1], digits);
    } else if zeros != "" {
      assert zeros + text == zeros && zeros[..|zeros| - 1] + text == zeros[..|zeros| - 1];
      ZerosInFront(zeros[..|zeros| - 1], text, digits);
    }
  }

  lemma {:induction false} ValueOfDecimal(value: nat, digits: Digits)
    requires IsTable(digits)
    ensures Readable(Decimal(value), digits) && Value(Decimal(value), digits) == value
  {
    if value > 0 {
      ValueOfDecimal(value / 10, digits);
      var text := Decimal(value);
      assert text[..|text| - 1] == Decimal(value / 10);
    }
  }

  /** A padded number still has its value. */
  lemma ValueOfPadded(value: nat, digits: Digits)
    requires IsTable(digits)
    ensures Readable(Pad3(Decimal(value)), digits) && Value(Pad3(Decimal(value)), digits) == value
  {
    ValueOfDecimal(value, digits);
    var text := Decimal(value);
    var zeros := if |text| >= 3 then "" else if |text| == 2 then "0" else if |text| == 1 then "00" else "000";
    assert Pad3(text) == zeros + text;
    ZerosInFront(zeros, text, digits);
  }

  // -- the shape of an ID ----------------------------------------------------

  /** `[A-Z0-9]*[A-Z][A-Z0-9]*`. */
  predicate IsBrand(brand: string) {
    (forall c | c in brand :: AsciiUpper(c) || AsciiDigit(c)) && exists c | c in brand :: AsciiUpper(c)
  }

  function DashAt(avid: string): (at: nat)
    ensures at <= |avid| && forall i | 0 <= i < at :: avid[i] != '-'
    ensures at < |avid| ==> avid[at] == '-'
  {
    if avid == "" || avid[0] == '-' then 0 else 1 + DashAt(avid[1..])
  }

  function Brand(avid: string): string {
    avid[..DashAt(avid)]
  }

  /** What follows the first dash. */
  function Tail(avid: string): string {
    if DashAt(avid) < |avid| then avid[DashAt(avid) + 1..] else ""
  }

  /** Python's `$` also matches before a final newline. */
  function Chomp(text: string): string {
    if text != "" && text[|text| - 1] == '\n' then text[..|text| - 1] else text
  }

  predicate AllDigits(text: string, digits: Digits) {
    text != "" && Readable(text, digits)
  }

  /** `_NUMBER_FORM_RE` matches and the brand's numbers are catalog numbers. */
  predicate Numbered(avid: string, digits: Digits) {
    IsBrand(Brand(avid)) && Catalogued(Brand(avid)) && AllDigits(Chomp(Tail(avid)), digits)
  }

  function NormalizeNumber(avid: string, digits: Digits): string
    requires IsTable(digits)
  {
    if Numbered(avid, digits) then Brand(avid) + "-" + Pad3(Decimal(Value(Chomp(Tail(avid)), digits))) else avid
  }

  lemma {:induction false} Splits(brand: string, tail: string)
    requires '-' !in brand
    ensures Brand(brand + "-" + tail) == brand && Tail(brand + "-" + tail) == tail
  {
    var avid := brand + "-" + tail;
    assert avid[|brand|] == '-';
    assert forall i | 0 <= i < |brand| :: avid[i] == brand[i] && brand[i] in brand;
    assert DashAt(avid) == |brand|;
    assert avid[..|brand|] == brand && avid[|brand| + 1..] == tail;
  }

  lemma BrandHasNoDash(brand: string)
    requires IsBrand(brand)
    ensures '-' !in brand
  {
  }

  /** The canonical spelling of a brand and a number is itself an ID that reads back as both. */
  lemma CanonicalReads(brand: string, value: nat, digits: Digits)
    requires IsTable(digits) && IsBrand(brand) && Catalogued(brand)
    ensures var avid := brand + "-" + Pad3(Decimal(value));
      && Brand(avid) == brand && Tail(avid) == Pad3(Decimal(value)) == Chomp(Tail(avid))
      && Numbered(avid, digits) && Value(Chomp(Tail(avid)), digits) == value && NormalizeNumber(avid, digits) == avid
  {
    var tail := Pad3(Decimal(value));
    BrandHasNoDash(brand);
    Splits(brand, tail);
    ValueOfPadded(value, digits);
    assert Chomp(tail) == tail;
  }

  /** Normalizing twice is normalizing once. */
  lemma NormalizeIsIdempotent(avid: string, digits: Digits)
    requires IsTable(digits)
    ensures NormalizeNumber(NormalizeNumber(avid, digits), digits) == NormalizeNumber(avid, digits)
  {
    if Numbered(avid, digits) {
      CanonicalReads(Brand(avid), Value(Chomp(Tail(avid)), digits), digits);
    }
  }

  /** Two catalog IDs get one spelling exactly when they have one brand and one number, however padded. */
  lemma SameVideoSameSpelling(a: string, b: string, digits: Digits)
    requires IsTable(digits) && Numbered(a, digits) && Numbered(b, digits)
    ensures NormalizeNumber(a, digits) == NormalizeNumber(b, digits)
      <==> Brand(a) == Brand(b) && Value(Chomp(Tail(a)), digits) == Value(Chomp(Tail(b)), digits)
  {
    CanonicalReads(Brand(a), Value(Chomp(Tail(a)), digits), digits);
    CanonicalReads(Brand(b), Value(Chomp(Tail(b)), digits), digits);
  }

  // -- the migration ---------------------------------------------------------

  /** The migration's `WHERE`: its pattern, and the brands it leaves out. */
  predicate Candidate(avid: string) {
    IsBrand(Brand(avid)) && Catalogued(Brand(avid)) && Tail(avid) != "" && AllAscii(Tail(avid))
  }

  /** The migration's `normalized` column. */
  function Normalized(avid: string): string {
    Brand(avid) + "-" + Pad3(TrimZeros(Tail(avid)))
  }

  /** A key the parser would spell differently, but the migration does not see: a digit outside ASCII,
      or a newline at the end. */
  predicate Overlooked(avid: string, digits: Digits) {
    Numbered(avid, digits) && !AllAscii(Tail(avid))
  }

  /** The migration's string work agrees with the parser wherever it applies, and it applies to
      every key the parser would touch except the overlooked ones. */
  lemma MigrationAgrees(avid: string, digits: Digits)
    requires IsTable(digits)
    ensures Candidate(avid) <==> Numbered(avid, digits) && !Overlooked(avid, digits)
    ensures Candidate(avid) ==> Normalized(avid) == NormalizeNumber(avid, digits)
    ensures !Candidate(avid) ==> (NormalizeNumber(avid, digits) == avid <==> !Overlooked(avid, digits))
  {
    var tail := Tail(avid);
    if Candidate(avid) {
      assert Chomp(tail) == tail;
      TrimIsDecimal(tail, digits);
    }
    if Overlooked(avid, digits) {
      var value := Value(Chomp(tail), digits);
      CanonicalReads(Brand(avid), value, digits);
      PaddedIsAscii(value);
      assert Tail(NormalizeNumber(avid, digits)) == Pad3(Decimal(value));
    }
  }

  /** There are such keys for every catalogued brand: the number one written with a full-width digit. */
  lemma SomeAreOverlooked(brand: string, digits: Digits)
    requires IsTable(digits) && digits('\U{FF11}') == Some(1) && IsBrand(brand) && Catalogued(brand)
    ensures Overlooked(brand + "-" + "\U{FF11}", digits)
  {
    BrandHasNoDash(brand);
    Splits(brand, "\U{FF11}");
    assert Chomp("\U{FF11}") == "\U{FF11}";
    assert '\U{FF11}' in "\U{FF11}";
  }

  /** The keys the migration renames: the canonical key is free, and no other key would take it. */
  predicate Renamed(keys: set<string>, avid: string) {
    && avid in keys && Candidate(avid) && Normalized(avid) != avid && Normalized(avid) !in keys
    && forall other | other in keys && Candidate(other) && Normalized(other) == Normalized(avid) :: other == avid
  }

  function After(keys: set<string>, avid: string): string {
    if Renamed(keys, avid) then Normalized(avid) else avid
  }

  function Migrated(keys: set<string>): set<string> {
    set avid | avid in keys :: After(keys, avid)
  }

  /** No two keys become one, in whatever order the rows are updated: at no time do rows already
      renamed (`done`) and rows not yet renamed share a key. */
  lemma KeysStayDistinct(keys: set<string>, done: set<string>, a: string, b: string)
    requires a in keys && b in keys && a != b
    ensures (if a in done then After(keys, a) else a) != (if b in done then After(keys, b) else b)
  {
  }

  /** Another key would get `avid`'s canonical spelling too. */
  predicate Claimed(keys: set<string>, avid: string) {
    exists other | other in keys && other != avid :: Candidate(other) && Normalized(other) == Normalized(avid)
  }

  /** A renamed key gets the parser's spelling. A key the migration leaves although the parser spells
      it differently is overlooked, or its canonical key is taken, or another key claims it too. */
  lemma RenamedOrBlocked(keys: set<string>, avid: string, digits: Digits)
    requires IsTable(digits) && avid in keys
    ensures After(keys, avid) == NormalizeNumber(avid, digits) || After(keys, avid) == avid
    ensures After(keys, avid) == avid && NormalizeNumber(avid, digits) != avid <==>
      || Overlooked(avid, digits)
      || (Candidate(avid) && Normalized(avid) != avid && (Normalized(avid) in keys || Claimed(keys, avid)))
  {
    MigrationAgrees(avid, digits);
  }

  lemma PaddedIsAscii(value: nat)
    ensures AllAscii(Pad3(Decimal(value)))
  {
    DecimalIsAscii(value);
  }

  lemma CanonicalIsCandidate(brand: string, value: nat)
    requires IsBrand(brand) && Catalogued(brand)
    ensures Candidate(brand + "-" + Pad3(Decimal(value)))
  {
    BrandHasNoDash(brand);
    Splits(brand, Pad3(Decimal(value)));
    PaddedIsAscii(value);
  }

  /** What the migration writes is canonical. */
  lemma NormalizedIsCanonical(avid: string, digits: Digits)
    requires IsTable(digits) && Candidate(avid)
    ensures Candidate(Normalized(avid)) && Normalized(Normalized(avid)) == Normalized(avid)
  {
    MigrationAgrees(avid, digits);
    var value := Value(Chomp(Tail(avid)), digits);
    CanonicalIsCandidate(Brand(avid), value);
    CanonicalReads(Brand(avid), value, digits);
    MigrationAgrees(Normalized(avid), digits);
  }

  /** Running it again renames nothing more. */
  lemma MigratesOnce(keys: set<string>, avid: string, digits: Digits)
    requires IsTable(digits) && avid in Migrated(keys)
    ensures !Renamed(Migrated(keys), avid)
  {
    var was :| was in keys && After(keys, was) == avid;
    if Renamed(keys, was) {
      NormalizedIsCanonical(was, digits);
    } else if Candidate(avid) && Normalized(avid) != avid {
      StillBlocked(keys, avid, digits);
    }
  }

  lemma StillBlocked(keys: set<string>, avid: string, digits: Digits)
    requires IsTable(digits) && avid in keys && !Renamed(keys, avid) && Candidate(avid) && Normalized(avid) != avid
    ensures !Renamed(Migrated(keys), avid)
  {
    var target := Normalized(avid);
    if target in keys {
      NormalizedIsCanonical(avid, digits);
      assert After(keys, target) == target;
      assert target in Migrated(keys);
    } else {
      var other :| other in keys && Candidate(other) && Normalized(other) == target && other != avid;
      assert After(keys, other) == other;
      assert other in Migrated(keys);
    }
  }
}
