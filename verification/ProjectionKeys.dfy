/** Cache keys for projections: the unpadded base64url escaping of RFC 4648
    (section 5, with the padding left out as section 3.2 allows) and the
    colon-joined key built from it. A Go string is its sequence of bytes; the
    key itself is ASCII and is written as a Dafny string. */
module ProjectionKeys {
  import opened Basics

  type Sextet = x: int | 0 <= x < 64
  type Int32 = x: int | -0x8000_0000 <= x < 0x8000_0000

  // ---- base64url ----

  function SextetChar(v: Sextet): (c: char)
    ensures c != ':' && CharSextet(c) == Some(v)
  {
    if v < 26 then ('A' as int + v) as char
    else if v < 52 then ('a' as int + v - 26) as char
    else if v < 62 then ('0' as int + v - 52) as char
    else if v == 62 then '-'
    else '_'
  }

  function CharSextet(c: char): Option<Sextet> {
    if 'A' <= c <= 'Z' then Some(c as int - 'A' as int)
    else if 'a' <= c <= 'z' then Some(c as int - 'a' as int + 26)
    else if '0' <= c <= '9' then Some(c as int - '0' as int + 52)
    else if c == '-' then Some(62)
    else if c == '_' then Some(63)
    else None
  }

  function Chars(vs: seq<Sextet>): (s: string)
    ensures |s| == |vs| && forall i :: 0 <= i < |s| ==> s[i] != ':' && CharSextet(s[i]) == Some(vs[i])
  {
    seq(|vs|, i requires 0 <= i < |vs| => SextetChar(vs[i]))
  }

  const UPPER := "ABCDEFGHIJKLMNOPQRSTUVWXYZ"
  const LOWER := "abcdefghijklmnopqrstuvwxyz"
  const DIGITS := "0123456789"

  lemma LiteralLetters(i: nat)
    requires i < 26
    ensures UPPER[i] as int == 'A' as int + i
    ensures LOWER[i] as int == 'a' as int + i
  {
  }

  lemma LiteralDigits(i: nat)
    requires i < 10
    ensures DIGITS[i] as int == '0' as int + i
  {
  }

  /** Table 2 of RFC 4648: the capital letters, the small ones, the digits, "-" and "_". */
  lemma AlphabetOfCharacters(v: Sextet)
    ensures v < 26 ==> SextetChar(v) == UPPER[v]
    ensures 26 <= v < 52 ==> SextetChar(v) == LOWER[v - 26]
    ensures 52 <= v < 62 ==> SextetChar(v) == DIGITS[v - 52]
    ensures v == 62 ==> SextetChar(v) == '-'
    ensures v == 63 ==> SextetChar(v) == '_'
  {
    LiteralLetters(if v < 26 then v else if v < 52 then v - 26 else 0);
    LiteralDigits(if 52 <= v < 62 then v - 52 else 0);
  }

  function Sextets(x: Byte, y: Byte, z: Byte): (vs: seq<Sextet>)
    ensures |vs| == 4
  {
    [x / 4, x % 4 * 16 + y / 16, y % 16 * 4 + z / 64, z % 64]
  }

  /** Three bytes become four characters; a tail of one or two bytes becomes two or three. */
  function Encode(b: seq<Byte>): string {
    if |b| == 0 then ""
    else if |b| == 1 then Chars(Sextets(b[0], 0, 0)[..2])
    else if |b| == 2 then Chars(Sextets(b[0], b[1], 0)[..3])
    else Chars(Sextets(b[0], b[1], b[2])) + Encode(b[3..])
  }

  function Decode(s: string): Option<seq<Byte>> {
    if |s| == 0 then Some([])
    else if |s| == 1 then None
    else
      var v0, v1 := CharSextet(s[0]), CharSextet(s[1]);
      if v0.None? || v1.None? then None
      else if |s| == 2 then Some([v0.value * 4 + v1.value / 16])
      else
        var v2 := CharSextet(s[2]);
        if v2.None? then None
        else if |s| == 3 then
          Some([v0.value * 4 + v1.value / 16, v1.value % 16 * 16 + v2.value / 4])
        else
          var v3, rest := CharSextet(s[3]), Decode(s[4..]);
          if v3.None? || rest.None? then None
          else Some([v0.value * 4 + v1.value / 16, v1.value % 16 * 16 + v2.value / 4,
                     v2.value % 4 * 64 + v3.value] + rest.value)
  }

  function Group(vs: seq<Sextet>): seq<Byte>
    requires |vs| == 4
  {
    var v0: int, v1: int, v2: int, v3: int := vs[0], vs[1], vs[2], vs[3];
    [v0 * 4 + v1 / 16, v1 % 16 * 16 + v2 / 4, v2 % 4 * 64 + v3]
  }

  lemma DecodeQuad(vs: seq<Sextet>, rest: string)
    requires |vs| == 4 && Decode(rest).Some?
    ensures Decode(Chars(vs) + rest) == Some(Group(vs) + Decode(rest).value)
  {
    var s := Chars(vs) + rest;
    assert s[4..] == rest;
    assert forall i :: 0 <= i < 4 ==> s[i] == Chars(vs)[i];
  }

  lemma Regrouped(x: Byte, y: Byte, z: Byte)
    ensures Group(Sextets(x, y, z)) == [x, y, z]
  {
  }

  /** The 24 bits stay in order, most significant first. */
  lemma SameNumber(x: Byte, y: Byte, z: Byte)
    ensures var vs := Sextets(x, y, z);
            (((vs[0] as int * 64 + vs[1] as int) * 64 + vs[2] as int) * 64 + vs[3] as int) == (x as int * 256 + y as int) * 256 + z as int
  {
  }

  lemma DecodeTail(x: Byte, y: Byte)
    ensures Decode(Chars(Sextets(x, 0, 0)[..2])) == Some([x])
    ensures Decode(Chars(Sextets(x, y, 0)[..3])) == Some([x, y])
  {
    var one, two := Sextets(x, 0, 0), Sextets(x, y, 0);
    assert Decode(Chars(one[..2])) == Some([Group(one)[0]]);
    assert Decode(Chars(two[..3])) == Some([Group(two)[0], Group(two)[1]]);
    Regrouped(x, 0, 0);
    Regrouped(x, y, 0);
  }

  /** Decoding undoes encoding for every byte string. */
  lemma {:induction false} DecodeEncode(b: seq<Byte>)
    ensures Decode(Encode(b)) == Some(b)
  {
    if |b| >= 3 {
      DecodeEncode(b[3..]);
      DecodeQuad(Sextets(b[0], b[1], b[2]), Encode(b[3..]));
      Regrouped(b[0], b[1], b[2]);
      assert b == [b[0], b[1], b[2]] + b[3..];
    } else if |b| > 0 {
      DecodeTail(b[0], if |b| == 2 then b[1] else 0);
      assert b == if |b| == 2 then [b[0], b[1]] else [b[0]];
    }
  }

  /** The length is never 1 modulo 4, so no encoding is a lone character; and no encoding holds a colon. */
  lemma {:induction false} EncodeShape(b: seq<Byte>)
    ensures |Encode(b)| == (4 * |b| + 2) / 3 && |Encode(b)| % 4 != 1
    ensures |b| > 0 ==> |Encode(b)| >= 2
    ensures ':' !in Encode(b)
  {
    if |b| >= 3 {
      EncodeShape(b[3..]);
    }
  }

  // ---- parts ----

  function EscapePart(value: seq<Byte>): string {
    if value == [] then "-" else Encode(value)
  }

  function UnescapePart(s: string): Option<seq<Byte>> {
    if s == "-" then Some([]) else if s == "" then None else Decode(s)
  }

  /** "-" is a base64url character, but never a whole encoding, so it can stand for the empty part. */
  lemma UnescapeEscape(value: seq<Byte>)
    ensures value == [] ==> EscapePart(value) == "-"
    ensures UnescapePart(EscapePart(value)) == Some(value)
    ensures ':' !in EscapePart(value)
  {
    EncodeShape(value);
    DecodeEncode(value);
  }

  function EscapeAll(parts: seq<seq<Byte>>): (r: seq<string>)
    ensures |r| == |parts|
  {
    seq(|parts|, i requires 0 <= i < |parts| => EscapePart(parts[i]))
  }

  function UnescapeAll(parts: seq<string>): Option<seq<seq<Byte>>> {
    if parts == [] then Some([])
    else
      var head, rest := UnescapePart(parts[0]), UnescapeAll(parts[1..]);
      if head.None? || rest.None? then None else Some([head.value] + rest.value)
  }

  lemma {:induction false} UnescapeEscapeAll(parts: seq<seq<Byte>>)
    ensures UnescapeAll(EscapeAll(parts)) == Some(parts)
  {
    if parts != [] {
      UnescapeEscape(parts[0]);
      UnescapeEscapeAll(parts[1..]);
      assert EscapeAll(parts)[1..] == EscapeAll(parts[1..]);
      assert parts == [parts[0]] + parts[1..];
    }
  }

  // ---- decimal numbers ----

  function FormatNat(n: nat): string {
    if n < 10 then [('0' as int + n) as char]
    else FormatNat(n / 10) + [('0' as int + n % 10) as char]
  }

  function FormatInt(n: int): string {
    if n < 0 then "-" + FormatNat(-n) else FormatNat(n)
  }

  function ParseNat(s: string): Option<nat> {
    if s == "" then None
    else
      var last := s[|s| - 1];
      if !('0' <= last <= '9') then None
      else if |s| == 1 then Some(last as int - '0' as int)
      else
        var front := ParseNat(s[..|s| - 1]);
        if front.None? then None else Some(front.value * 10 + (last as int - '0' as int))
  }

  function ParseInt(s: string): Option<int> {
    if s != "" && s[0] == '-' then
      var n := ParseNat(s[1..]);
      if n.None? then None else Some(-(n.value as int))
    else
      var n := ParseNat(s);
      if n.None? then None else Some(n.value)
  }

  lemma {:induction false} ParseFormatNat(n: nat)
    ensures ParseNat(FormatNat(n)) == Some(n)
    ensures |FormatNat(n)| > 0 && FormatNat(n)[0] != '-' && ':' !in FormatNat(n)
  {
    if n >= 10 {
      ParseFormatNat(n / 10);
      var s := FormatNat(n);
      assert s[..|s| - 1] == FormatNat(n / 10);
    }
  }

  lemma ParseMinus(digits: string)
    requires ParseNat(digits).Some?
    ensures ParseInt("-" + digits) == Some(-(ParseNat(digits).value as int))
  {
    assert ("-" + digits)[1..] == digits;
  }

  lemma ParseFormatInt(n: int)
    ensures ParseInt(FormatInt(n)) == Some(n)
    ensures ':' !in FormatInt(n)
  {
    ParseFormatNat(if n < 0 then -n else n);
    if n < 0 {
      ParseMinus(FormatNat(-n));
    }
  }

  // ---- joining with ':' ----

  function Join(parts: seq<string>): string {
    if |parts| == 0 then ""
    else if |parts| == 1 then parts[0]
    else parts[0] + ":" + Join(parts[1..])
  }

  function Split(s: string): (parts: seq<string>)
    ensures |parts| >= 1
  {
    if s == "" then [""]
    else
      var rest := Split(s[1..]);
      if s[0] == ':' then [""] + rest else [[s[0]] + rest[0]] + rest[1..]
  }

  lemma {:induction false} SplitPart(p: string, rest: string)
    requires ':' !in p
    ensures Split(p) == [p]
    ensures Split(p + ":" + rest) == [p] + Split(rest)
  {
    if p == "" {
      assert (p + ":" + rest)[1..] == rest;
    } else {
      SplitPart(p[1..], rest);
      assert (p + ":" + rest)[1..] == p[1..] + ":" + rest;
      assert [p[0]] + p[1..] == p;
    }
  }

  lemma {:induction false} SplitJoin(parts: seq<string>)
    requires |parts| > 0
    requires forall i :: 0 <= i < |parts| ==> ':' !in parts[i]
    ensures Split(Join(parts)) == parts
  {
    SplitPart(parts[0], Join(parts[1..]));
    if |parts| > 1 {
      SplitJoin(parts[1..]);
    }
  }

  // ---- the key ----

  datatype Fields = Fields(serverID: seq<Byte>, protocolVersion: Int32, cacheVersion: seq<Byte>, parts: seq<seq<Byte>>)

  const V1: seq<Byte> := [0x76, 0x31]

  function EffectiveVersion(cacheVersion: seq<Byte>): seq<Byte> {
    if cacheVersion == [] then V1 else cacheVersion
  }

  /** The fields a key is meant to record: an empty cache version stands for "v1". */
  function Effective(f: Fields): Fields {
    f.(cacheVersion := EffectiveVersion(f.cacheVersion))
  }

  function KeyParts(f: Fields): seq<string> {
    ["nekode", "projection", EscapePart(f.serverID), "p" + FormatInt(f.protocolVersion),
     EscapePart(EffectiveVersion(f.cacheVersion))] + EscapeAll(f.parts)
  }

  function Key(f: Fields): string { Join(KeyParts(f)) }

  /** A reader of keys, written without reference to how keys are built. */
  function ParseKey(key: string): Option<Fields> {
    var parts := Split(key);
    if |parts| < 5 || parts[0] != "nekode" || parts[1] != "projection" then None
    else if parts[3] == "" || parts[3][0] != 'p' then None
    else
      var server, number := UnescapePart(parts[2]), ParseInt(parts[3][1..]);
      var version, rest := UnescapePart(parts[4]), UnescapeAll(parts[5..]);
      if server.None? || number.None? || version.None? || rest.None? then None
      else if !(-0x8000_0000 <= number.value < 0x8000_0000) then None
      else Some(Fields(server.value, number.value, version.value, rest.value))
  }

  method ProjectionKey(serverID: seq<Byte>, protocolVersion: Int32, cacheVersion: seq<Byte>, parts: seq<seq<Byte>>)
    returns (key: string)
    ensures key == Key(Fields(serverID, protocolVersion, cacheVersion, parts))
    ensures ParseKey(key) == Some(Effective(Fields(serverID, protocolVersion, cacheVersion, parts)))
  {
    var version := cacheVersion;
    if version == [] {
      version := V1;
    }
    var keyParts := ["nekode", "projection", EscapePart(serverID), "p" + FormatInt(protocolVersion), EscapePart(version)];
    var head := keyParts;
    for i := 0 to |parts|
      invariant keyParts == head + EscapeAll(parts[..i])
    {
      keyParts := keyParts + [EscapePart(parts[i])];
      assert EscapeAll(parts[..i + 1]) == EscapeAll(parts[..i]) + [EscapePart(parts[i])];
    }
    assert parts[..|parts|] == parts;
    key := Join(keyParts);
    ParseKeyOfKey(Fields(serverID, protocolVersion, cacheVersion, parts));
  }

  lemma PartsHaveNoColon(f: Fields)
    ensures forall i :: 0 <= i < |KeyParts(f)| ==> ':' !in KeyParts(f)[i]
  {
    UnescapeEscape(f.serverID);
    UnescapeEscape(EffectiveVersion(f.cacheVersion));
    ParseFormatInt(f.protocolVersion);
    forall i | 0 <= i < |f.parts| ensures ':' !in EscapeAll(f.parts)[i] {
      UnescapeEscape(f.parts[i]);
    }
  }

  lemma SplitKey(f: Fields)
    ensures Split(Key(f)) == KeyParts(f)
  {
    PartsHaveNoColon(f);
    SplitJoin(KeyParts(f));
  }

  /** Every key can be read back: nothing but the spelling of an empty cache version is lost. */
  lemma ParseKeyOfKey(f: Fields)
    ensures ParseKey(Key(f)) == Some(Effective(f))
  {
    var parts := KeyParts(f);
    SplitKey(f);
    UnescapeEscape(f.serverID);
    UnescapeEscape(EffectiveVersion(f.cacheVersion));
    ParseFormatInt(f.protocolVersion);
    UnescapeEscapeAll(f.parts);
    assert parts[3][1..] == FormatInt(f.protocolVersion);
    assert parts[5..] == EscapeAll(f.parts);
  }

  /** Keys are equal exactly when the server, the protocol version, the list
      of parts and the cache version (up to "" meaning "v1") are. */
  lemma KeyInjective(f: Fields, g: Fields)
    ensures Key(f) == Key(g) <==>
            f.serverID == g.serverID && f.protocolVersion == g.protocolVersion && f.parts == g.parts &&
            (f.cacheVersion == g.cacheVersion || {f.cacheVersion, g.cacheVersion} == {[], [0x76, 0x31]})
  {
    ParseKeyOfKey(f);
    ParseKeyOfKey(g);
  }

  /** How a key looks: the words "nekode" and "projection", the server, "p" and the
      protocol version in decimals, the cache version, then the parts, joined by colons. */
  lemma KeyLooks(f: Fields)
    ensures var version := EscapePart(if f.cacheVersion == [] then [0x76, 0x31] else f.cacheVersion);
            var tail := if f.parts == [] then version else version + ":" + Join(EscapeAll(f.parts));
            Key(f) == "nekode" + ":" + ("projection" + ":" + (EscapePart(f.serverID) + ":" + ("p" + FormatInt(f.protocolVersion) + ":" + tail)))
  {
    var server, number := EscapePart(f.serverID), "p" + FormatInt(f.protocolVersion);
    var version, rest := EscapePart(EffectiveVersion(f.cacheVersion)), EscapeAll(f.parts);
    var last := [version] + rest;
    assert KeyParts(f) == ["nekode"] + (["projection"] + ([server] + ([number] + last)));
    JoinCons("nekode", ["projection"] + ([server] + ([number] + last)));
    JoinCons("projection", [server] + ([number] + last));
    JoinCons(server, [number] + last);
    JoinCons(number, last);
    if rest != [] {
      JoinCons(version, rest);
    } else {
      assert last == [version];
    }
  }

  lemma JoinCons(head: string, rest: seq<string>)
    requires rest != []
    ensures Join([head] + rest) == head + ":" + Join(rest)
  {
    assert ([head] + rest)[1..] == rest;
  }

  /** Decimal digits, most significant first, and a sign only below zero. */
  lemma {:induction false} Decimals(n: nat)
    ensures n < 10 ==> FormatNat(n) == ["0123456789"[n]]
    ensures n >= 10 ==> FormatNat(n) == FormatNat(n / 10) + ["0123456789"[n % 10]]
    ensures FormatInt(n) == FormatNat(n) && (n > 0 ==> FormatInt(-(n as int)) == "-" + FormatNat(n))
  {
  }
}
