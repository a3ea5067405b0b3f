/** The `application/x-www-form-urlencoded` serializer behind
    `URLSearchParams.toString()` (URL Standard, section 5.2), and the matching
    parser a server applies to the query string. */
module FormUrlEncoding {
  import opened Strings

  /** The characters the serializer leaves as they are. */
  predicate Unreserved(c: char) {
    ('a' <= c <= 'z') || ('A' <= c <= 'Z') || ('0' <= c <= '9') || c == '*' || c == '-' || c == '.' || c == '_'
  }

  /** An upper-case hex digit. */
  function HexDigit(d: nat): (c: char)
    requires d < 16
    ensures IsHex(c)
  {
    if d < 10 then ('0' as int + d) as char else ('A' as int + d - 10) as char
  }

  predicate IsHex(c: char) {
    ('0' <= c <= '9') || ('A' <= c <= 'F') || ('a' <= c <= 'f')
  }

  function HexValue(c: char): (v: nat)
    ensures v < 16
  {
    if '0' <= c <= '9' then c as int - '0' as int
    else if 'A' <= c <= 'F' then c as int - 'A' as int + 10
    else if 'a' <= c <= 'f' then c as int - 'a' as int + 10
    else 0
  }

  /** `%XY` with upper-case hex digits. */
  function PercentByte(b: nat): (r: string)
    requires b < 256
    ensures |r| == 3 && r[0] == '%' && IsHex(r[1]) && IsHex(r[2])
    ensures 16 * HexValue(r[1]) + HexValue(r[2]) == b
  {
    ['%', HexDigit(b / 16), HexDigit(b % 16)]
  }

  /** The UTF-8 encoding of one scalar value. */
  function Utf8Bytes(c: char): (r: seq<nat>)
    ensures 1 <= |r| <= 4
    ensures forall i :: 0 <= i < |r| ==> r[i] < 256
    ensures c as int < 0x80 ==> r == [c as int]
    ensures c as int >= 0x80 ==> forall i :: 0 <= i < |r| ==> r[i] >= 0x80
  {
    var cp := c as int;
    if cp < 0x80 then [cp]
    else if cp < 0x800 then [0xC0 + cp / 0x40, 0x80 + cp % 0x40]
    else if cp < 0x1_0000 then [0xE0 + cp / 0x1000, 0x80 + (cp / 0x40) % 0x40, 0x80 + cp % 0x40]
    else [0xF0 + cp / 0x4_0000, 0x80 + (cp / 0x1000) % 0x40, 0x80 + (cp / 0x40) % 0x40, 0x80 + cp % 0x40]
  }

  function PercentBytes(bytes: seq<nat>): (r: string)
    requires forall i :: 0 <= i < |bytes| ==> bytes[i] < 256
    ensures '&' !in r && '=' !in r
  {
    if bytes == [] then [] else PercentByte(bytes[0]) + PercentBytes(bytes[1..])
  }

  function EncodeChar(c: char): (r: string)
    ensures '&' !in r && '=' !in r
    ensures Unreserved(c) ==> r == [c]
  {
    if Unreserved(c) then [c]
    else if c == ' ' then "+"
    else PercentBytes(Utf8Bytes(c))
  }

  /** One name or value, serialized. The two separators never appear in it. */
  function Encode(s: string): (r: string)
    ensures '&' !in r && '=' !in r
    ensures (forall i :: 0 <= i < |s| ==> Unreserved(s[i])) ==> r == s
  {
    if s == [] then [] else EncodeChar(s[0]) + Encode(s[1..])
  }

  /** The parser's percent-decoding, byte by byte: `+` is a space and `%XY` the
      byte XY. Bytes are read as characters, which is exact for ASCII. */
  function Decode(s: string): (r: string)
  {
    if s == [] then []
    else if s[0] == '+' then " " + Decode(s[1..])
    else if s[0] == '%' && |s| >= 3 && IsHex(s[1]) && IsHex(s[2]) then
      [(16 * HexValue(s[1]) + HexValue(s[2])) as char] + Decode(s[3..])
    else [s[0]] + Decode(s[1..])
  }

  predicate Ascii(s: string) {
    forall i :: 0 <= i < |s| ==> s[i] as int < 0x80
  }

  /** Decoding undoes one encoded character. */
  lemma DecodeEncodeChar(c: char, rest: string)
    requires c as int < 0x80
    ensures Decode(EncodeChar(c) + rest) == [c] + Decode(rest)
  {
    if !Unreserved(c) && c != ' ' {
      var e := PercentByte(c as int);
      assert Utf8Bytes(c) == [c as int];
      assert PercentBytes([c as int]) == e + PercentBytes([]);
      assert EncodeChar(c) == e;
      assert (e + rest)[3..] == rest;
    }
  }

  /** For ASCII text the parser gets back exactly what was serialized. */
  lemma {:induction false} DecodeEncode(s: string)
    requires Ascii(s)
    ensures Decode(Encode(s)) == s
  {
    if s != [] {
      DecodeEncodeChar(s[0], Encode(s[1..]));
      DecodeEncode(s[1..]);
    }
  }

  /** The pieces of `s` between separators. */
  function Split(s: string, sep: char): (r: seq<string>)
    ensures |r| >= 1
  {
    if s == [] then [[]]
    else
      var rest := Split(s[1..], sep);
      if s[0] == sep then [[]] + rest else [[s[0]] + rest[0]] + rest[1..]
  }

  function Join(parts: seq<string>, sep: char): string {
    if parts == [] then []
    else if |parts| == 1 then parts[0]
    else parts[0] + [sep] + Join(parts[1..], sep)
  }

  lemma {:induction false} SplitPlain(a: string, sep: char)
    requires sep !in a
    ensures Split(a, sep) == [a]
  {
    if a != [] {
      SplitPlain(a[1..], sep);
      assert a == [a[0]] + a[1..];
    }
  }

  lemma {:induction false} SplitFirst(a: string, sep: char, b: string)
    requires sep !in a
    ensures Split(a + [sep] + b, sep) == [a] + Split(b, sep)
  {
    if a != [] {
      assert (a + [sep] + b)[1..] == a[1..] + [sep] + b;
      SplitFirst(a[1..], sep, b);
      assert a == [a[0]] + a[1..];
    } else {
      assert (a + [sep] + b)[1..] == b;
    }
  }

  /** Splitting undoes joining pieces that hold no separator. */
  lemma {:induction false} SplitJoin(parts: seq<string>, sep: char)
    requires |parts| >= 1
    requires forall i :: 0 <= i < |parts| ==> sep !in parts[i]
    ensures Split(Join(parts, sep), sep) == parts
  {
    if |parts| == 1 {
      SplitPlain(parts[0], sep);
    } else {
      SplitFirst(parts[0], sep, Join(parts[1..], sep));
      SplitJoin(parts[1..], sep);
      assert parts == [parts[0]] + parts[1..];
    }
  }

  /** What follows the first `c`, or nothing. */
  function AfterFirst(s: string, c: char): string {
    if s == [] then [] else if s[0] == c then s[1..] else AfterFirst(s[1..], c)
  }

  lemma {:induction false} AfterFirstSplits(a: string, c: char, b: string)
    requires c !in a
    ensures AfterFirst(a + [c] + b, c) == b
  {
    if a != [] {
      assert (a + [c] + b)[1..] == a[1..] + [c] + b;
      AfterFirstSplits(a[1..], c, b);
    } else {
      assert (a + [c] + b)[1..] == b;
    }
  }

  function EncodePair(p: (string, string)): (r: string)
    ensures '&' !in r
  {
    Encode(p.0) + "=" + Encode(p.1)
  }

  function EncodePairs(ps: seq<(string, string)>): (r: seq<string>)
    ensures |r| == |ps|
    ensures forall i :: 0 <= i < |r| ==> r[i] == EncodePair(ps[i])
  {
    if ps == [] then [] else [EncodePair(ps[0])] + EncodePairs(ps[1..])
  }

  /** `URLSearchParams.toString()`: `name=value` pairs joined by `&`. */
  function Serialize(ps: seq<(string, string)>): string {
    Join(EncodePairs(ps), '&')
  }

  function DecodePair(piece: string): (string, string) {
    (Decode(BeforeFirst(piece, '=')), Decode(AfterFirst(piece, '=')))
  }

  function DecodePieces(pieces: seq<string>): seq<(string, string)> {
    if pieces == [] then []
    else (if pieces[0] == [] then [] else [DecodePair(pieces[0])]) + DecodePieces(pieces[1..])
  }

  /** The parser: split on `&`, skip empty pieces, split each at its first `=`. */
  function Parse(query: string): seq<(string, string)> {
    DecodePieces(Split(query, '&'))
  }

  /** Decoding the encoded pieces gives back the pairs. */
  lemma {:induction false} DecodeEncodedPieces(ps: seq<(string, string)>)
    requires forall i :: 0 <= i < |ps| ==> Ascii(ps[i].0) && Ascii(ps[i].1)
    ensures DecodePieces(EncodePairs(ps)) == ps
  {
    if ps != [] {
      var p := ps[0];
      BeforeFirstSplits(Encode(p.0), '=', Encode(p.1));
      AfterFirstSplits(Encode(p.0), '=', Encode(p.1));
      DecodeEncode(p.0);
      DecodeEncode(p.1);
      assert EncodePair(p) == Encode(p.0) + ['='] + Encode(p.1);
      assert EncodePairs(ps)[1..] == EncodePairs(ps[1..]);
      DecodeEncodedPieces(ps[1..]);
      assert ps == [p] + ps[1..];
    }
  }

  /** A query string built from ASCII names and values parses back to the same
      pairs, in the same order. */
  lemma ParseSerialize(ps: seq<(string, string)>)
    requires forall i :: 0 <= i < |ps| ==> Ascii(ps[i].0) && Ascii(ps[i].1)
    ensures Parse(Serialize(ps)) == ps
  {
    if ps == [] {
      assert Serialize(ps) == [];
    } else {
      SplitJoin(EncodePairs(ps), '&');
      DecodeEncodedPieces(ps);
    }
  }
}
