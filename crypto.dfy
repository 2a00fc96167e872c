/** src/lib/crypto.ts: the lowercase hex encoding of a SHA-256 digest (`hashText`, inlined
    in both request handlers) and the template fallback of `generateId`.
    The digest itself and the random sources are inputs: SHA-256 (FIPS 180-4),
    `crypto.randomUUID` and `Math.random` are not part of this model. */
module Crypto {
  import opened Wrappers

  type Byte = b: int | 0 <= b < 256
  type Nibble = n: int | 0 <= n < 16

  predicate IsLowerHex(c: char) {
    ('0' <= c <= '9') || ('a' <= c <= 'f')
  }

  /** The lowercase digit of one nibble, `0`-`9` then `a`-`f`. */
  function HexDigit(n: Nibble): (c: char)
    ensures IsLowerHex(c)
  {
    if n < 10 then ('0' as int + n) as char else ('a' as int + n - 10) as char
  }

  /** `n.toString(16)`: the shortest lowercase base-16 numeral. */
  function ToBase16(n: nat): (r: string)
    ensures r != []
    ensures forall i | 0 <= i < |r| :: IsLowerHex(r[i])
    ensures n < 16 ==> r == [HexDigit(n)]
  {
    if n < 16 then [HexDigit(n)] else ToBase16(n / 16) + [HexDigit(n % 16)]
  }

  /** `s.padStart(width, fill)` with a one-character fill. */
  function PadStart(s: string, width: nat, fill: char): (r: string)
    ensures |r| == if |s| < width then width else |s|
    ensures r[|r| - |s|..] == s
    ensures forall i | 0 <= i < |r| - |s| :: r[i] == fill
  {
    if |s| < width then seq(width - |s|, _ => fill) + s else s
  }

  /** `b.toString(16).padStart(2, '0')` for one digest byte. */
  function ByteHex(b: Byte): string {
    PadStart(ToBase16(b), 2, '0')
  }

  /** Every byte becomes exactly two characters: its high and its low nibble. */
  lemma ByteHexNibbles(b: Byte)
    ensures ByteHex(b) == [HexDigit(b / 16), HexDigit(b % 16)]
  {
    if b >= 16 {
      assert ToBase16(b / 16) == [HexDigit(b / 16)];
    }
  }

  /** `hashArray.map(b => b.toString(16).padStart(2, '0')).join('')`. */
  function HexEncode(bytes: seq<Byte>): (r: string)
    ensures |r| == 2 * |bytes|
    ensures forall i | 0 <= i < |r| :: IsLowerHex(r[i])
  {
    if bytes == [] then []
    else
      ByteHexNibbles(bytes[0]);
      ByteHex(bytes[0]) + HexEncode(bytes[1..])
  }

  /** The value of one lowercase hex digit. */
  function HexValue(c: char): (v: Nibble)
    requires IsLowerHex(c)
    ensures HexDigit(v) == c
  {
    if c <= '9' then (c as int - '0' as int) else (c as int - 'a' as int) + 10
  }

  lemma HexValueOfDigit(n: Nibble)
    ensures HexValue(HexDigit(n)) == n
  {
  }

  /** The byte two hex digits denote, high nibble first. */
  function PairValue(hi: char, lo: char): Byte
    requires IsLowerHex(hi) && IsLowerHex(lo)
  {
    HexValue(hi) * 16 + HexValue(lo)
  }

  /** A byte's high and low nibble digits denote the byte. */
  lemma PairValueOfByte(b: Byte)
    ensures PairValue(HexDigit(b / 16), HexDigit(b % 16)) == b
  {
    HexValueOfDigit(b / 16);
    HexValueOfDigit(b % 16);
  }

  /** Reads a lowercase hex string back into bytes, two digits per byte (a trailing odd
      digit is ignored). */
  function HexDecode(s: string): (r: seq<Byte>)
    requires forall i | 0 <= i < |s| :: IsLowerHex(s[i])
    ensures |s| == 2 * |r| || |s| == 2 * |r| + 1
  {
    if |s| < 2 then [] else [PairValue(s[0], s[1])] + HexDecode(s[2..])
  }

  /** Decoding a byte's high and low nibble digits gives the byte back. */
  lemma HexDecodeNibbles(b: Byte, rest: string)
    requires forall i | 0 <= i < |rest| :: IsLowerHex(rest[i])
    ensures HexDecode([HexDigit(b / 16), HexDigit(b % 16)] + rest) == [b] + HexDecode(rest)
  {
    var s := [HexDigit(b / 16), HexDigit(b % 16)] + rest;
    assert s[0] == HexDigit(b / 16) && s[1] == HexDigit(b % 16) && s[2..] == rest;
    PairValueOfByte(b);
  }

  /** Decoding the two digits of one encoded byte gives that byte back. */
  lemma HexDecodePair(b: Byte, rest: string)
    requires forall i | 0 <= i < |rest| :: IsLowerHex(rest[i])
    ensures HexDecode(ByteHex(b) + rest) == [b] + HexDecode(rest)
  {
    ByteHexNibbles(b);
    HexDecodeNibbles(b, rest);
  }

  /** A non-empty digest is its first byte followed by the rest. */
  lemma HeadTail(bytes: seq<Byte>)
    requires bytes != []
    ensures bytes == [bytes[0]] + bytes[1..]
  {
  }

  /** Decoding inverts the encoding. */
  lemma {:induction false} HexRoundTrip(bytes: seq<Byte>)
    ensures HexDecode(HexEncode(bytes)) == bytes
  {
    if bytes != [] {
      var rest := HexEncode(bytes[1..]);
      assert HexEncode(bytes) == ByteHex(bytes[0]) + rest;
      HexDecodePair(bytes[0], rest);
      HexRoundTrip(bytes[1..]);
      HeadTail(bytes);
    }
  }

  /** Distinct digests give distinct hex strings, so comparing hex strings compares digests. */
  lemma HexInjective(a: seq<Byte>, b: seq<Byte>)
    requires HexEncode(a) == HexEncode(b)
    ensures a == b
  {
    HexRoundTrip(a);
    HexRoundTrip(b);
  }

  /** `hashText`: the SHA-256 digest of the text's UTF-8 bytes (the input `sha256`) written as
      lowercase hex, two digits per byte. Both handlers build their lookup keys the same way. */
  function HashText(sha256: string -> seq<Byte>, text: string): (h: string)
    ensures |h| == 2 * |sha256(text)|
    ensures forall i | 0 <= i < |h| :: IsLowerHex(h[i])
  {
    HexEncode(sha256(text))
  }

  /** The hex string carries the whole digest: decoding it gives the digest back. */
  lemma HashTextDecodes(sha256: string -> seq<Byte>, text: string)
    ensures HexDecode(HashText(sha256, text)) == sha256(text)
  {
    HexRoundTrip(sha256(text));
  }

  /** The `generateId` fallback template. */
  const UuidTemplate: string := "xxxxxxxx-xxxx-4xxx-yxxx-xxxxxxxxxxxx"

  predicate IsPlaceholder(c: char) {
    c == 'x' || c == 'y'
  }

  /** How many characters of `t` the `/[xy]/g` replacement visits. */
  function Placeholders(t: string): nat {
    if t == [] then 0 else (if IsPlaceholder(t[0]) then 1 else 0) + Placeholders(t[1..])
  }

  /** The template holds 30 `x` and one `y`: `generateId` draws 31 random nibbles. */
  const UuidPlaceholders: nat := 31

  lemma UuidPlaceholderCount()
    ensures Placeholders(UuidTemplate) == UuidPlaceholders
  {
    TemplateLayout();
    PlaceholdersOfLayout(UuidTemplate);
  }

  /** Positions of the template's five fixed characters: four dashes and the version `4`. */
  predicate IsFixed(i: int) {
    i == 8 || i == 13 || i == 14 || i == 18 || i == 23
  }

  /** How many fixed positions are at i or later. */
  function FixedFrom(i: int): int {
    (if i <= 8 then 1 else 0) + (if i <= 13 then 1 else 0) + (if i <= 14 then 1 else 0)
    + (if i <= 18 then 1 else 0) + (if i <= 23 then 1 else 0)
  }

  /** A 36-character string with placeholders everywhere except the fixed positions has 31. */
  lemma PlaceholdersOfLayout(t: string)
    requires |t| == 36
    requires forall i | 0 <= i < 36 :: IsPlaceholder(t[i]) <==> !IsFixed(i)
    ensures Placeholders(t) == 31
  {
    var i := 36;
    assert t[36..] == [];
    while i > 0
      invariant 0 <= i <= 36
      invariant Placeholders(t[i..]) == 36 - i - FixedFrom(i)
    {
      i := i - 1;
      assert t[i..][1..] == t[i + 1..];
    }
    assert t[0..] == t;
  }

  /** `(r & 0x3) | 0x8`: the RFC 4122 variant nibble, always 8, 9, a or b. */
  function VariantNibble(r: Nibble): (v: Nibble)
    ensures 8 <= v <= 11
    ensures v % 4 == r % 4
  {
    (((r as bv8) & 3) | 8) as int
  }

  /** The replacement callback: `x` becomes the random nibble, `y` the variant nibble,
      each written with `toString(16)`. */
  function Substitute(c: char, r: Nibble): string
    requires IsPlaceholder(c)
  {
    if c == 'x' then ToBase16(r) else ToBase16(VariantNibble(r))
  }

  /** `t.replace(/[xy]/g, callback)`, with `rs[k]` the value of `Math.random() * 16 | 0`
      in the callback's k-th call. */
  function Fill(t: string, rs: seq<Nibble>): string
    requires |rs| == Placeholders(t)
  {
    if t == [] then []
    else if IsPlaceholder(t[0]) then Substitute(t[0], rs[0]) + Fill(t[1..], rs[1..])
    else [t[0]] + Fill(t[1..], rs)
  }

  /** Placeholders are replaced one for one and in order; every other character is kept. */
  lemma {:induction false} FillAt(t: string, rs: seq<Nibble>, i: nat)
    requires |rs| == Placeholders(t)
    requires i < |t|
    ensures |Fill(t, rs)| == |t|
    ensures Placeholders(t[..i]) < |rs| || !IsPlaceholder(t[i])
    ensures Fill(t, rs)[i] ==
      if IsPlaceholder(t[i]) then Substitute(t[i], rs[Placeholders(t[..i])])[0] else t[i]
  {
    FillLength(t, rs);
    PlaceholdersSplit(t, i);
    if i > 0 {
      assert t[1..][..i - 1] == t[1..i];
      if IsPlaceholder(t[0]) {
        FillAt(t[1..], rs[1..], i - 1);
      } else {
        FillAt(t[1..], rs, i - 1);
      }
      assert t[..i] == [t[0]] + t[1..i];
    } else {
      assert t[..0] == [];
    }
  }

  lemma {:induction false} FillLength(t: string, rs: seq<Nibble>)
    requires |rs| == Placeholders(t)
    ensures |Fill(t, rs)| == |t|
  {
    if t != [] {
      if IsPlaceholder(t[0]) {
        FillLength(t[1..], rs[1..]);
      } else {
        FillLength(t[1..], rs);
      }
    }
  }

  lemma {:induction false} PlaceholdersSplit(t: string, i: nat)
    requires i < |t|
    ensures Placeholders(t) == Placeholders(t[..i]) + (if IsPlaceholder(t[i]) then 1 else 0)
                               + Placeholders(t[i + 1..])
  {
    if i > 0 {
      PlaceholdersSplit(t[1..], i - 1);
      assert t[1..][..i - 1] == t[1..i];
      assert t[..i][1..] == t[1..i];
      assert t[1..][i..] == t[i + 1..];
    } else {
      assert t[..0] == [];
    }
  }

  /** The fallback identifier: the template with its 31 placeholders filled. */
  function FallbackId(rs: seq<Nibble>): (id: string)
    requires |rs| == UuidPlaceholders
    ensures |id| == 36
  {
    UuidPlaceholderCount();
    FillLength(UuidTemplate, rs);
    Fill(UuidTemplate, rs)
  }

  /** `generateId`: the platform's `crypto.randomUUID()` result when it exists, the
      template otherwise. */
  function GenerateId(randomUuid: Option<string>, rs: seq<Nibble>): (id: string)
    requires |rs| == UuidPlaceholders
    ensures randomUuid.Some? ==> id == randomUuid.value
    ensures randomUuid.None? ==> id == FallbackId(rs)
  {
    match randomUuid
    case Some(u) => u
    case None => FallbackId(rs)
  }

  /** Pointwise view of the replacement: a placeholder becomes a lowercase hex digit
      (the `y` one a variant digit), every other character is kept. */
  lemma FillPointwise(t: string, rs: seq<Nibble>)
    requires |rs| == Placeholders(t)
    ensures |Fill(t, rs)| == |t|
    ensures forall i | 0 <= i < |t| && t[i] == 'x' :: IsLowerHex(Fill(t, rs)[i])
    ensures forall i | 0 <= i < |t| && t[i] == 'y' :: Fill(t, rs)[i] in {'8', '9', 'a', 'b'}
    ensures forall i | 0 <= i < |t| && !IsPlaceholder(t[i]) :: Fill(t, rs)[i] == t[i]
  {
    FillLength(t, rs);
    forall i | 0 <= i < |t| && t[i] == 'x' ensures IsLowerHex(Fill(t, rs)[i]) {
      FillAt(t, rs, i);
    }
    forall i | 0 <= i < |t| && t[i] == 'y' ensures Fill(t, rs)[i] in {'8', '9', 'a', 'b'} {
      FillAt(t, rs, i);
      var v := VariantNibble(rs[Placeholders(t[..i])]);
      assert Fill(t, rs)[i] == HexDigit(v);
    }
    forall i | 0 <= i < |t| && !IsPlaceholder(t[i]) ensures Fill(t, rs)[i] == t[i] {
      FillAt(t, rs, i);
    }
  }

  /** The template's own layout. */
  lemma TemplateLayout()
    ensures |UuidTemplate| == 36
    ensures UuidTemplate[8] == '-' && UuidTemplate[13] == '-'
    ensures UuidTemplate[18] == '-' && UuidTemplate[23] == '-'
    ensures UuidTemplate[14] == '4' && UuidTemplate[19] == 'y'
    ensures forall i | 0 <= i < 36 && i != 8 && i != 13 && i != 18 && i != 23 && i != 14 ::
      UuidTemplate[i] == 'x' || UuidTemplate[i] == 'y'
  {
    forall i | 0 <= i < 36 && i != 8 && i != 13 && i != 18 && i != 23 && i != 14
      ensures UuidTemplate[i] == 'x' || UuidTemplate[i] == 'y'
    {
      if i == 19 {
      } else {
        assert UuidTemplate[i] == 'x';
      }
    }
  }

  /** A 36-character string laid out like the template: fixed characters at the five fixed
      positions, a `y` at 19 and placeholders everywhere else. */
  predicate UuidLayout(t: string) {
    && |t| == 36
    && t[8] == '-' && t[13] == '-' && t[18] == '-' && t[23] == '-' && t[14] == '4' && t[19] == 'y'
    && forall i | 0 <= i < 36 && !IsFixed(i) :: IsPlaceholder(t[i])
  }

  /** The layout of section 4.4 of RFC 4122 as the fallback writes it: 36 characters, dashes
      at 8, 13, 18 and 23, the version digit `4` at 14 and a variant digit (8, 9, a or b)
      at 19. */
  predicate Rfc4122Layout(id: string) {
    && |id| == 36
    && id[8] == '-' && id[13] == '-' && id[18] == '-' && id[23] == '-'
    && id[14] == '4'
    && id[19] in {'8', '9', 'a', 'b'}
  }

  /** Filling any string with the template's layout keeps the dashes and the `4`, writes a
      variant digit at 19 and a lowercase hex digit at every other position. */
  lemma FillOfLayout(t: string, rs: seq<Nibble>)
    requires UuidLayout(t) && |rs| == Placeholders(t)
    ensures Rfc4122Layout(Fill(t, rs))
    ensures forall i | 0 <= i < 36 && i != 8 && i != 13 && i != 18 && i != 23 :: IsLowerHex(Fill(t, rs)[i])
  {
    FillPointwise(t, rs);
    var f := Fill(t, rs);
    forall i | 0 <= i < 36 && i != 8 && i != 13 && i != 18 && i != 23 ensures IsLowerHex(f[i]) {
      if i != 14 && t[i] == 'y' {
        assert f[i] in {'8', '9', 'a', 'b'};
      }
    }
  }

  lemma TemplateIsLayout()
    ensures UuidLayout(UuidTemplate)
  {
    TemplateLayout();
  }

  /** The fallback keeps the layout of section 4.4 of RFC 4122: dashes at 8, 13, 18 and 23,
      version nibble `4` at 14 and a variant nibble in 8..b at 19. */
  lemma FallbackIdLayout(rs: seq<Nibble>)
    requires |rs| == UuidPlaceholders
    ensures Rfc4122Layout(FallbackId(rs))
  {
    UuidPlaceholderCount();
    TemplateIsLayout();
    FillOfLayout(UuidTemplate, rs);
  }

  /** Every position of the fallback other than the four dashes is a lowercase hex digit. */
  lemma FallbackIdHexDigits(rs: seq<Nibble>)
    requires |rs| == UuidPlaceholders
    ensures forall i | 0 <= i < 36 && i != 8 && i != 13 && i != 18 && i != 23 ::
      IsLowerHex(FallbackId(rs)[i])
  {
    UuidPlaceholderCount();
    TemplateIsLayout();
    FillOfLayout(UuidTemplate, rs);
  }
}
