/**
 * Base 64 encoding with padding, as section 4 of RFC 4648 defines it, and the browser's
 * `btoa`/`atob`, which apply it to strings whose characters are all Latin-1 (code points
 * below 256, each standing for one byte) and reject any other string.
 */
module Base64 {
  import opened Wrappers

  type byte = b: int | 0 <= b < 256

  /** The character for a 6-bit value: Table 1 of RFC 4648. */
  function EncodeSextet(v: nat): (c: char)
    requires v < 64
    ensures IsBase64Char(c) && c != '='
  {
    if v < 26 then (v + 'A' as int) as char
    else if v < 52 then (v - 26 + 'a' as int) as char
    else if v < 62 then (v - 52 + '0' as int) as char
    else if v == 62 then '+'
    else '/'
  }

  /** The 6-bit value of an alphabet character; `None` for anything else, the pad `=` included. */
  function DecodeSextet(c: char): (r: Option<nat>)
    ensures r.Some? ==> r.value < 64
  {
    if 'A' <= c <= 'Z' then Some(c as int - 'A' as int)
    else if 'a' <= c <= 'z' then Some(c as int - 'a' as int + 26)
    else if '0' <= c <= '9' then Some(c as int - '0' as int + 52)
    else if c == '+' then Some(62)
    else if c == '/' then Some(63)
    else None
  }

  /** Each alphabet character decodes to the value it encodes. */
  lemma DecodeEncodeSextet(v: nat)
    requires v < 64
    ensures DecodeSextet(EncodeSextet(v)) == Some(v)
  {
  }

  predicate IsBase64Char(c: char) {
    DecodeSextet(c).Some? || c == '='
  }

  /**
   * Encodes each group of 3 bytes as 4 characters; a final group of 1 or 2 bytes is
   * completed with zero bits and padded with `=` to 4 characters.
   */
  function Encode(bs: seq<byte>): (r: string)
    ensures |r| == (|bs| + 2) / 3 * 4
    ensures forall i :: 0 <= i < |r| ==> IsBase64Char(r[i])
    decreases |bs|
  {
    if |bs| == 0 then ""
    else if |bs| == 1 then EncodeOne(bs[0])
    else if |bs| == 2 then EncodeTwo(bs[0], bs[1])
    else
      var group, rest := EncodeGroup(bs[0], bs[1], bs[2]), Encode(bs[3..]);
      EncodedLengthStep(|bs|);
      assert forall i :: 0 <= i < |group + rest| ==> (group + rest)[i] == if i < 4 then group[i] else rest[i - 4];
      group + rest
  }

  /** Three bytes as four alphabet characters. */
  function EncodeGroup(b0: byte, b1: byte, b2: byte): (q: string)
    ensures |q| == 4 && forall i :: 0 <= i < 4 ==> IsBase64Char(q[i]) && q[i] != '='
  {
    SextetBounds(b0, b1, b2);
    [EncodeSextet(b0 / 4), EncodeSextet(b0 % 4 * 16 + b1 / 16), EncodeSextet(b1 % 16 * 4 + b2 / 64), EncodeSextet(b2 % 64)]
  }

  /** A final pair of bytes: three alphabet characters and one pad. */
  function EncodeTwo(b0: byte, b1: byte): (q: string)
    ensures |q| == 4 && forall i :: 0 <= i < 4 ==> IsBase64Char(q[i])
    ensures q[3] == '=' && q[2] != '='
  {
    SextetBounds(b0, b1, 0);
    [EncodeSextet(b0 / 4), EncodeSextet(b0 % 4 * 16 + b1 / 16), EncodeSextet(b1 % 16 * 4), '=']
  }

  /** A final single byte: two alphabet characters and two pads. */
  function EncodeOne(b0: byte): (q: string)
    ensures |q| == 4 && forall i :: 0 <= i < 4 ==> IsBase64Char(q[i])
    ensures q[2] == '=' && q[3] == '=' && q[1] != '='
  {
    SextetBounds(b0, 0, 0);
    [EncodeSextet(b0 / 4), EncodeSextet(b0 % 4 * 16), '=', '=']
  }

  lemma EncodedLengthStep(n: nat)
    requires n >= 3
    ensures (n + 2) / 3 * 4 == (n - 3 + 2) / 3 * 4 + 4
  {
    assert (n + 2) / 3 == (n - 1) / 3 + 1;
  }

  /** The four 6-bit slices of three bytes. */
  lemma SextetBounds(b0: byte, b1: byte, b2: byte)
    ensures b0 / 4 < 64 && b0 % 4 * 16 + b1 / 16 < 64
    ensures b1 % 16 * 4 + b2 / 64 < 64 && b2 % 64 < 64
  {
  }

  /** The bytes of one 4-character group; `last` says whether padding may appear in it. */
  function DecodeQuad(c0: char, c1: char, c2: char, c3: char, last: bool): Option<seq<byte>>
  {
    match (DecodeSextet(c0), DecodeSextet(c1), DecodeSextet(c2), DecodeSextet(c3))
    case (Some(v0), Some(v1), Some(v2), Some(v3)) =>
      Some([v0 * 4 + v1 / 16, v1 % 16 * 16 + v2 / 4, v2 % 4 * 64 + v3])
    case (Some(v0), Some(v1), Some(v2), None) =>
      if last && c3 == '=' then Some([v0 * 4 + v1 / 16, v1 % 16 * 16 + v2 / 4]) else None
    case (Some(v0), Some(v1), None, None) =>
      if last && c2 == '=' && c3 == '=' then Some([v0 * 4 + v1 / 16]) else None
    case _ => None
  }

  /** Base 64 decoding of a padded string; `None` when it is not well formed. */
  function Decode(s: string): Option<seq<byte>>
    decreases |s|
  {
    if |s| == 0 then Some([])
    else if |s| < 4 then None
    else
      match DecodeQuad(s[0], s[1], s[2], s[3], |s| == 4)
      case None => None
      case Some(head) =>
        match Decode(s[4..])
        case None => None
        case Some(tail) => Some(head + tail)
  }

  /** A full group of 3 bytes decodes back from its 4 characters. */
  lemma DecodeFullGroup(b0: byte, b1: byte, b2: byte, last: bool)
    ensures var q := EncodeGroup(b0, b1, b2); DecodeQuad(q[0], q[1], q[2], q[3], last) == Some([b0, b1, b2])
  {
    var v0, v1, v2, v3 := b0 / 4, b0 % 4 * 16 + b1 / 16, b1 % 16 * 4 + b2 / 64, b2 % 64;
    SextetBounds(b0, b1, b2);
    DecodeEncodeSextet(v0);
    DecodeEncodeSextet(v1);
    DecodeEncodeSextet(v2);
    DecodeEncodeSextet(v3);
    assert v1 / 16 == b0 % 4 && v1 % 16 == b1 / 16;
    assert v2 / 4 == b1 % 16 && v2 % 4 == b2 / 64;
    assert v0 * 4 + v1 / 16 == b0;
    assert v1 % 16 * 16 + v2 / 4 == b1;
    assert v2 % 4 * 64 + v3 == b2;
  }

  /** A final group of 2 bytes decodes back from its 3 characters and one pad. */
  lemma DecodeTwoByteGroup(b0: byte, b1: byte)
    ensures var q := EncodeTwo(b0, b1); DecodeQuad(q[0], q[1], q[2], q[3], true) == Some([b0, b1])
  {
    var v0, v1, v2 := b0 / 4, b0 % 4 * 16 + b1 / 16, b1 % 16 * 4;
    SextetBounds(b0, b1, 0);
    DecodeEncodeSextet(v0);
    DecodeEncodeSextet(v1);
    DecodeEncodeSextet(v2);
    assert v1 / 16 == b0 % 4 && v1 % 16 == b1 / 16;
    assert v2 / 4 == b1 % 16;
  }

  /** A final single byte decodes back from its 2 characters and two pads. */
  lemma DecodeOneByteGroup(b0: byte)
    ensures var q := EncodeOne(b0); DecodeQuad(q[0], q[1], q[2], q[3], true) == Some([b0])
  {
    SextetBounds(b0, 0, 0);
    DecodeEncodeSextet(b0 / 4);
    DecodeEncodeSextet(b0 % 4 * 16);
  }

  /** Decoding peels off one group of 4 characters at a time. */
  lemma DecodeGroupThen(c0: char, c1: char, c2: char, c3: char, rest: string, head: seq<byte>)
    requires DecodeQuad(c0, c1, c2, c3, rest == []) == Some(head)
    ensures Decode([c0, c1, c2, c3] + rest)
         == match Decode(rest) case None => None case Some(tail) => Some(head + tail)
  {
    var s := [c0, c1, c2, c3] + rest;
    assert s[0] == c0 && s[1] == c1 && s[2] == c2 && s[3] == c3;
    assert s[4..] == rest;
  }

  lemma SplitThree(bs: seq<byte>)
    requires |bs| >= 3
    ensures [bs[0], bs[1], bs[2]] + bs[3..] == bs
  {
  }

  /** Decoding undoes encoding: no byte sequence is lost or altered by the encoding. */
  lemma {:induction false} DecodeEncode(bs: seq<byte>)
    ensures Decode(Encode(bs)) == Some(bs)
    decreases |bs|
  {
    if |bs| == 1 {
      var q := EncodeOne(bs[0]);
      DecodeOneByteGroup(bs[0]);
      DecodeGroupThen(q[0], q[1], q[2], q[3], [], [bs[0]]);
      assert [q[0], q[1], q[2], q[3]] + [] == q;
      assert [bs[0]] + [] == bs;
    } else if |bs| == 2 {
      var q := EncodeTwo(bs[0], bs[1]);
      DecodeTwoByteGroup(bs[0], bs[1]);
      DecodeGroupThen(q[0], q[1], q[2], q[3], [], [bs[0], bs[1]]);
      assert [q[0], q[1], q[2], q[3]] + [] == q;
      assert [bs[0], bs[1]] + [] == bs;
    } else if |bs| >= 3 {
      var q, rest := EncodeGroup(bs[0], bs[1], bs[2]), Encode(bs[3..]);
      DecodeFullGroup(bs[0], bs[1], bs[2], rest == []);
      DecodeGroupThen(q[0], q[1], q[2], q[3], rest, [bs[0], bs[1], bs[2]]);
      assert [q[0], q[1], q[2], q[3]] + rest == Encode(bs);
      DecodeEncode(bs[3..]);
      SplitThree(bs);
    }
  }

  predicate IsLatin1(s: string) {
    forall i :: 0 <= i < |s| ==> s[i] as int < 256
  }

  /** The bytes a Latin-1 string stands for, one per character. */
  function Latin1Bytes(s: string): (bs: seq<byte>)
    requires IsLatin1(s)
    ensures |bs| == |s|
    ensures forall i :: 0 <= i < |s| ==> bs[i] == s[i] as int
  {
    if s == [] then [] else [s[0] as int] + Latin1Bytes(s[1..])
  }

  /** The Latin-1 string of a byte sequence, one character per byte. */
  function Latin1String(bs: seq<byte>): (s: string)
    ensures |s| == |bs|
    ensures forall i :: 0 <= i < |bs| ==> s[i] as int == bs[i]
  {
    if bs == [] then "" else [bs[0] as char] + Latin1String(bs[1..])
  }

  /** `btoa(s)`: `None` stands for the `InvalidCharacterError` thrown on a non-Latin-1 string. */
  function Btoa(s: string): (r: Option<string>)
    ensures r.Some? <==> IsLatin1(s)
  {
    if IsLatin1(s) then Some(Encode(Latin1Bytes(s))) else None
  }

  /** `atob(s)`: `None` stands for the error thrown on malformed input. */
  function Atob(s: string): Option<string>
  {
    match Decode(s)
    case None => None
    case Some(bs) => Some(Latin1String(bs))
  }

  /** `atob(btoa(s)) == s` for every string `btoa` accepts. */
  lemma AtobBtoa(s: string)
    requires IsLatin1(s)
    ensures Btoa(s).Some? && Atob(Btoa(s).value) == Some(s)
  {
    DecodeEncode(Latin1Bytes(s));
    assert Latin1String(Latin1Bytes(s)) == s;
  }
}
