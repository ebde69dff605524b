/**
 * The base64 encoding of section 4 of RFC 4648 (standard alphabet, "="
 * padding), as Node's `Buffer.toString('base64')` produces it, and its
 * decoding.
 */
module Base64 {
  import opened Wrappers

  type Byte = x: int | 0 <= x < 256
  type Bytes = seq<Byte>
  type Sextet = x: int | 0 <= x < 64

  /** The character for a 6-bit group: A-Z, a-z, 0-9, '+', '/'. */
  function Char(i: Sextet): char {
    if i < 26 then ('A' as int + i) as char
    else if i < 52 then ('a' as int + (i - 26)) as char
    else if i < 62 then ('0' as int + (i - 52)) as char
    else if i == 62 then '+'
    else '/'
  }

  /** The 6-bit group a character stands for, if it is in the alphabet. */
  function Index(c: char): Option<Sextet> {
    if 'A' <= c <= 'Z' then Some(c as int - 'A' as int)
    else if 'a' <= c <= 'z' then Some(c as int - 'a' as int + 26)
    else if '0' <= c <= '9' then Some(c as int - '0' as int + 52)
    else if c == '+' then Some(62)
    else if c == '/' then Some(63)
    else None
  }

  predicate InAlphabet(c: char) {
    Index(c).Some?
  }

  lemma CharIndex(i: Sextet)
    ensures Index(Char(i)) == Some(i)
    ensures Char(i) != '=' && Char(i) != ','
  {
  }

  /** Three bytes as four characters. */
  function Quad(b0: Byte, b1: Byte, b2: Byte): string {
    [Char(b0 / 4), Char((b0 % 4) * 16 + b1 / 16), Char((b1 % 16) * 4 + b2 / 64), Char(b2 % 64)]
  }

  function Encode(b: Bytes): string
    decreases |b|
  {
    if |b| == 0 then ""
    else if |b| == 1 then [Char(b[0] / 4), Char((b[0] % 4) * 16), '=', '=']
    else if |b| == 2 then [Char(b[0] / 4), Char((b[0] % 4) * 16 + b[1] / 16), Char((b[1] % 16) * 4), '=']
    else Quad(b[0], b[1], b[2]) + Encode(b[3..])
  }

  /** Four alphabet characters as three bytes. */
  function DecodeQuad(c0: Sextet, c1: Sextet, c2: Sextet, c3: Sextet): Bytes {
    [c0 * 4 + c1 / 16, (c1 % 16) * 16 + c2 / 4, (c2 % 4) * 64 + c3]
  }

  /** The last group of four characters, which may end in one or two '='. */
  function DecodeLast(q: string): Option<Bytes>
    requires |q| == 4
  {
    match (Index(q[0]), Index(q[1]), Index(q[2]), Index(q[3]))
    case (Some(c0), Some(c1), Some(c2), Some(c3)) => Some(DecodeQuad(c0, c1, c2, c3))
    case (Some(c0), Some(c1), Some(c2), None) =>
      if q[3] == '=' then Some([c0 * 4 + c1 / 16, (c1 % 16) * 16 + c2 / 4]) else None
    case (Some(c0), Some(c1), None, None) =>
      if q[2] == '=' && q[3] == '=' then Some([c0 * 4 + c1 / 16]) else None
    case _ => None
  }

  function Decode(s: string): Option<Bytes>
    decreases |s|
  {
    if |s| == 0 then Some([])
    else if |s| < 4 then None
    else if |s| == 4 then DecodeLast(s)
    else
      match (Index(s[0]), Index(s[1]), Index(s[2]), Index(s[3]))
      case (Some(c0), Some(c1), Some(c2), Some(c3)) =>
        (match Decode(s[4..])
         case Some(rest) => Some(DecodeQuad(c0, c1, c2, c3) + rest)
         case None => None)
      case _ => None
  }

  lemma QuadRoundTrip(b0: Byte, b1: Byte, b2: Byte)
    ensures var q := Quad(b0, b1, b2);
            Index(q[0]).Some? && Index(q[1]).Some? && Index(q[2]).Some? && Index(q[3]).Some?
            && DecodeQuad(Index(q[0]).value, Index(q[1]).value, Index(q[2]).value, Index(q[3]).value)
               == [b0, b1, b2]
  {
    var c0, c1, c2, c3 := b0 / 4, (b0 % 4) * 16 + b1 / 16, (b1 % 16) * 4 + b2 / 64, b2 % 64;
    CharIndex(c0);
    CharIndex(c1);
    CharIndex(c2);
    CharIndex(c3);
    Pack(b0 % 4, b1 / 16, 16);
    Pack(b1 % 16, b2 / 64, 4);
    assert c0 * 4 + c1 / 16 == b0;
    assert (c1 % 16) * 16 + c2 / 4 == b1;
    assert (c2 % 4) * 64 + c3 == b2;
  }

  /** A value split into a high and a low part at a power of two. */
  lemma Pack(hi: int, lo: int, k: int)
    requires k == 4 || k == 16 || k == 64
    requires 0 <= lo < k
    ensures (hi * k + lo) / k == hi && (hi * k + lo) % k == lo
  {
    if k == 4 {
      assert hi * 4 + lo == hi * k + lo;
    } else if k == 16 {
      assert hi * 16 + lo == hi * k + lo;
    } else {
      assert hi * 64 + lo == hi * k + lo;
    }
  }

  lemma PadIndex()
    ensures Index('=') == None
  {
  }

  lemma DecodeLastOnePad(q: string, c0: Sextet, c1: Sextet, c2: Sextet)
    requires |q| == 4 && Index(q[0]) == Some(c0) && Index(q[1]) == Some(c1) && Index(q[2]) == Some(c2)
    requires q[3] == '='
    ensures Decode(q) == Some([c0 * 4 + c1 / 16, (c1 % 16) * 16 + c2 / 4])
  {
    PadIndex();
  }

  lemma DecodeLastTwoPads(q: string, c0: Sextet, c1: Sextet)
    requires |q| == 4 && Index(q[0]) == Some(c0) && Index(q[1]) == Some(c1)
    requires q[2] == '=' && q[3] == '='
    ensures Decode(q) == Some([c0 * 4 + c1 / 16])
  {
    PadIndex();
  }

  /** The two characters for the last byte undo to that byte. */
  lemma OneByteSextets(b0: Byte)
    ensures Index(Char(b0 / 4)) == Some(b0 / 4)
    ensures Index(Char((b0 % 4) * 16)) == Some((b0 % 4) * 16)
    ensures (b0 / 4) * 4 + ((b0 % 4) * 16) / 16 == b0
  {
    CharIndex(b0 / 4);
    CharIndex((b0 % 4) * 16);
    Pack(b0 % 4, 0, 16);
  }

  /** The three characters for the last two bytes undo to those bytes. */
  lemma TwoBytesSextets(b0: Byte, b1: Byte)
    ensures var c0, c1, c2 := b0 / 4, (b0 % 4) * 16 + b1 / 16, (b1 % 16) * 4;
            Index(Char(c0)) == Some(c0) && Index(Char(c1)) == Some(c1) && Index(Char(c2)) == Some(c2)
            && c0 * 4 + c1 / 16 == b0 && (c1 % 16) * 16 + c2 / 4 == b1
  {
    var c0, c1, c2 := b0 / 4, (b0 % 4) * 16 + b1 / 16, (b1 % 16) * 4;
    CharIndex(c0);
    CharIndex(c1);
    CharIndex(c2);
    Pack(b0 % 4, b1 / 16, 16);
    Pack(b1 % 16, 0, 4);
  }

  lemma OneByteRoundTrip(b: Bytes)
    requires |b| == 1
    ensures Decode(Encode(b)) == Some(b)
  {
    var b0 := b[0];
    var c0, c1 := b0 / 4, (b0 % 4) * 16;
    OneByteSextets(b0);
    var e := [Char(c0), Char(c1), '=', '='];
    assert Encode(b) == e;
    DecodeLastTwoPads(e, c0, c1);
    assert [c0 * 4 + c1 / 16] == [b0] == b;
  }

  lemma TwoBytesRoundTrip(b: Bytes)
    requires |b| == 2
    ensures Decode(Encode(b)) == Some(b)
  {
    var b0, b1 := b[0], b[1];
    var c0, c1, c2 := b0 / 4, (b0 % 4) * 16 + b1 / 16, (b1 % 16) * 4;
    TwoBytesSextets(b0, b1);
    var e := [Char(c0), Char(c1), Char(c2), '='];
    assert Encode(b) == e;
    DecodeLastOnePad(e, c0, c1, c2);
    assert [c0 * 4 + c1 / 16, (c1 % 16) * 16 + c2 / 4] == [b0, b1] == b;
  }

  /** Decoding undoes encoding. */
  lemma {:induction false} RoundTrip(b: Bytes)
    ensures Decode(Encode(b)) == Some(b)
    decreases |b|
  {
    if |b| == 1 {
      OneByteRoundTrip(b);
    } else if |b| == 2 {
      TwoBytesRoundTrip(b);
    } else if |b| >= 3 {
      QuadRoundTrip(b[0], b[1], b[2]);
      var q := Quad(b[0], b[1], b[2]);
      var rest := Encode(b[3..]);
      RoundTrip(b[3..]);
      assert Encode(b) == q + rest;
      assert b == [b[0], b[1], b[2]] + b[3..];
      if |b| == 3 {
        assert rest == "" && Encode(b) == q;
        assert DecodeLast(q) == Some(DecodeQuad(Index(q[0]).value, Index(q[1]).value,
                                                Index(q[2]).value, Index(q[3]).value));
        assert b == [b[0], b[1], b[2]];
      } else {
        EncodeAlphabet(b[3..]);
        assert (q + rest)[..4] == q;
        assert (q + rest)[4..] == rest;
        assert |q + rest| > 4;
      }
    }
  }

  predicate Encoded(s: string) {
    forall i :: 0 <= i < |s| ==> InAlphabet(s[i]) || s[i] == '='
  }

  /** Padding: every '=' is among the last two characters and only '=' follows it. */
  predicate PaddedAtEnd(s: string) {
    && (forall i :: 0 <= i < |s| && s[i] == '=' ==> |s| - 2 <= i)
    && (forall i :: 0 <= i < |s| - 1 && s[i] == '=' ==> s[i + 1] == '=')
  }

  lemma QuadNoPad(b0: Byte, b1: Byte, b2: Byte)
    ensures forall k :: 0 <= k < 4 ==> Quad(b0, b1, b2)[k] != '='
  {
    CharIndex(b0 / 4);
    CharIndex((b0 % 4) * 16 + b1 / 16);
    CharIndex((b1 % 16) * 4 + b2 / 64);
    CharIndex(b2 % 64);
  }

  lemma PadAppend(q: string, rest: string)
    requires forall k :: 0 <= k < |q| ==> q[k] != '='
    requires PaddedAtEnd(rest)
    ensures PaddedAtEnd(q + rest)
  {
    var s := q + rest;
    assert forall i :: 0 <= i < |q| ==> s[i] == q[i];
    assert forall i :: |q| <= i < |s| ==> s[i] == rest[i - |q|];
  }

  lemma QuadEncoded(b0: Byte, b1: Byte, b2: Byte)
    ensures Encoded(Quad(b0, b1, b2))
  {
    QuadRoundTrip(b0, b1, b2);
  }

  lemma ShortEncoded(b: Bytes)
    requires |b| < 3
    ensures Encoded(Encode(b))
    ensures PaddedAtEnd(Encode(b))
    ensures |Encode(b)| == 4 * ((|b| + 2) / 3)
  {
    if |b| == 1 {
      CharIndex(b[0] / 4);
      CharIndex((b[0] % 4) * 16);
    } else if |b| == 2 {
      CharIndex(b[0] / 4);
      CharIndex((b[0] % 4) * 16 + b[1] / 16);
      CharIndex((b[1] % 16) * 4);
    }
  }

  lemma EncodedAppend(q: string, rest: string)
    requires Encoded(q) && Encoded(rest)
    ensures Encoded(q + rest)
  {
    forall i | 0 <= i < |q + rest| ensures InAlphabet((q + rest)[i]) || (q + rest)[i] == '=' {
      if i < |q| {
        assert (q + rest)[i] == q[i];
      } else {
        assert (q + rest)[i] == rest[i - |q|];
      }
    }
  }

  lemma GroupCount(n: nat)
    requires n >= 3
    ensures 4 * ((n + 2) / 3) == 4 + 4 * ((n - 3 + 2) / 3)
  {
    assert (n + 2) / 3 == 1 + (n - 3 + 2) / 3;
  }

  lemma {:induction false} EncodedShape(b: Bytes)
    ensures Encoded(Encode(b))
    ensures PaddedAtEnd(Encode(b))
    ensures |Encode(b)| == 4 * ((|b| + 2) / 3)
    decreases |b|
  {
    if |b| < 3 {
      ShortEncoded(b);
    } else {
      var q := Quad(b[0], b[1], b[2]);
      var rest := Encode(b[3..]);
      QuadEncoded(b[0], b[1], b[2]);
      EncodedShape(b[3..]);
      assert Encode(b) == q + rest;
      EncodedAppend(q, rest);
      QuadNoPad(b[0], b[1], b[2]);
      PadAppend(q, rest);
      GroupCount(|b|);
    }
  }

  lemma EncodedNoComma(s: string)
    requires Encoded(s)
    ensures ',' !in s
  {
    forall i | 0 <= i < |s| ensures s[i] != ',' {
      assert InAlphabet(s[i]) || s[i] == '=';
    }
  }

  /** The encoding uses only the alphabet and '=', has no comma, and is 4 characters per 3 bytes. */
  lemma EncodeAlphabet(b: Bytes)
    ensures Encoded(Encode(b))
    ensures ',' !in Encode(b)
    ensures |Encode(b)| == 4 * ((|b| + 2) / 3)
  {
    EncodedShape(b);
    EncodedNoComma(Encode(b));
  }
}
