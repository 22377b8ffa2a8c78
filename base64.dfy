/** Base 64 encoding with the standard alphabet and `=` padding, as defined in
    section 4 of RFC 4648; Node's `buf.toString('base64')` produces it for the
    Authorization header of the Mailgun adapter. */
module Base64 {
  import opened Wrappers
  import opened Bytes

  /** A 6-bit group value, the index of one character of the alphabet. */
  type sextet = v: int | 0 <= v < 64

  /** Table 1 of RFC 4648: A-Z, a-z, 0-9, '+', '/'. */
  function Char(v: sextet): (c: char)
    ensures c != '='
  {
    if v < 26 then ('A' as int + v) as char
    else if v < 52 then ('a' as int + (v - 26)) as char
    else if v < 62 then ('0' as int + (v - 52)) as char
    else if v == 62 then '+'
    else '/'
  }

  /** The value of an alphabet character, or `None` for any other character. */
  function Value(c: char): (r: Option<sextet>)
    ensures r.Some? ==> Char(r.value) == c
  {
    if 'A' <= c <= 'Z' then Some(c as int - 'A' as int)
    else if 'a' <= c <= 'z' then Some(c as int - 'a' as int + 26)
    else if '0' <= c <= '9' then Some(c as int - '0' as int + 52)
    else if c == '+' then Some(62)
    else if c == '/' then Some(63)
    else None
  }

  /** Every sextet's character reads back as that sextet. */
  lemma ValueChar(v: sextet)
    ensures Value(Char(v)) == Some(v)
  {
  }

  /** Three octets become four characters (section 4, the full-quantum case). */
  function EncodeTriple(b0: byte, b1: byte, b2: byte): (r: string)
    ensures |r| == 4
  {
    [Char(b0 / 4), Char((b0 % 4) * 16 + b1 / 16), Char((b1 % 16) * 4 + b2 / 64), Char(b2 % 64)]
  }

  /** The encoding of a whole octet sequence; a final quantum of one or two
      octets is padded with "==" or "=". */
  function Encode(b: seq<byte>): (r: string)
    decreases |b|
  {
    if |b| == 0 then ""
    else if |b| == 1 then [Char(b[0] / 4), Char((b[0] % 4) * 16), '=', '=']
    else if |b| == 2 then [Char(b[0] / 4), Char((b[0] % 4) * 16 + b[1] / 16), Char((b[1] % 16) * 4), '=']
    else EncodeTriple(b[0], b[1], b[2]) + Encode(b[3..])
  }

  /** The identity on 0..255: it lets `DecodeGroup` state, where each octet is
      put together from sextets, that the value fits in a byte. */
  function Octet(x: int): (b: byte)
    requires 0 <= x < 256
  {
    x
  }

  /** Decodes one four-character group: four alphabet characters give three
      octets, and a group ending in "=" or "==" gives two or one. Bits the
      padding discards must be zero. */
  function DecodeGroup(g: string): (r: Option<seq<byte>>)
    requires |g| == 4
    ensures r.Some? ==> 1 <= |r.value| <= 3
  {
    match (Value(g[0]), Value(g[1]), Value(g[2]), Value(g[3]))
    case (Some(c0), Some(c1), Some(c2), Some(c3)) =>
      Some([Octet(c0 as int * 4 + c1 / 16), Octet((c1 as int % 16) * 16 + c2 / 4), Octet((c2 as int % 4) * 64 + c3)])
    case (Some(c0), Some(c1), Some(c2), None) =>
      if g[3] == '=' && c2 % 4 == 0 then Some([Octet(c0 as int * 4 + c1 / 16), Octet((c1 as int % 16) * 16 + c2 / 4)])
      else None
    case (Some(c0), Some(c1), None, None) =>
      if g[2] == '=' && g[3] == '=' && c1 % 16 == 0 then Some([Octet(c0 as int * 4 + c1 / 16)]) else None
    case _ => None
  }

  /** Decodes a padded base 64 string; padding may only end the last group. */
  function Decode(s: string): (r: Option<seq<byte>>)
    decreases |s|
  {
    if |s| == 0 then Some([])
    else if |s| < 4 then None
    else match DecodeGroup(s[..4])
      case None => None
      case Some(g) =>
        if |g| < 3 && |s| > 4 then None
        else match Decode(s[4..])
          case None => None
          case Some(rest) => Some(g + rest)
  }

  /** A group of four alphabet characters decodes to three octets. */
  lemma GroupOfFour(g: string, c0: sextet, c1: sextet, c2: sextet, c3: sextet)
    requires |g| == 4 && g[0] == Char(c0) && g[1] == Char(c1) && g[2] == Char(c2) && g[3] == Char(c3)
    requires c0 * 4 + c1 / 16 < 256
    ensures DecodeGroup(g) == Some([c0 * 4 + c1 / 16, (c1 % 16) * 16 + c2 / 4, (c2 % 4) * 64 + c3])
  {
    ValueChar(c0);
    ValueChar(c1);
    ValueChar(c2);
    ValueChar(c3);
  }

  /** A group of three alphabet characters and "=" decodes to two octets. */
  lemma GroupOfThree(g: string, c0: sextet, c1: sextet, c2: sextet)
    requires |g| == 4 && g[0] == Char(c0) && g[1] == Char(c1) && g[2] == Char(c2) && g[3] == '='
    requires c0 * 4 + c1 / 16 < 256 && c2 % 4 == 0
    ensures DecodeGroup(g) == Some([c0 * 4 + c1 / 16, (c1 % 16) * 16 + c2 / 4])
  {
    ValueChar(c0);
    ValueChar(c1);
    ValueChar(c2);
  }

  /** A group of two alphabet characters and "==" decodes to one octet. */
  lemma GroupOfTwo(g: string, c0: sextet, c1: sextet)
    requires |g| == 4 && g[0] == Char(c0) && g[1] == Char(c1) && g[2] == '=' && g[3] == '='
    requires c0 * 4 + c1 / 16 < 256 && c1 % 16 == 0
    ensures DecodeGroup(g) == Some([c0 * 4 + c1 / 16])
  {
    ValueChar(c0);
    ValueChar(c1);
  }

  /** The bit arithmetic of a full quantum: the sextets recombine into the octets. */
  lemma TripleBits(b0: byte, b1: byte, b2: byte)
    ensures (b0 / 4) * 4 + ((b0 % 4) * 16 + b1 / 16) / 16 == b0
    ensures (((b0 % 4) * 16 + b1 / 16) % 16) * 16 + ((b1 % 16) * 4 + b2 / 64) / 4 == b1
    ensures (((b1 % 16) * 4 + b2 / 64) % 4) * 64 + b2 % 64 == b2
  {
  }

  lemma DecodeTriple(b0: byte, b1: byte, b2: byte)
    ensures DecodeGroup(EncodeTriple(b0, b1, b2)) == Some([b0, b1, b2])
  {
    TripleBits(b0, b1, b2);
    GroupOfFour(EncodeTriple(b0, b1, b2), b0 / 4, (b0 % 4) * 16 + b1 / 16, (b1 % 16) * 4 + b2 / 64, b2 % 64);
  }

  /** A string of exactly one group decodes as that group. */
  lemma DecodeLastGroup(s: string)
    requires |s| == 4 && DecodeGroup(s).Some?
    ensures Decode(s) == DecodeGroup(s)
  {
    assert s[..4] == s;
    assert Decode(s[4..]) == Some([]);
    assert DecodeGroup(s).value + [] == DecodeGroup(s).value;
  }

  /** A final quantum of one octet, "xx==", decodes back to it. */
  lemma DecodeSingle(b0: byte)
    ensures Decode(Encode([b0])) == Some([b0])
  {
    var s := Encode([b0]);
    assert s == [Char(b0 / 4), Char((b0 % 4) * 16), '=', '='];
    GroupOfTwo(s, b0 / 4, (b0 % 4) * 16);
    DecodeLastGroup(s);
  }

  /** A final quantum of two octets, "xxx=", decodes back to them. */
  lemma DecodePair(b0: byte, b1: byte)
    ensures Decode(Encode([b0, b1])) == Some([b0, b1])
  {
    var s := Encode([b0, b1]);
    assert s == [Char(b0 / 4), Char((b0 % 4) * 16 + b1 / 16), Char((b1 % 16) * 4), '='];
    TripleBits(b0, b1, 0);
    GroupOfThree(s, b0 / 4, (b0 % 4) * 16 + b1 / 16, (b1 % 16) * 4);
    DecodeLastGroup(s);
  }

  /** A full group followed by more groups decodes as the group's octets
      followed by what the rest decodes to. */
  lemma DecodeStep(t: string, u: string, g: seq<byte>, rest: seq<byte>)
    requires |t| == 4 && DecodeGroup(t) == Some(g) && |g| == 3
    requires Decode(u) == Some(rest)
    ensures Decode(t + u) == Some(g + rest)
  {
    assert (t + u)[..4] == t;
    assert (t + u)[4..] == u;
  }

  /** A full quantum followed by the encoding of the rest decodes to the
      three octets followed by what the rest decodes to. */
  lemma DecodeQuantum(b: seq<byte>)
    requires |b| >= 3
    requires Decode(Encode(b[3..])) == Some(b[3..])
    ensures Decode(Encode(b)) == Some(b)
  {
    DecodeTriple(b[0], b[1], b[2]);
    DecodeStep(EncodeTriple(b[0], b[1], b[2]), Encode(b[3..]), [b[0], b[1], b[2]], b[3..]);
    assert [b[0], b[1], b[2]] + b[3..] == b;
  }

  /** Decoding undoes encoding, so the header carries the key's bytes unchanged. */
  lemma {:induction false} DecodeEncode(b: seq<byte>)
    ensures Decode(Encode(b)) == Some(b)
    decreases |b|
  {
    if |b| == 0 {
    } else if |b| == 1 {
      assert b == [b[0]];
      DecodeSingle(b[0]);
    } else if |b| == 2 {
      assert b == [b[0], b[1]];
      DecodePair(b[0], b[1]);
    } else {
      DecodeEncode(b[3..]);
      DecodeQuantum(b);
    }
  }

  /** Every three octets, and a final one or two, take four characters. */
  lemma {:induction false} EncodeLength(b: seq<byte>)
    ensures |Encode(b)| == 4 * ((|b| + 2) / 3)
    decreases |b|
  {
    if |b| >= 3 {
      EncodeLength(b[3..]);
      assert |Encode(b)| == 4 + |Encode(b[3..])|;
      assert (|b| + 2) / 3 == (|b[3..]| + 2) / 3 + 1;
    }
  }
}
