/** The standard base 64 encoding of section 4 of RFC 4648 (Go's
    `base64.StdEncoding`): every group of three bytes becomes four characters
    of a 64-symbol alphabet, and a final group of one or two bytes is padded
    with '='. `Decode` is the strict canonical decoder, the partner against
    which `Encode` is proved lossless. */
module Base64 {
  import opened Common

  /** A 6-bit group: the value one character of the encoding carries. */
  type Sextet = v: int | 0 <= v < 64

  /** The padding character. */
  const Pad := '='

  /** Table 1 of RFC 4648: 0..25 are 'A'..'Z', 26..51 are 'a'..'z',
      52..61 are '0'..'9', then '+' and '/'. */
  function CharOf(v: Sextet): char
  {
    if v < 26 then ('A' as int + v) as char
    else if v < 52 then ('a' as int + v - 26) as char
    else if v < 62 then ('0' as int + v - 52) as char
    else if v == 62 then '+'
    else '/'
  }

  function ValueOf(c: char): Option<Sextet>
  {
    if 'A' <= c <= 'Z' then Some(c as int - 'A' as int)
    else if 'a' <= c <= 'z' then Some(c as int - 'a' as int + 26)
    else if '0' <= c <= '9' then Some(c as int - '0' as int + 52)
    else if c == '+' then Some(62)
    else if c == '/' then Some(63)
    else None
  }

  /** Decoding a character inverts the table; the pad character is not in it. */
  lemma CharTable(v: Sextet)
    ensures ValueOf(CharOf(v)) == Some(v)
    ensures CharOf(v) != Pad
  {
  }

  lemma ValueTable(c: char)
    ensures ValueOf(c).Some? ==> CharOf(ValueOf(c).value) == c
  {
  }

  /** A 24-bit group of three bytes, most significant bit first, cut into four sextets. */
  function Sextets(a: byte, b: byte, c: byte): seq<Sextet>
  {
    [a / 4, a % 4 * 16 + b / 16, b % 16 * 4 + c / 64, c % 64]
  }

  /** Four sextets joined back into the three bytes of a 24-bit group. */
  function Octets(w: Sextet, x: Sextet, y: Sextet, z: Sextet): seq<byte>
  {
    [w * 4 + x / 16, x % 16 * 16 + y / 4, y % 4 * 64 + z]
  }

  lemma OctetsSextets(a: byte, b: byte, c: byte)
    ensures var s := Sextets(a, b, c); Octets(s[0], s[1], s[2], s[3]) == [a, b, c]
  {
  }

  lemma SextetsOctets(w: Sextet, x: Sextet, y: Sextet, z: Sextet)
    ensures var o := Octets(w, x, y, z); Sextets(o[0], o[1], o[2]) == [w, x, y, z]
  {
  }

  /** The four characters of one 24-bit group. */
  function EncodeGroup(a: byte, b: byte, c: byte): (q: string)
  {
    var s := Sextets(a, b, c);
    [CharOf(s[0]), CharOf(s[1]), CharOf(s[2]), CharOf(s[3])]
  }

  /** Go's `base64.StdEncoding.EncodeToString`: full groups of three bytes,
      then a final group of one or two bytes filled up with zero bits, whose
      unused characters are replaced by padding. */
  function Encode(data: seq<byte>): (text: string)
    ensures |text| == 4 * ((|data| + 2) / 3)
    decreases |data|
  {
    if |data| == 0 then ""
    else if |data| == 1 then EncodeGroup(data[0], 0, 0)[..2] + [Pad, Pad]
    else if |data| == 2 then EncodeGroup(data[0], data[1], 0)[..3] + [Pad]
    else EncodeGroup(data[0], data[1], data[2]) + Encode(data[3..])
  }

  /** How many bytes a group carries: padding is honoured only in the last group. */
  function GroupLength(q: string, last: bool): (n: nat)
    requires |q| == 4
    ensures 1 <= n <= 3 && (n < 3 ==> last)
  {
    if last && q[2] == Pad && q[3] == Pad then 1
    else if last && q[3] == Pad then 2
    else 3
  }

  /** Decodes one four-character group. The zero bits a padded group was
      filled up with must indeed be zero (the canonical form of section 3.5
      of RFC 4648). */
  function DecodeGroup(q: string, last: bool): (r: Option<seq<byte>>)
    requires |q| == 4
    ensures r.Some? ==> |r.value| == GroupLength(q, last)
  {
    var n := GroupLength(q, last);
    var w, x := ValueOf(q[0]), ValueOf(q[1]);
    var y := if n >= 2 then ValueOf(q[2]) else Some(0);
    var z := if n == 3 then ValueOf(q[3]) else Some(0);
    if w.None? || x.None? || y.None? || z.None? then None
    else
      var bytes := Octets(w.value, x.value, y.value, z.value);
      if bytes[n..] == [0, 0, 0][n..] then Some(bytes[..n]) else None
  }

  /** Strict decoding of a padded standard base 64 text. */
  function Decode(text: string): (r: Option<seq<byte>>)
    ensures r.Some? ==> |text| == 4 * ((|r.value| + 2) / 3)
    decreases |text|
  {
    if |text| == 0 then Some([])
    else if |text| < 4 then None
    else
      match DecodeGroup(text[..4], |text| == 4)
      case None => None
      case Some(head) =>
        match Decode(text[4..])
        case None => None
        case Some(tail) =>
          LengthStep(|head|, |tail|, |text[4..]|);
          Some(head + tail)
  }

  /** A group of `h` bytes followed by `t` more bytes takes one more group of characters. */
  lemma LengthStep(h: nat, t: nat, rest: nat)
    requires 1 <= h <= 3
    requires h < 3 ==> t == 0 && rest == 0
    requires rest == 4 * ((t + 2) / 3)
    ensures 4 + rest == 4 * ((h + t + 2) / 3)
  {
  }

  /** The first group of an encoding decodes to the bytes it came from. */
  lemma GroupRoundTrip(data: seq<byte>, last: bool)
    requires 1 <= |data|
    requires |data| < 3 ==> last
    ensures |Encode(data)| >= 4
    ensures DecodeGroup(Encode(data)[..4], last) == Some(data[..if |data| < 3 then |data| else 3])
  {
    var a := data[0];
    var b := if |data| >= 2 then data[1] else 0;
    var c := if |data| >= 3 then data[2] else 0;
    var s := Sextets(a, b, c);
    OctetsSextets(a, b, c);
    CharTable(s[0]);
    CharTable(s[1]);
    CharTable(s[2]);
    CharTable(s[3]);
    var q := Encode(data)[..4];
    assert q[0] == CharOf(s[0]) && q[1] == CharOf(s[1]);
    if |data| == 1 {
      assert q[2] == Pad && q[3] == Pad;
      assert s[2] == 0 && s[3] == 0;
      var bytes := Octets(s[0], s[1], 0, 0);
      assert bytes == [a, 0, 0];
      assert bytes[1..] == [0, 0, 0][1..] && bytes[..1] == [a];
      assert GroupLength(q, last) == 1;
      assert ValueOf(q[0]) == Some(s[0]) && ValueOf(q[1]) == Some(s[1]);
      assert DecodeGroup(q, last) == Some([a]);
      assert data[..1] == [a];
    } else if |data| == 2 {
      assert q[2] == CharOf(s[2]) && q[3] == Pad;
      assert s[3] == 0;
      var bytes := Octets(s[0], s[1], s[2], 0);
      assert bytes == [a, b, 0];
      assert bytes[2..] == [0, 0, 0][2..] && bytes[..2] == [a, b];
      assert GroupLength(q, last) == 2;
      assert ValueOf(q[0]) == Some(s[0]) && ValueOf(q[1]) == Some(s[1]) && ValueOf(q[2]) == Some(s[2]);
      assert DecodeGroup(q, last) == Some([a, b]);
      assert data[..2] == [a, b];
    } else {
      assert q[2] == CharOf(s[2]) && q[3] == CharOf(s[3]);
      var bytes := Octets(s[0], s[1], s[2], s[3]);
      assert bytes[3..] == [0, 0, 0][3..] && bytes[..3] == [a, b, c];
      assert GroupLength(q, last) == 3;
      assert ValueOf(q[0]) == Some(s[0]) && ValueOf(q[1]) == Some(s[1]);
      assert ValueOf(q[2]) == Some(s[2]) && ValueOf(q[3]) == Some(s[3]);
      assert DecodeGroup(q, last) == Some([a, b, c]);
      assert data[..3] == [a, b, c];
    }
  }

  /** Decoding inverts encoding, so the encoding loses nothing. */
  lemma {:induction false} DecodeEncode(data: seq<byte>)
    ensures Decode(Encode(data)) == Some(data)
    decreases |data|
  {
    if |data| == 0 {
    } else {
      var text := Encode(data);
      var rest := if |data| < 3 then [] else data[3..];
      GroupRoundTrip(data, |text| == 4);
      if |data| < 3 {
        assert text[4..] == [];
      } else {
        assert text[4..] == Encode(rest);
        DecodeEncode(rest);
      }
      assert data == data[..if |data| < 3 then |data| else 3] + rest;
    }
  }

  /** Every decoded group re-encodes to the characters it came from. */
  lemma GroupCanonical(q: string, last: bool)
    requires |q| == 4
    requires DecodeGroup(q, last).Some?
    ensures var bs := DecodeGroup(q, last).value;
      && |bs| == GroupLength(q, last)
      && Encode(bs) == q
  {
    var n := GroupLength(q, last);
    ValueTable(q[0]);
    ValueTable(q[1]);
    ValueTable(q[2]);
    ValueTable(q[3]);
    var W, X := ValueOf(q[0]), ValueOf(q[1]);
    var Y := if n >= 2 then ValueOf(q[2]) else Some(0);
    var Z := if n == 3 then ValueOf(q[3]) else Some(0);
    assert W.Some? && X.Some? && Y.Some? && Z.Some?;
    var w, x, y, z := W.value, X.value, Y.value, Z.value;
    var bytes := Octets(w, x, y, z);
    SextetsOctets(w, x, y, z);
    var bs := DecodeGroup(q, last).value;
    assert bs == bytes[..n];
    assert bytes[n..] == [0, 0, 0][n..];
    if n == 1 {
      assert bytes == [bs[0], 0, 0];
    } else if n == 2 {
      assert bytes == [bs[0], bs[1], 0];
    } else {
      assert Encode(bs) == EncodeGroup(bs[0], bs[1], bs[2]) + Encode([]);
    }
  }

  /** Encoding inverts decoding: the texts `Decode` accepts are exactly the
      encodings of byte strings. */
  lemma {:induction false} EncodeDecode(text: string)
    requires Decode(text).Some?
    ensures Encode(Decode(text).value) == text
    decreases |text|
  {
    if |text| == 0 {
    } else {
      var head := DecodeGroup(text[..4], |text| == 4).value;
      GroupCanonical(text[..4], |text| == 4);
      var tail := Decode(text[4..]).value;
      EncodeDecode(text[4..]);
      var data := head + tail;
      assert Decode(text) == Some(data);
      if |head| == 3 {
        assert data[3..] == tail;
        assert Encode(data) == EncodeGroup(head[0], head[1], head[2]) + Encode(tail);
        assert Encode(head) == EncodeGroup(head[0], head[1], head[2]) + Encode([]);
        assert text == text[..4] + text[4..];
      } else {
        assert |text| == 4;
        assert tail == [];
        assert data == head;
      }
    }
  }

  lemma EncodeInjective(a: seq<byte>, b: seq<byte>)
    ensures Encode(a) == Encode(b) <==> a == b
  {
    DecodeEncode(a);
    DecodeEncode(b);
  }

  /** One group of the test vectors below, sextet by sextet. */
  lemma GroupVector(a: byte, b: byte, c: byte, w: Sextet, x: Sextet, y: Sextet, z: Sextet)
    requires a / 4 == w && a % 4 * 16 + b / 16 == x && b % 16 * 4 + c / 64 == y && c % 64 == z
    ensures EncodeGroup(a, b, c) == [CharOf(w), CharOf(x), CharOf(y), CharOf(z)]
  {
  }

  /** The test vectors of section 10 of RFC 4648 that end in a padded or full
      first group: "", "f", "fo", "foo". */
  lemma Rfc4648ShortVectors()
    ensures Encode([]) == ""
    ensures Encode([0x66]) == "Zg=="
    ensures Encode([0x66, 0x6f]) == "Zm8="
    ensures Encode([0x66, 0x6f, 0x6f]) == "Zm9v"
  {
    GroupVector(0x66, 0, 0, 25, 32, 0, 0);
    assert CharOf(25) == 'Z' && CharOf(32) == 'g';
    GroupVector(0x66, 0x6f, 0, 25, 38, 60, 0);
    assert CharOf(38) == 'm' && CharOf(60) == '8';
    GroupVector(0x66, 0x6f, 0x6f, 25, 38, 61, 47);
    assert CharOf(61) == '9' && CharOf(47) == 'v';
    assert Encode([0x66, 0x6f, 0x6f]) == EncodeGroup(0x66, 0x6f, 0x6f) + Encode([]);
  }

  /** The test vectors of section 10 of RFC 4648 with a second group:
      "foob", "fooba", "foobar". */
  lemma Rfc4648LongVectors()
    ensures Encode([0x66, 0x6f, 0x6f, 0x62]) == "Zm9vYg=="
    ensures Encode([0x66, 0x6f, 0x6f, 0x62, 0x61]) == "Zm9vYmE="
    ensures Encode([0x66, 0x6f, 0x6f, 0x62, 0x61, 0x72]) == "Zm9vYmFy"
  {
    Rfc4648ShortVectors();
    FooThen([0x62], "Yg==");
    FooThen([0x62, 0x61], "YmE=");
    FooThen([0x62, 0x61, 0x72], "YmFy");
  }

  lemma FooThen(rest: seq<byte>, text: string)
    requires rest == [0x62] ==> text == "Yg=="
    requires rest == [0x62, 0x61] ==> text == "YmE="
    requires rest == [0x62, 0x61, 0x72] ==> text == "YmFy"
    requires rest == [0x62] || rest == [0x62, 0x61] || rest == [0x62, 0x61, 0x72]
    ensures Encode([0x66, 0x6f, 0x6f] + rest) == "Zm9v" + text
  {
    GroupVector(0x66, 0x6f, 0x6f, 25, 38, 61, 47);
    assert CharOf(25) == 'Z' && CharOf(38) == 'm' && CharOf(61) == '9' && CharOf(47) == 'v';
    assert ([0x66, 0x6f, 0x6f] + rest)[3..] == rest;
    if rest == [0x62] {
      GroupVector(0x62, 0, 0, 24, 32, 0, 0);
      assert CharOf(24) == 'Y' && CharOf(32) == 'g';
    } else if rest == [0x62, 0x61] {
      GroupVector(0x62, 0x61, 0, 24, 38, 4, 0);
      assert CharOf(24) == 'Y' && CharOf(38) == 'm' && CharOf(4) == 'E';
    } else {
      GroupVector(0x62, 0x61, 0x72, 24, 38, 5, 50);
      assert CharOf(24) == 'Y' && CharOf(38) == 'm' && CharOf(5) == 'F' && CharOf(50) == 'y';
      assert Encode(rest) == EncodeGroup(0x62, 0x61, 0x72) + Encode([]);
    }
  }
}
