/**
 * Base64 as .NET's Convert.ToBase64String and Convert.FromBase64String use it:
 * the alphabet and padding of section 4 of RFC 4648. The decoder skips the
 * white space .NET skips (space, tab, CR, LF), requires a multiple of four
 * remaining characters with `=` only as one or two final characters, and
 * ignores the unused low bits of a padded final group.
 */
module Base64 {
  import opened Common

  type byte = b: int | 0 <= b < 256

  /** The 6-bit value a character stands for. */
  type Digit = d: int | 0 <= d < 64

  function DigitChar(d: Digit): (c: char)
    ensures c != '=' && !IsSkipped(c)
  {
    if d < 26 then ('A' as int + d) as char
    else if d < 52 then ('a' as int + d - 26) as char
    else if d < 62 then ('0' as int + d - 52) as char
    else if d == 62 then '+'
    else '/'
  }

  function DigitValue(c: char): (r: Option<Digit>)
    ensures r.Some? ==> DigitChar(r.value) == c
  {
    if 'A' <= c <= 'Z' then Some(c as int - 'A' as int)
    else if 'a' <= c <= 'z' then Some(c as int - 'a' as int + 26)
    else if '0' <= c <= '9' then Some(c as int - '0' as int + 52)
    else if c == '+' then Some(62)
    else if c == '/' then Some(63)
    else None
  }

  lemma DigitRoundTrip(d: Digit)
    ensures DigitValue(DigitChar(d)) == Some(d)
  {
  }

  /** The four digits of three bytes, most significant bits first. */
  function Split(b0: byte, b1: byte, b2: byte): (d: (Digit, Digit, Digit, Digit)) {
    (b0 / 4, (b0 % 4) * 16 + b1 / 16, (b1 % 16) * 4 + b2 / 64, b2 % 64)
  }

  /** The three bytes four digits carry. */
  function Join(d0: Digit, d1: Digit, d2: Digit, d3: Digit): (b: (byte, byte, byte)) {
    (d0 * 4 + d1 / 16, (d1 % 16) * 16 + d2 / 4, (d2 % 4) * 64 + d3)
  }

  lemma JoinSplit(b0: byte, b1: byte, b2: byte)
    ensures var (d0, d1, d2, d3) := Split(b0, b1, b2); Join(d0, d1, d2, d3) == (b0, b1, b2)
  {
    var (d0, d1, d2, d3) := Split(b0, b1, b2);
    assert d1 / 16 == b0 % 4 && d1 % 16 == b1 / 16;
    assert d2 / 4 == b1 % 16 && d2 % 4 == b2 / 64;
    assert d0 * 4 + b0 % 4 == b0;
    assert (b1 / 16) * 16 + b1 % 16 == b1;
    assert (b2 / 64) * 64 + d3 == b2;
  }

  function EncodeGroup(b0: byte, b1: byte, b2: byte): string {
    var (d0, d1, d2, d3) := Split(b0, b1, b2);
    [DigitChar(d0), DigitChar(d1), DigitChar(d2), DigitChar(d3)]
  }

  /** Convert.ToBase64String. */
  function Encode(bytes: seq<byte>): (s: string)
    ensures |s| % 4 == 0 && (|s| == 4 <==> 1 <= |bytes| <= 3) && (bytes == [] <==> s == [])
    decreases |bytes|
  {
    if |bytes| == 0 then ""
    else if |bytes| == 1 then EncodeGroup(bytes[0], 0, 0)[..2] + "=="
    else if |bytes| == 2 then EncodeGroup(bytes[0], bytes[1], 0)[..3] + "="
    else EncodeGroup(bytes[0], bytes[1], bytes[2]) + Encode(bytes[3..])
  }

  /** The characters FromBase64String skips. */
  predicate IsSkipped(c: char) {
    c == ' ' || c == '\t' || c == '\r' || c == '\n'
  }

  function Unspaced(s: string): (r: string)
    ensures forall i :: 0 <= i < |r| ==> !IsSkipped(r[i])
    ensures (forall i :: 0 <= i < |s| ==> !IsSkipped(s[i])) ==> r == s
  {
    if s == [] then []
    else if IsSkipped(s[0]) then Unspaced(s[1..])
    else [s[0]] + Unspaced(s[1..])
  }

  /** The bytes of one group of four characters; only the last group may be padded. */
  function DecodeGroup(g: string, last: bool): Option<seq<byte>>
    requires |g| == 4
  {
    var v0, v1, v2, v3 := DigitValue(g[0]), DigitValue(g[1]), DigitValue(g[2]), DigitValue(g[3]);
    if v0.None? || v1.None? then None
    else if last && g[2] == '=' && g[3] == '=' then
      var (b0, _, _) := Join(v0.value, v1.value, 0, 0);
      Some([b0])
    else if v2.None? then None
    else if last && g[3] == '=' then
      var (b0, b1, _) := Join(v0.value, v1.value, v2.value, 0);
      Some([b0, b1])
    else if v3.None? then None
    else
      var (b0, b1, b2) := Join(v0.value, v1.value, v2.value, v3.value);
      Some([b0, b1, b2])
  }

  function DecodeGroups(s: string): Option<seq<byte>>
    requires |s| % 4 == 0
    decreases |s|
  {
    if s == [] then Some([])
    else
      match DecodeGroup(s[..4], |s| == 4)
      case None => None
      case Some(head) =>
        match DecodeGroups(s[4..])
        case None => None
        case Some(tail) => Some(head + tail)
  }

  /** Convert.FromBase64String; None where it throws FormatException. */
  function Decode(s: string): (r: Option<seq<byte>>)
    ensures |Unspaced(s)| % 4 != 0 ==> r.None?
  {
    var t := Unspaced(s);
    if |t| % 4 != 0 then None else DecodeGroups(t)
  }

  lemma GroupRoundTrip(b0: byte, b1: byte, b2: byte, last: bool)
    ensures DecodeGroup(EncodeGroup(b0, b1, b2), last) == Some([b0, b1, b2])
  {
    var (d0, d1, d2, d3) := Split(b0, b1, b2);
    DigitRoundTrip(d0);
    DigitRoundTrip(d1);
    DigitRoundTrip(d2);
    DigitRoundTrip(d3);
    JoinSplit(b0, b1, b2);
  }

  lemma EncodeHasNoSkipped(bytes: seq<byte>)
    ensures forall i :: 0 <= i < |Encode(bytes)| ==> !IsSkipped(Encode(bytes)[i])
    decreases |bytes|
  {
    if |bytes| >= 3 {
      EncodeHasNoSkipped(bytes[3..]);
      var s := Encode(bytes);
      assert s == EncodeGroup(bytes[0], bytes[1], bytes[2]) + Encode(bytes[3..]);
    }
  }

  lemma OneByteRoundTrip(b0: byte)
    ensures DecodeGroup(Encode([b0]), true) == Some([b0])
  {
    var (d0, d1, _, _) := Split(b0, 0, 0);
    DigitRoundTrip(d0);
    DigitRoundTrip(d1);
    JoinSplit(b0, 0, 0);
    assert Encode([b0]) == [DigitChar(d0), DigitChar(d1), '=', '='];
  }

  lemma TwoBytesRoundTrip(b0: byte, b1: byte)
    ensures DecodeGroup(Encode([b0, b1]), true) == Some([b0, b1])
  {
    var (d0, d1, d2, _) := Split(b0, b1, 0);
    DigitRoundTrip(d0);
    DigitRoundTrip(d1);
    DigitRoundTrip(d2);
    JoinSplit(b0, b1, 0);
    assert Encode([b0, b1]) == [DigitChar(d0), DigitChar(d1), DigitChar(d2), '='];
  }

  lemma ShortRoundTrip(bytes: seq<byte>)
    requires 1 <= |bytes| <= 2
    ensures DecodeGroups(Encode(bytes)) == Some(bytes)
  {
    var s := Encode(bytes);
    if |bytes| == 1 {
      OneByteRoundTrip(bytes[0]);
      assert [bytes[0]] == bytes;
    } else {
      TwoBytesRoundTrip(bytes[0], bytes[1]);
      assert [bytes[0], bytes[1]] == bytes;
    }
    assert s[..4] == s && s[4..] == [];
    assert DecodeGroups(s[4..]) == Some([]);
    assert bytes + [] == bytes;
  }

  /** One full group in front of an encoding decodes to its three bytes in front. */
  lemma ConsGroup(bytes: seq<byte>, rest: seq<byte>)
    requires |bytes| >= 3 && rest == bytes[3..]
    requires DecodeGroups(Encode(rest)) == Some(rest)
    ensures DecodeGroups(Encode(bytes)) == Some(bytes)
  {
    var s := Encode(bytes);
    var g := EncodeGroup(bytes[0], bytes[1], bytes[2]);
    assert s == g + Encode(rest);
    assert s[..4] == g && s[4..] == Encode(rest);
    GroupRoundTrip(bytes[0], bytes[1], bytes[2], |s| == 4);
    assert [bytes[0], bytes[1], bytes[2]] + rest == bytes;
  }

  lemma {:induction false} GroupsRoundTrip(bytes: seq<byte>)
    ensures DecodeGroups(Encode(bytes)) == Some(bytes)
    decreases |bytes|
  {
    if |bytes| == 0 {
    } else if |bytes| <= 2 {
      ShortRoundTrip(bytes);
    } else {
      GroupsRoundTrip(bytes[3..]);
      ConsGroup(bytes, bytes[3..]);
    }
  }

  /** Four characters for every started group of three bytes. */
  lemma {:induction false} EncodedLength(bytes: seq<byte>)
    ensures |Encode(bytes)| == 4 * ((|bytes| + 2) / 3)
    decreases |bytes|
  {
    var n := |bytes|;
    if n >= 3 {
      EncodedLength(bytes[3..]);
      assert |Encode(bytes)| == 4 + |Encode(bytes[3..])|;
      assert (n - 3 + 2) / 3 + 1 == (n + 2) / 3;
    } else if n == 0 {
      assert Encode(bytes) == "";
    } else {
      assert |Encode(bytes)| == 4;
      assert (n + 2) / 3 == 1;
    }
  }

  /** Decoding what was encoded gives the bytes back. */
  lemma RoundTrip(bytes: seq<byte>)
    ensures Decode(Encode(bytes)) == Some(bytes)
  {
    var s := Encode(bytes);
    EncodeHasNoSkipped(bytes);
    assert Unspaced(s) == s;
    GroupsRoundTrip(bytes);
  }
}
