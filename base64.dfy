/**
 * Base64 as in section 4 of RFC 4648, the encoding `btoa` produces: each
 * three bytes become four characters of the 64-character alphabet, and a
 * short final group is padded with '='. The decoder is the strict one:
 * only padded text whose unused bits are zero is accepted.
 */
module Base64 {
  import opened Common

  type Byte = b: nat | b < 256

  /** The character for a 6-bit value. */
  function CharOf(i: nat): (c: char)
    requires i < 64
  {
    if i < 26 then ('A' as int + i) as char
    else if i < 52 then ('a' as int + i - 26) as char
    else if i < 62 then ('0' as int + i - 52) as char
    else if i == 62 then '+'
    else '/'
  }

  predicate IsAlphabet(c: char) {
    'A' <= c <= 'Z' || 'a' <= c <= 'z' || '0' <= c <= '9' || c == '+' || c == '/'
  }

  /** The 6-bit value of an alphabet character. */
  function ValueOf(c: char): (i: nat)
    requires IsAlphabet(c)
    ensures i < 64
  {
    if 'A' <= c <= 'Z' then c as int - 'A' as int
    else if 'a' <= c <= 'z' then c as int - 'a' as int + 26
    else if '0' <= c <= '9' then c as int - '0' as int + 52
    else if c == '+' then 62
    else 63
  }

  lemma CharValue(i: nat)
    requires i < 64
    ensures IsAlphabet(CharOf(i)) && ValueOf(CharOf(i)) == i
  {
  }

  lemma ValueChar(c: char)
    requires IsAlphabet(c)
    ensures CharOf(ValueOf(c)) == c
  {
  }

  /** Splitting a number into a high and a low part and joining them again, for the three widths used. */
  lemma Parts(hi: nat, lo: nat, k: nat)
    requires k == 4 || k == 16 || k == 64
    requires lo < k
    ensures (hi * k + lo) / k == hi && (hi * k + lo) % k == lo
  {
    if k == 4 {
      assert (hi * 4 + lo) / 4 == hi && (hi * 4 + lo) % 4 == lo;
    } else if k == 16 {
      assert (hi * 16 + lo) / 16 == hi && (hi * 16 + lo) % 16 == lo;
    } else {
      assert (hi * 64 + lo) / 64 == hi && (hi * 64 + lo) % 64 == lo;
    }
  }

  /** A full group: three bytes as four characters. */
  function Quad3(b0: Byte, b1: Byte, b2: Byte): string {
    [CharOf(b0 / 4), CharOf(b0 % 4 * 16 + b1 / 16), CharOf(b1 % 16 * 4 + b2 / 64), CharOf(b2 % 64)]
  }

  /** A final group of two bytes, padded with one '='. */
  function Quad2(b0: Byte, b1: Byte): string {
    [CharOf(b0 / 4), CharOf(b0 % 4 * 16 + b1 / 16), CharOf(b1 % 16 * 4), '=']
  }

  /** A final group of one byte, padded with two '='. */
  function Quad1(b0: Byte): string {
    [CharOf(b0 / 4), CharOf(b0 % 4 * 16), '=', '=']
  }

  function Encode(bytes: seq<Byte>): (text: string)
    ensures |text| % 4 == 0
    ensures |text| == 0 <==> |bytes| == 0
    decreases |bytes|
  {
    if |bytes| == 0 then ""
    else if |bytes| == 1 then Quad1(bytes[0])
    else if |bytes| == 2 then Quad2(bytes[0], bytes[1])
    else Quad3(bytes[0], bytes[1], bytes[2]) + Encode(bytes[3..])
  }

  /** Four characters for every started group of three bytes. */
  lemma {:induction false} EncodedLength(bytes: seq<Byte>)
    ensures |Encode(bytes)| == (|bytes| + 2) / 3 * 4
    decreases |bytes|
  {
    if |bytes| > 2 {
      EncodedLength(bytes[3..]);
      assert (|bytes| + 2) / 3 == (|bytes[3..]| + 2) / 3 + 1;
    }
  }

  /** One group of four characters; `last` allows the padded forms. */
  function DecodeGroup(g: string, last: bool): Option<seq<Byte>>
    requires |g| == 4
  {
    if !IsAlphabet(g[0]) || !IsAlphabet(g[1]) then None
    else
      var c0 := ValueOf(g[0]);
      var c1 := ValueOf(g[1]);
      if last && g[2] == '=' && g[3] == '=' then
        if c1 % 16 == 0 then Some([c0 * 4 + c1 / 16]) else None
      else if !IsAlphabet(g[2]) then None
      else
        var c2 := ValueOf(g[2]);
        if last && g[3] == '=' then
          if c2 % 4 == 0 then Some([c0 * 4 + c1 / 16, c1 % 16 * 16 + c2 / 4]) else None
        else if !IsAlphabet(g[3]) then None
        else Some([c0 * 4 + c1 / 16, c1 % 16 * 16 + c2 / 4, c2 % 4 * 64 + ValueOf(g[3])])
  }

  function Decode(text: string): Option<seq<Byte>>
    decreases |text|
  {
    if |text| == 0 then Some([])
    else if |text| < 4 then None
    else
      match DecodeGroup(text[..4], |text| == 4)
      case None => None
      case Some(group) =>
        match Decode(text[4..])
        case None => None
        case Some(rest) => Some(group + rest)
  }

  lemma DecodeQuad3(b0: Byte, b1: Byte, b2: Byte, last: bool)
    ensures DecodeGroup(Quad3(b0, b1, b2), last) == Some([b0, b1, b2])
  {
    CharValue(b0 / 4);
    CharValue(b0 % 4 * 16 + b1 / 16);
    CharValue(b1 % 16 * 4 + b2 / 64);
    CharValue(b2 % 64);
    Parts(b0 / 4, b0 % 4, 4);
    Parts(b0 % 4, b1 / 16, 16);
    Parts(b1 / 16, b1 % 16, 16);
    Parts(b1 % 16, b2 / 64, 4);
    Parts(b2 / 64, b2 % 64, 64);
  }

  lemma DecodeQuad2(b0: Byte, b1: Byte)
    ensures DecodeGroup(Quad2(b0, b1), true) == Some([b0, b1])
  {
    CharValue(b0 / 4);
    CharValue(b0 % 4 * 16 + b1 / 16);
    CharValue(b1 % 16 * 4);
    Parts(b0 / 4, b0 % 4, 4);
    Parts(b0 % 4, b1 / 16, 16);
    Parts(b1 / 16, b1 % 16, 16);
    Parts(b1 % 16, 0, 4);
  }

  lemma DecodeQuad1(b0: Byte)
    ensures DecodeGroup(Quad1(b0), true) == Some([b0])
  {
    CharValue(b0 / 4);
    CharValue(b0 % 4 * 16);
    Parts(b0 / 4, b0 % 4, 4);
    Parts(b0 % 4, 0, 16);
  }

  /** Text decodes group by group. */
  lemma DecodeCons(g: string, rest: string, group: seq<Byte>, tail: seq<Byte>)
    requires |g| == 4 && DecodeGroup(g, |rest| == 0) == Some(group) && Decode(rest) == Some(tail)
    ensures Decode(g + rest) == Some(group + tail)
  {
    assert (g + rest)[..4] == g && (g + rest)[4..] == rest;
  }

  /** Decoding what was encoded gives the bytes back. */
  lemma {:induction false} DecodeEncode(bytes: seq<Byte>)
    ensures Decode(Encode(bytes)) == Some(bytes)
    decreases |bytes|
  {
    if |bytes| == 1 {
      DecodeOne(bytes);
    } else if |bytes| == 2 {
      DecodeTwo(bytes);
    } else if |bytes| > 2 {
      DecodeEncode(bytes[3..]);
      DecodeThree(bytes);
    }
  }

  lemma DecodeThree(bytes: seq<Byte>)
    requires |bytes| > 2 && Decode(Encode(bytes[3..])) == Some(bytes[3..])
    ensures Decode(Encode(bytes)) == Some(bytes)
  {
    var rest := Encode(bytes[3..]);
    DecodeQuad3(bytes[0], bytes[1], bytes[2], |rest| == 0);
    DecodeCons(Quad3(bytes[0], bytes[1], bytes[2]), rest, [bytes[0], bytes[1], bytes[2]], bytes[3..]);
    SplitThree(bytes);
  }

  lemma SplitThree(bytes: seq<Byte>)
    requires |bytes| > 2
    ensures bytes == [bytes[0], bytes[1], bytes[2]] + bytes[3..]
  {
    var front := [bytes[0], bytes[1], bytes[2]];
    assert forall k :: 0 <= k < |bytes| ==> bytes[k] == (front + bytes[3..])[k];
  }

  lemma DecodeOne(bytes: seq<Byte>)
    requires |bytes| == 1
    ensures Decode(Encode(bytes)) == Some(bytes)
  {
    DecodeQuad1(bytes[0]);
    DecodeCons(Quad1(bytes[0]), "", [bytes[0]], []);
    assert Quad1(bytes[0]) + "" == Quad1(bytes[0]) == Encode(bytes);
    assert [bytes[0]] + [] == bytes;
  }

  lemma DecodeTwo(bytes: seq<Byte>)
    requires |bytes| == 2
    ensures Decode(Encode(bytes)) == Some(bytes)
  {
    DecodeQuad2(bytes[0], bytes[1]);
    DecodeCons(Quad2(bytes[0], bytes[1]), "", [bytes[0], bytes[1]], []);
    assert Quad2(bytes[0], bytes[1]) + "" == Quad2(bytes[0], bytes[1]) == Encode(bytes);
    assert [bytes[0], bytes[1]] + [] == bytes;
  }

  /** A group that decodes is the encoding of what it decodes to. */
  lemma EncodeGroup(g: string, last: bool)
    requires |g| == 4 && DecodeGroup(g, last).Some?
    ensures var bs := DecodeGroup(g, last).value;
      && 1 <= |bs| <= 3
      && (|bs| < 3 ==> last)
      && (|bs| == 1 ==> Quad1(bs[0]) == g)
      && (|bs| == 2 ==> Quad2(bs[0], bs[1]) == g)
      && (|bs| == 3 ==> Quad3(bs[0], bs[1], bs[2]) == g)
  {
    if last && g[2] == '=' && g[3] == '=' {
      EncodeGroup1(g);
    } else if last && g[3] == '=' {
      EncodeGroup2(g);
    } else {
      EncodeGroup3(g);
    }
  }

  lemma EncodeGroup1(g: string)
    requires |g| == 4 && IsAlphabet(g[0]) && IsAlphabet(g[1]) && g[2] == '=' && g[3] == '='
    requires ValueOf(g[1]) % 16 == 0
    ensures Quad1(ValueOf(g[0]) * 4 + ValueOf(g[1]) / 16) == g
  {
    var c0 := ValueOf(g[0]);
    var c1 := ValueOf(g[1]);
    ValueChar(g[0]);
    ValueChar(g[1]);
    Parts(c0, c1 / 16, 4);
    Parts(c1 / 16, c1 % 16, 16);
  }

  lemma EncodeGroup2(g: string)
    requires |g| == 4 && IsAlphabet(g[0]) && IsAlphabet(g[1]) && IsAlphabet(g[2]) && g[3] == '='
    requires ValueOf(g[2]) % 4 == 0
    ensures var c0, c1, c2 := ValueOf(g[0]), ValueOf(g[1]), ValueOf(g[2]);
      Quad2(c0 * 4 + c1 / 16, c1 % 16 * 16 + c2 / 4) == g
  {
    var c0 := ValueOf(g[0]);
    var c1 := ValueOf(g[1]);
    var c2 := ValueOf(g[2]);
    ValueChar(g[0]);
    ValueChar(g[1]);
    ValueChar(g[2]);
    Parts(c0, c1 / 16, 4);
    Parts(c1 / 16, c1 % 16, 16);
    Parts(c1 % 16, c2 / 4, 16);
    Parts(c2 / 4, c2 % 4, 4);
  }

  lemma EncodeGroup3(g: string)
    requires |g| == 4 && IsAlphabet(g[0]) && IsAlphabet(g[1]) && IsAlphabet(g[2]) && IsAlphabet(g[3])
    ensures var c0, c1, c2, c3 := ValueOf(g[0]), ValueOf(g[1]), ValueOf(g[2]), ValueOf(g[3]);
      Quad3(c0 * 4 + c1 / 16, c1 % 16 * 16 + c2 / 4, c2 % 4 * 64 + c3) == g
  {
    var c0, c1, c2, c3 := ValueOf(g[0]), ValueOf(g[1]), ValueOf(g[2]), ValueOf(g[3]);
    Group3Values(c0, c1, c2, c3);
    CharsOfValues(g);
  }

  /** Four alphabet characters are the characters of their values. */
  lemma CharsOfValues(g: string)
    requires |g| == 4 && IsAlphabet(g[0]) && IsAlphabet(g[1]) && IsAlphabet(g[2]) && IsAlphabet(g[3])
    ensures [CharOf(ValueOf(g[0])), CharOf(ValueOf(g[1])), CharOf(ValueOf(g[2])), CharOf(ValueOf(g[3]))] == g
  {
    ValueChar(g[0]);
    ValueChar(g[1]);
    ValueChar(g[2]);
    ValueChar(g[3]);
  }

  /** The arithmetic of a full group: four 6-bit values into three bytes and back. */
  lemma Group3Values(c0: nat, c1: nat, c2: nat, c3: nat)
    requires c0 < 64 && c1 < 64 && c2 < 64 && c3 < 64
    ensures var b0, b1, b2 := c0 * 4 + c1 / 16, c1 % 16 * 16 + c2 / 4, c2 % 4 * 64 + c3;
      && b0 < 256 && b1 < 256 && b2 < 256
      && b0 / 4 == c0 && b0 % 4 * 16 + b1 / 16 == c1 && b1 % 16 * 4 + b2 / 64 == c2 && b2 % 64 == c3
  {
    Parts(c0, c1 / 16, 4);
    Parts(c1 % 16, c2 / 4, 16);
    Parts(c2 % 4, c3, 64);
  }

  /** Encoding what decodes gives the text back: the decoder accepts only canonical text. */
  lemma {:induction false} EncodeDecode(text: string)
    requires Decode(text).Some?
    ensures Encode(Decode(text).value) == text
    decreases |text|
  {
    if |text| > 0 {
      var g := text[..4];
      var last := |text| == 4;
      var group := DecodeGroup(g, last).value;
      EncodeGroup(g, last);
      if |group| < 3 {
        assert text == g;
      } else {
        var rest := Decode(text[4..]).value;
        EncodeDecode(text[4..]);
        var bytes := group + rest;
        assert bytes[3..] == rest;
        assert text == g + text[4..];
        if |bytes| == 3 {
          assert rest == [] && text[4..] == "";
        }
      }
    }
  }

  /** `btoa`: None where a character is above U+00FF, which makes `btoa` throw. */
  function Btoa(s: string): (r: Option<string>)
    ensures r.Some? <==> forall k :: 0 <= k < |s| ==> s[k] as int < 256
  {
    if forall k :: 0 <= k < |s| ==> s[k] as int < 256 then
      Some(Encode(seq(|s|, k requires 0 <= k < |s| => s[k] as int as Byte)))
    else None
  }

  /** `atob` on canonical text. */
  function Atob(t: string): Option<string> {
    match Decode(t)
    case None => None
    case Some(bytes) => Some(seq(|bytes|, k requires 0 <= k < |bytes| => bytes[k] as char))
  }

  /** `atob(btoa(s)) == s` for every text `btoa` accepts. */
  lemma AtobBtoa(s: string)
    requires Btoa(s).Some?
    ensures Atob(Btoa(s).value) == Some(s)
  {
    var bytes := seq(|s|, k requires 0 <= k < |s| => s[k] as int as Byte);
    DecodeEncode(bytes);
    assert Atob(Encode(bytes)).value == s;
  }
}
