/** The Base64 encoding of section 4 of RFC 4648, as `base64.b64encode`
    produces it: three bytes become four characters of the 64-character
    alphabet, and a final group of one or two bytes is padded with `=`. */
module Base64 {
  import opened Wrappers

  type byte = x: int | 0 <= x < 256

  /** The character for a 6-bit value (Table 1 of RFC 4648). */
  function Char(v: int): char
    requires 0 <= v < 64
  {
    if v < 26 then ('A' as int + v) as char
    else if v < 52 then ('a' as int + (v - 26)) as char
    else if v < 62 then ('0' as int + (v - 52)) as char
    else if v == 62 then '+'
    else '/'
  }

  /** The 6-bit value of an alphabet character; `None` outside the alphabet. */
  function Value(c: char): (r: Option<int>)
    ensures r.Some? ==> 0 <= r.value < 64 && Char(r.value) == c
  {
    if 'A' <= c <= 'Z' then Some(c as int - 'A' as int)
    else if 'a' <= c <= 'z' then Some(c as int - 'a' as int + 26)
    else if '0' <= c <= '9' then Some(c as int - '0' as int + 52)
    else if c == '+' then Some(62)
    else if c == '/' then Some(63)
    else None
  }

  lemma ValueOfChar(v: int)
    requires 0 <= v < 64
    ensures Value(Char(v)) == Some(v)
  {
  }

  predicate InAlphabet(c: char) { Value(c).Some? }

  /** `base64.b64encode(b).decode("utf-8")` */
  function Encode(b: seq<byte>): (s: string)
    ensures |s| == 4 * ((|b| + 2) / 3)
    decreases |b|
  {
    if |b| == 0 then []
    else if |b| == 1 then
      [Char(b[0] / 4), Char(b[0] % 4 * 16), '=', '=']
    else if |b| == 2 then
      [Char(b[0] / 4), Char(b[0] % 4 * 16 + b[1] / 16), Char(b[1] % 16 * 4), '=']
    else
      [Char(b[0] / 4), Char(b[0] % 4 * 16 + b[1] / 16), Char(b[1] % 16 * 4 + b[2] / 64), Char(b[2] % 64)]
      + Encode(b[3..])
  }

  /** Decoding of one four-character group; padding is accepted only in the
      final group, and the bits the padding leaves over must be zero
      (section 3.5 of RFC 4648), so each byte string has one encoding. */
  function DecodeGroup(c0: char, c1: char, c2: char, c3: char, final: bool): (r: Option<seq<byte>>)
  {
    var v0 :- Value(c0);
    var v1 :- Value(c1);
    if final && c2 == '=' && c3 == '=' then
      if v1 % 16 != 0 then None else Some([v0 * 4 + v1 / 16])
    else
      var v2 :- Value(c2);
      if final && c3 == '=' then
        if v2 % 4 != 0 then None else Some([v0 * 4 + v1 / 16, v1 % 16 * 16 + v2 / 4])
      else
        var v3 :- Value(c3);
        Some([v0 * 4 + v1 / 16, v1 % 16 * 16 + v2 / 4, v2 % 4 * 64 + v3])
  }

  /** Decoding of padded Base64 text; `None` for text that is not of that form. */
  function Decode(s: string): (r: Option<seq<byte>>)
    decreases |s|
  {
    if |s| == 0 then Some([])
    else if |s| < 4 then None
    else
      var group :- DecodeGroup(s[0], s[1], s[2], s[3], |s| == 4);
      var rest :- Decode(s[4..]);
      Some(group + rest)
  }

  /** Every encoded character is in the alphabet, except for the padding,
      which only ever ends the text. */
  lemma {:induction false} EncodeAlphabet(b: seq<byte>)
    ensures forall i :: 0 <= i < |Encode(b)| ==>
      InAlphabet(Encode(b)[i]) || (Encode(b)[i] == '=' && i >= |Encode(b)| - 2)
    decreases |b|
  {
    if |b| >= 3 {
      EncodeAlphabet(b[3..]);
      var s := Encode(b);
      assert s[4..] == Encode(b[3..]);
      forall i | 0 <= i < 4 ensures InAlphabet(s[i]) {
        ValueOfChar(Value(s[i]).value);
      }
    }
  }

  /** The bit arithmetic of one group: the decoding formulas undo the encoding ones. */
  lemma GroupArithmetic(x: byte, y: byte, z: byte)
    ensures x / 4 * 4 + (x % 4 * 16 + y / 16) / 16 == x
    ensures (x % 4 * 16 + y / 16) % 16 * 16 + (y % 16 * 4 + z / 64) / 4 == y
    ensures (y % 16 * 4 + z / 64) % 4 * 64 + z % 64 == z
  {
  }

  lemma DecodeFullGroup(x: byte, y: byte, z: byte, final: bool)
    ensures DecodeGroup(Char(x / 4), Char(x % 4 * 16 + y / 16), Char(y % 16 * 4 + z / 64), Char(z % 64), final)
      == Some([x, y, z])
  {
    GroupArithmetic(x, y, z);
    ValueOfChar(x / 4);
    ValueOfChar(x % 4 * 16 + y / 16);
    ValueOfChar(y % 16 * 4 + z / 64);
    ValueOfChar(z % 64);
  }

  lemma DecodeTwoByteGroup(x: byte, y: byte)
    ensures DecodeGroup(Char(x / 4), Char(x % 4 * 16 + y / 16), Char(y % 16 * 4), '=', true) == Some([x, y])
  {
    GroupArithmetic(x, y, 0);
    assert (y % 16 * 4) % 4 == 0;
    ValueOfChar(x / 4);
    ValueOfChar(x % 4 * 16 + y / 16);
    ValueOfChar(y % 16 * 4);
  }

  lemma DecodeOneByteGroup(x: byte)
    ensures DecodeGroup(Char(x / 4), Char(x % 4 * 16), '=', '=', true) == Some([x])
  {
    GroupArithmetic(x, 0, 0);
    assert (x % 4 * 16) % 16 == 0;
    ValueOfChar(x / 4);
    ValueOfChar(x % 4 * 16);
  }

  /** A single four-character group decodes as a final group. */
  lemma DecodeLastGroup(s: string)
    requires |s| == 4
    ensures Decode(s) == DecodeGroup(s[0], s[1], s[2], s[3], true)
  {
    assert s[4..] == [];
    var group := DecodeGroup(s[0], s[1], s[2], s[3], true);
    if group.Some? {
      assert group.value + [] == group.value;
    }
  }

  lemma DecodeEncodeOne(b: seq<byte>)
    requires |b| == 1
    ensures Decode(Encode(b)) == Some(b)
  {
    var s := [Char(b[0] / 4), Char(b[0] % 4 * 16), '=', '='];
    assert Encode(b) == s;
    DecodeLastGroup(s);
    DecodeOneByteGroup(b[0]);
    assert [b[0]] == b;
  }

  lemma DecodeEncodeTwo(b: seq<byte>)
    requires |b| == 2
    ensures Decode(Encode(b)) == Some(b)
  {
    var x, y := b[0], b[1];
    var s := [Char(x / 4), Char(x % 4 * 16 + y / 16), Char(y % 16 * 4), '='];
    assert Encode(b) == s;
    DecodeLastGroup(s);
    DecodeTwoByteGroup(x, y);
    assert [x, y] == b;
  }

  /** The round trip: decoding what was encoded gives the bytes back. */
  lemma {:induction false} DecodeEncode(b: seq<byte>)
    ensures Decode(Encode(b)) == Some(b)
    decreases |b|
  {
    if |b| == 1 {
      DecodeEncodeOne(b);
    } else if |b| == 2 {
      DecodeEncodeTwo(b);
    } else if |b| >= 3 {
      var s := Encode(b);
      DecodeFullGroup(b[0], b[1], b[2], |s| == 4);
      DecodeEncode(b[3..]);
      assert s[4..] == Encode(b[3..]);
      assert [b[0], b[1], b[2]] + b[3..] == b;
    }
  }

  /** The encoding formulas undo the decoding ones, for a group of one, two and three bytes. */
  lemma EncodeOneByteValues(v0: int, v1: int)
    requires 0 <= v0 < 64 && 0 <= v1 < 64 && v1 % 16 == 0
    ensures var x := v0 * 4 + v1 / 16; 0 <= x < 256 && x / 4 == v0 && x % 4 * 16 == v1
  {
  }

  lemma EncodeTwoByteValues(v0: int, v1: int, v2: int)
    requires 0 <= v0 < 64 && 0 <= v1 < 64 && 0 <= v2 < 64 && v2 % 4 == 0
    ensures var x, y := v0 * 4 + v1 / 16, v1 % 16 * 16 + v2 / 4;
      0 <= x < 256 && 0 <= y < 256 && x / 4 == v0 && x % 4 * 16 + y / 16 == v1 && y % 16 * 4 == v2
  {
  }

  lemma EncodeThreeByteValues(v0: int, v1: int, v2: int, v3: int)
    requires 0 <= v0 < 64 && 0 <= v1 < 64 && 0 <= v2 < 64 && 0 <= v3 < 64
    ensures var x, y, z := v0 * 4 + v1 / 16, v1 % 16 * 16 + v2 / 4, v2 % 4 * 64 + v3;
      0 <= x < 256 && 0 <= y < 256 && 0 <= z < 256
      && x / 4 == v0 && x % 4 * 16 + y / 16 == v1 && y % 16 * 4 + z / 64 == v2 && z % 64 == v3
  {
  }

  /** The group of one, two or three bytes that characters of the alphabet decode to encodes as those characters. */
  lemma EncodeOneByteGroup(c0: char, c1: char)
    requires Value(c0).Some? && Value(c1).Some? && Value(c1).value % 16 == 0
    ensures Encode([Value(c0).value * 4 + Value(c1).value / 16]) == [c0, c1, '=', '=']
  {
    EncodeOneByteValues(Value(c0).value, Value(c1).value);
  }

  lemma EncodeTwoByteGroup(c0: char, c1: char, c2: char)
    requires Value(c0).Some? && Value(c1).Some? && Value(c2).Some? && Value(c2).value % 4 == 0
    ensures var v0, v1, v2 := Value(c0).value, Value(c1).value, Value(c2).value;
      Encode([v0 * 4 + v1 / 16, v1 % 16 * 16 + v2 / 4]) == [c0, c1, c2, '=']
  {
    EncodeTwoByteValues(Value(c0).value, Value(c1).value, Value(c2).value);
  }

  lemma EncodeThreeByteGroup(c0: char, c1: char, c2: char, c3: char)
    requires Value(c0).Some? && Value(c1).Some? && Value(c2).Some? && Value(c3).Some?
    ensures var v0, v1, v2, v3 := Value(c0).value, Value(c1).value, Value(c2).value, Value(c3).value;
      Encode([v0 * 4 + v1 / 16, v1 % 16 * 16 + v2 / 4, v2 % 4 * 64 + v3]) == [c0, c1, c2, c3]
  {
    var v0, v1, v2, v3 := Value(c0).value, Value(c1).value, Value(c2).value, Value(c3).value;
    EncodeThreeByteValues(v0, v1, v2, v3);
    var g := [v0 * 4 + v1 / 16, v1 % 16 * 16 + v2 / 4, v2 % 4 * 64 + v3];
    assert g[3..] == [];
  }

  /** A group that decodes is the encoding of what it decodes to. */
  lemma EncodeDecodedGroup(c0: char, c1: char, c2: char, c3: char, final: bool)
    requires DecodeGroup(c0, c1, c2, c3, final).Some?
    ensures var g := DecodeGroup(c0, c1, c2, c3, final).value;
      && 1 <= |g| <= 3 && (!final ==> |g| == 3)
      && Encode(g) == [c0, c1, c2, c3]
  {
    if final && c2 == '=' && c3 == '=' {
      EncodeOneByteGroup(c0, c1);
    } else if final && c3 == '=' {
      EncodeTwoByteGroup(c0, c1, c2);
    } else {
      EncodeThreeByteGroup(c0, c1, c2, c3);
    }
  }

  /** Encoding is the only text that decodes to a byte string: whatever
      decodes to `b` is `Encode(b)`. */
  lemma {:induction false} DecodedIsEncoding(s: string)
    requires Decode(s).Some?
    ensures s == Encode(Decode(s).value)
    decreases |s|
  {
    if |s| == 4 {
      DecodedGroupIsEncoding(s);
    } else if |s| > 4 {
      DecodeNonFinal(s);
      var g := DecodeGroup(s[0], s[1], s[2], s[3], false).value;
      var rest := Decode(s[4..]).value;
      EncodeDecodedGroup(s[0], s[1], s[2], s[3], false);
      DecodedIsEncoding(s[4..]);
      JoinGroupEncoding(s, g, rest);
    }
  }

  /** A full group whose encoding is the first four characters, followed by bytes encoding the rest, encodes the whole. */
  lemma JoinGroupEncoding(s: string, g: seq<byte>, rest: seq<byte>)
    requires |s| > 4 && |g| == 3
    requires Encode(g) == [s[0], s[1], s[2], s[3]] && Encode(rest) == s[4..]
    ensures Encode(g + rest) == s
  {
    EncodeFullGroupThen(g, rest);
    assert s == [s[0], s[1], s[2], s[3]] + s[4..];
  }

  lemma DecodedGroupIsEncoding(s: string)
    requires |s| == 4 && Decode(s).Some?
    ensures s == Encode(Decode(s).value)
  {
    DecodeLastGroup(s);
    EncodeDecodedGroup(s[0], s[1], s[2], s[3], true);
    assert s == [s[0], s[1], s[2], s[3]];
  }

  /** Text longer than one group decodes group by group. */
  lemma DecodeNonFinal(s: string)
    requires |s| > 4 && Decode(s).Some?
    ensures DecodeGroup(s[0], s[1], s[2], s[3], false).Some? && Decode(s[4..]).Some?
    ensures Decode(s).value == DecodeGroup(s[0], s[1], s[2], s[3], false).value + Decode(s[4..]).value
  {
  }

  /** Encoding three bytes and then more is encoding each part in turn. */
  lemma EncodeFullGroupThen(g: seq<byte>, rest: seq<byte>)
    requires |g| == 3
    ensures Encode(g + rest) == Encode(g) + Encode(rest)
  {
    var b := g + rest;
    assert b[..3] == g && b[3..] == rest;
    assert g[3..] == [];
  }

  /** The two directions together: `s` decodes to `b` exactly when `s` is the
      encoding of `b`. */
  lemma DecodeIffEncode(s: string, b: seq<byte>)
    ensures Decode(s) == Some(b) <==> s == Encode(b)
  {
    if Decode(s) == Some(b) {
      DecodedIsEncoding(s);
    }
    if s == Encode(b) {
      DecodeEncode(b);
    }
  }
}
