/** utils/utils.py: `encode_string_base64`, which ASCII-encodes a string,
    base64-encodes the bytes with the standard alphabet of section 4 of
    RFC 4648, and turns the base64 bytes back into a string. */
module Utils {
  import opened PyValues

  type Byte = x: int | 0 <= x < 256

  // ---------------------------------------------------------------- ASCII

  predicate IsAscii(s: string) {
    forall i :: 0 <= i < |s| ==> s[i] as int < 128
  }

  /** Index of the first character outside ASCII at or after `from`. */
  function FirstNonAscii(s: string, from: nat): (k: nat)
    requires from <= |s|
    ensures from <= k <= |s|
    ensures k < |s| ==> s[k] as int >= 128
    ensures forall i :: from <= i < k ==> s[i] as int < 128
    decreases |s| - from
  {
    if from == |s| || s[from] as int >= 128 then from else FirstNonAscii(s, from + 1)
  }

  /** `s.encode('ascii')`: one byte per character, or UnicodeEncodeError
      naming the position of the first character from 128 upwards. */
  function AsciiEncode(s: string): (r: Outcome<seq<Byte>>)
    ensures r.Returned? <==> IsAscii(s)
    ensures r.Returned? ==> |r.value| == |s| && forall i :: 0 <= i < |s| ==> r.value[i] == s[i] as int
  {
    var k := FirstNonAscii(s, 0);
    if k < |s| then
      var failed: Outcome<seq<Byte>> :=
        Raised(Exception(UnicodeEncodeError, [JStr("'ascii' codec can't encode character in position "
                                                   + IntToString(k) + ": ordinal not in range(128)")]));
      failed
    else
      Returned(Codes(s))
  }

  /** The character codes of an ASCII string. */
  function Codes(s: string): (r: seq<Byte>)
    requires IsAscii(s)
    ensures |r| == |s| && forall i :: 0 <= i < |s| ==> r[i] == s[i] as int
  {
    if s == [] then [] else [s[0] as int] + Codes(s[1..])
  }

  // ---------------------------------------------------------------- alphabet

  /** The characters `A-Z a-z 0-9 + /` of the base64 alphabet. */
  predicate InAlphabet(c: char) {
    ('A' <= c <= 'Z') || ('a' <= c <= 'z') || ('0' <= c <= '9') || c == '+' || c == '/'
  }

  /** The character that encodes the 6-bit value `v` (Table 1 of RFC 4648). */
  function Sextet(v: int): (c: char)
    requires 0 <= v < 64
    ensures InAlphabet(c)
  {
    if v < 26 then ('A' as int + v) as char
    else if v < 52 then ('a' as int + (v - 26)) as char
    else if v < 62 then ('0' as int + (v - 52)) as char
    else if v == 62 then '+'
    else '/'
  }

  /** The 6-bit value an alphabet character stands for. */
  function SextetValue(c: char): (v: int)
    requires InAlphabet(c)
    ensures 0 <= v < 64
  {
    if 'A' <= c <= 'Z' then c as int - 'A' as int
    else if 'a' <= c <= 'z' then c as int - 'a' as int + 26
    else if '0' <= c <= '9' then c as int - '0' as int + 52
    else if c == '+' then 62
    else 63
  }

  lemma SextetRoundTrip(v: int)
    requires 0 <= v < 64
    ensures SextetValue(Sextet(v)) == v
  {
  }

  // ---------------------------------------------------------------- encoding

  /** Number of `=` characters that end the encoding of `n` bytes. */
  function Padding(n: nat): nat {
    if n % 3 == 1 then 2 else if n % 3 == 2 then 1 else 0
  }

  /** The four characters that encode the three bytes `b0 b1 b2`. */
  function Quad(b0: Byte, b1: Byte, b2: Byte): (q: string)
    ensures |q| == 4 && forall i :: 0 <= i < 4 ==> InAlphabet(q[i])
  {
    [Sextet(b0 / 4), Sextet(b0 % 4 * 16 + b1 / 16), Sextet(b1 % 16 * 4 + b2 / 64), Sextet(b2 % 64)]
  }

  /** The base64 encoding of `bs`: each group of three bytes becomes four
      characters; a final group of one or two bytes is padded with `==` or `=`. */
  function Encode(bs: seq<Byte>): (r: string)
    ensures |r| == 0 <==> |bs| == 0
    ensures |bs| > 0 ==> |r| >= 4
    decreases |bs|
  {
    if |bs| == 0 then []
    else if |bs| == 1 then
      [Sextet(bs[0] / 4), Sextet(bs[0] % 4 * 16), '=', '=']
    else if |bs| == 2 then
      [Sextet(bs[0] / 4), Sextet(bs[0] % 4 * 16 + bs[1] / 16), Sextet(bs[1] % 16 * 4), '=']
    else
      Quad(bs[0], bs[1], bs[2]) + Encode(bs[3..])
  }

  /** Three bytes fewer: one group fewer, the same padding. */
  lemma ThreeStep(n: int)
    requires n >= 3
    ensures (n + 2) / 3 == (n - 1) / 3 + 1
    ensures n % 3 == (n - 3) % 3
  {
  }

  /** The encoding is alphabet characters followed by exactly the padding,
      four characters for every group of up to three bytes. */
  lemma {:induction false} EncodeShape(bs: seq<Byte>)
    ensures |Encode(bs)| == 4 * ((|bs| + 2) / 3)
    ensures Padding(|bs|) <= |Encode(bs)|
    ensures forall i :: 0 <= i < |Encode(bs)| - Padding(|bs|) ==> InAlphabet(Encode(bs)[i])
    ensures forall i :: |Encode(bs)| - Padding(|bs|) <= i < |Encode(bs)| ==> Encode(bs)[i] == '='
    decreases |bs|
  {
    if |bs| >= 3 {
      EncodeShape(bs[3..]);
      EncodeGroups(bs);
      var q, rest := Quad(bs[0], bs[1], bs[2]), Encode(bs[3..]);
      ThreeStep(|bs|);
      forall i | 4 <= i < |q + rest| ensures (q + rest)[i] == rest[i - 4] {
      }
    }
  }

  /** More than two bytes: the first group, then the encoding of the rest. */
  lemma EncodeGroups(bs: seq<Byte>)
    requires |bs| >= 3
    ensures Encode(bs) == Quad(bs[0], bs[1], bs[2]) + Encode(bs[3..])
  {
  }

  /** Decoding as in section 4 of RFC 4648: every four characters give back
      three bytes, fewer where the group ends in padding. None for text that
      is not a padded base64 encoding. */
  function Decode(s: string): Option<seq<Byte>>
    decreases |s|
  {
    if |s| == 0 then Some([])
    else if |s| < 4 || !InAlphabet(s[0]) || !InAlphabet(s[1]) then None
    else
      var a, b := SextetValue(s[0]), SextetValue(s[1]);
      if |s| == 4 && s[2] == '=' && s[3] == '=' then Some([a * 4 + b / 16])
      else if !InAlphabet(s[2]) then None
      else
        var c := SextetValue(s[2]);
        if |s| == 4 && s[3] == '=' then Some([a * 4 + b / 16, b % 16 * 16 + c / 4])
        else if !InAlphabet(s[3]) then None
        else
          var d := SextetValue(s[3]);
          match Decode(s[4..])
          case None => None
          case Some(rest) => Some([a * 4 + b / 16, b % 16 * 16 + c / 4, c % 4 * 64 + d] + rest)
  }

  /** The bit arithmetic of one group: splitting three bytes into four sextets
      and joining them again gives the bytes back. */
  lemma GroupRoundTrip(b0: Byte, b1: Byte, b2: Byte)
    ensures (b0 / 4) * 4 + (b0 % 4 * 16 + b1 / 16) / 16 == b0
    ensures (b0 % 4 * 16 + b1 / 16) % 16 * 16 + (b1 % 16 * 4 + b2 / 64) / 4 == b1
    ensures (b1 % 16 * 4 + b2 / 64) % 4 * 64 + b2 % 64 == b2
  {
  }

  /** A full group followed by more text decodes to its three bytes followed
      by whatever the rest decodes to. */
  lemma DecodeQuad(b0: Byte, b1: Byte, b2: Byte, s: string)
    ensures Decode(Quad(b0, b1, b2) + s) ==
            match Decode(s)
            case None => None
            case Some(rest) => Some([b0, b1, b2] + rest)
  {
    var t := Quad(b0, b1, b2) + s;
    SextetRoundTrip(b0 / 4);
    SextetRoundTrip(b0 % 4 * 16 + b1 / 16);
    SextetRoundTrip(b1 % 16 * 4 + b2 / 64);
    SextetRoundTrip(b2 % 64);
    GroupRoundTrip(b0, b1, b2);
    assert t[4..] == s;
    assert t[2] != '=' && t[3] != '=';
  }

  /** A final group of one byte decodes to that byte. */
  lemma DecodeSingle(b0: Byte)
    ensures Decode(Encode([b0])) == Some([b0])
  {
    var t := Encode([b0]);
    SextetRoundTrip(b0 / 4);
    SextetRoundTrip(b0 % 4 * 16);
    GroupRoundTrip(b0, 0, 0);
    assert t[2] == '=' && t[3] == '=';
  }

  /** A final group of two bytes decodes to those bytes. */
  lemma DecodePair(b0: Byte, b1: Byte)
    ensures Decode(Encode([b0, b1])) == Some([b0, b1])
  {
    var t := Encode([b0, b1]);
    SextetRoundTrip(b0 / 4);
    SextetRoundTrip(b0 % 4 * 16 + b1 / 16);
    SextetRoundTrip(b1 % 16 * 4);
    GroupRoundTrip(b0, b1, 0);
    assert t[2] != '=' && t[3] == '=';
  }

  /** Decoding an encoding gives the bytes back. */
  lemma {:induction false} DecodeEncode(bs: seq<Byte>)
    ensures Decode(Encode(bs)) == Some(bs)
    decreases |bs|
  {
    if |bs| == 1 {
      assert bs == [bs[0]];
      DecodeSingle(bs[0]);
    } else if |bs| == 2 {
      assert bs == [bs[0], bs[1]];
      DecodePair(bs[0], bs[1]);
    } else if |bs| >= 3 {
      EncodeGroups(bs);
      DecodeQuad(bs[0], bs[1], bs[2], Encode(bs[3..]));
      DecodeEncode(bs[3..]);
      FirstGroup(bs);
    }
  }

  lemma FirstGroup<T>(s: seq<T>)
    requires |s| >= 3
    ensures s == [s[0], s[1], s[2]] + s[3..]
  {
  }

  // ---------------------------------------------------------------- the utility

  /** `encode_string_base64(message)`. */
  function EncodeStringBase64(message: string): (r: Outcome<string>)
    ensures r.Returned? <==> IsAscii(message)
    ensures r.Returned? ==> |r.value| == 4 * ((|message| + 2) / 3)
    ensures r.Returned? ==> forall i :: 0 <= i < |r.value| - Padding(|message|) ==> InAlphabet(r.value[i])
    ensures r.Returned? ==> forall i :: |r.value| - Padding(|message|) <= i < |r.value| ==> r.value[i] == '='
    ensures r.Raised? ==> r.exc.cls == UnicodeEncodeError
  {
    var bytes :- AsciiEncode(message);
    EncodeShape(bytes);
    Returned(Encode(bytes))
  }

  /** Decoding the result gives back the character codes of the message. */
  lemma EncodeStringBase64RoundTrip(message: string)
    requires IsAscii(message)
    ensures EncodeStringBase64(message).Returned?
    ensures var d := Decode(EncodeStringBase64(message).value);
            d.Some? && |d.value| == |message| &&
            forall i :: 0 <= i < |message| ==> d.value[i] == message[i] as int
  {
    DecodeEncode(AsciiEncode(message).value);
  }

  /** The empty string encodes to the empty string. */
  lemma EncodeEmpty()
    ensures EncodeStringBase64("") == Returned("")
  {
  }

  /** One character: two `=`. */
  lemma EncodeOneChar()
    ensures EncodeStringBase64("a") == Returned("YQ==")
  {
    var a: seq<Byte> := [97];
    assert AsciiEncode("a").value == a;
    assert Sextet(24) == 'Y' && Sextet(16) == 'Q';
  }

  /** Two characters: one `=`. */
  lemma EncodeTwoChars()
    ensures EncodeStringBase64("ab") == Returned("YWI=")
  {
    var ab: seq<Byte> := [97, 98];
    assert AsciiEncode("ab").value == ab;
    assert Sextet(24) == 'Y' && Sextet(22) == 'W' && Sextet(8) == 'I';
  }

  /** Three characters: a full group, no padding. */
  lemma EncodeThreeChars()
    ensures EncodeStringBase64("abc") == Returned("YWJj")
  {
    var abc: seq<Byte> := [97, 98, 99];
    assert AsciiEncode("abc").value == abc;
    EncodeFullGroup();
  }

  lemma EncodeFullGroup()
    ensures Encode([97, 98, 99]) == "YWJj"
  {
    EncodeOneGroup(97, 98, 99);
    QuadOfAbc();
  }

  /** Three bytes encode to their one group. */
  lemma EncodeOneGroup(b0: Byte, b1: Byte, b2: Byte)
    ensures Encode([b0, b1, b2]) == Quad(b0, b1, b2)
  {
    var bs: seq<Byte> := [b0, b1, b2];
    assert bs[3..] == [];
    assert Encode(bs) == Quad(b0, b1, b2) + Encode([]);
  }

  /** The group of "abc", apart so that `EncodeFullGroup` stays cheap. */
  lemma QuadOfAbc()
    ensures Quad(97, 98, 99) == "YWJj"
  {
    assert 97 / 4 == 24 && 97 % 4 * 16 + 98 / 16 == 22 && 98 % 16 * 4 + 99 / 64 == 9 && 99 % 64 == 35;
    SextetsOfAbc();
  }

  /** The alphabet characters of that group, apart so that `QuadOfAbc` stays cheap. */
  lemma SextetsOfAbc()
    ensures Sextet(24) == 'Y' && Sextet(22) == 'W' && Sextet(9) == 'J' && Sextet(35) == 'j'
  {
  }
}
