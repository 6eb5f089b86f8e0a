/** The standard base64 encoding with padding, as in section 4 of RFC 4648. */
module Base64 {
  type Byte = x: int | 0 <= x < 256
  type Bytes = seq<Byte>
  type Sextet = x: int | 0 <= x < 64

  function Digit(v: Sextet): char {
    if v < 26 then (65 + v) as char
    else if v < 52 then (97 + v - 26) as char
    else if v < 62 then (48 + v - 52) as char
    else if v == 62 then '+' else '/'
  }

  function Value(c: char): Sextet {
    if 'A' <= c <= 'Z' then c as int - 65
    else if 'a' <= c <= 'z' then c as int - 97 + 26
    else if '0' <= c <= '9' then c as int - 48 + 52
    else if c == '+' then 62
    else if c == '/' then 63
    else 0
  }

  /** The four digits of three bytes. */
  function Quad(x: Byte, y: Byte, z: Byte): string {
    [Digit(x / 4), Digit(x % 4 * 16 + y / 16), Digit(y % 16 * 4 + z / 64), Digit(z % 64)]
  }

  /** Three bytes as four digits, two or one as fewer digits and padding. */
  function Encode(s: Bytes): string {
    if s == [] then ""
    else if |s| == 1 then Quad(s[0], 0, 0)[..2] + "=="
    else if |s| == 2 then Quad(s[0], s[1], 0)[..3] + "="
    else Quad(s[0], s[1], s[2]) + Encode(s[3..])
  }

  function Decode(t: string): Bytes {
    if |t| < 4 then []
    else
      var a, b, c, d := Value(t[0]), Value(t[1]), Value(t[2]), Value(t[3]);
      if t[2] == '=' then [a * 4 + b / 16]
      else if t[3] == '=' then [a * 4 + b / 16, b % 16 * 16 + c / 4]
      else [a * 4 + b / 16, b % 16 * 16 + c / 4, c % 4 * 64 + d] + Decode(t[4..])
  }

  lemma ValueOfDigit(v: Sextet)
    ensures Value(Digit(v)) == v && Digit(v) != '='
  {
  }

  /** The values of the digits of three bytes, and the bytes they give back. */
  lemma QuadValues(x: Byte, y: Byte, z: Byte)
    ensures var q := Quad(x, y, z);
      var a, b, c, d := Value(q[0]), Value(q[1]), Value(q[2]), Value(q[3]);
      && q[2] != '=' && q[3] != '='
      && a * 4 + b / 16 == x && b % 16 * 16 + c / 4 == y && c % 4 * 64 + d == z
  {
    ValueOfDigit(x / 4);
    ValueOfDigit(x % 4 * 16 + y / 16);
    ValueOfDigit(y % 16 * 4 + z / 64);
    ValueOfDigit(z % 64);
  }

  lemma DecodeQuad(x: Byte, y: Byte, z: Byte, rest: string)
    ensures Decode(Quad(x, y, z) + rest) == [x, y, z] + Decode(rest)
  {
    QuadValues(x, y, z);
    assert (Quad(x, y, z) + rest)[4..] == rest;
  }

  lemma DecodePadded(x: Byte, y: Byte)
    ensures Decode(Quad(x, 0, 0)[..2] + "==") == [x]
    ensures Decode(Quad(x, y, 0)[..3] + "=") == [x, y]
  {
    QuadValues(x, 0, 0);
    QuadValues(x, y, 0);
  }

  /** Decoding undoes encoding on every byte string. */
  lemma {:induction false} RoundTrip(s: Bytes)
    ensures Decode(Encode(s)) == s
  {
    if |s| == 0 {
    } else if |s| <= 2 {
      DecodePadded(s[0], if |s| == 2 then s[1] else 0);
    } else {
      RoundTrip(s[3..]);
      DecodeQuad(s[0], s[1], s[2], Encode(s[3..]));
    }
  }

  // ----- the format

  predicate IsDigit(c: char) {
    'A' <= c <= 'Z' || 'a' <= c <= 'z' || '0' <= c <= '9' || c == '+' || c == '/'
  }

  /** The four digits of three bytes are the base-64 digits of the 24-bit number they form, most
      significant first. */
  lemma QuadIsTheNumber(x: Byte, y: Byte, z: Byte)
    ensures var q := Quad(x, y, z);
      Value(q[0]) * 262144 + Value(q[1]) * 4096 + Value(q[2]) * 64 + Value(q[3]) == x * 65536 + y * 256 + z
  {
    ValueOfDigit(x / 4);
    ValueOfDigit(x % 4 * 16 + y / 16);
    ValueOfDigit(y % 16 * 4 + z / 64);
    ValueOfDigit(z % 64);
  }

  /** The number of padding characters of n bytes. */
  function Padding(n: nat): nat {
    if n % 3 == 0 then 0 else 3 - n % 3
  }

  /** The i-th of n characters is a digit, or padding at the end. */
  predicate InPlace(c: char, i: nat, n: nat, padding: nat) {
    if i + padding >= n then c == '=' else IsDigit(c)
  }

  predicate WellFormed(t: string, padding: nat) {
    padding <= |t| && forall i :: 0 <= i < |t| ==> InPlace(t[i], i, |t|, padding)
  }

  lemma QuadFirst(x: Byte, y: Byte, z: Byte, rest: string, padding: nat)
    requires WellFormed(rest, padding)
    ensures WellFormed(Quad(x, y, z) + rest, padding)
  {
    var q := Quad(x, y, z);
    assert IsDigit(q[0]) && IsDigit(q[1]) && IsDigit(q[2]) && IsDigit(q[3]);
    var t := q + rest;
    forall i | 0 <= i < |t| ensures InPlace(t[i], i, |t|, padding) {
      if i < 4 {
        assert t[i] == q[i];
      } else {
        assert t[i] == rest[i - 4] && InPlace(rest[i - 4], i - 4, |rest|, padding);
      }
    }
  }

  lemma ShortShape(x: Byte, y: Byte)
    ensures WellFormed(Quad(x, 0, 0)[..2] + "==", 2) && WellFormed(Quad(x, y, 0)[..3] + "=", 1)
  {
    var q, r := Quad(x, 0, 0), Quad(x, y, 0);
    assert q[..2] + "==" == [q[0], q[1], '=', '='] && r[..3] + "=" == [r[0], r[1], r[2], '='];
  }

  lemma ThreeMore(n: nat)
    ensures (n + 3 + 2) / 3 * 4 == (n + 2) / 3 * 4 + 4 && Padding(n + 3) == Padding(n)
  {
  }

  /** The text has four characters for every three bytes begun, of which the last are padding, as many
      as bytes are missing, and all others digits; it is empty for no bytes only. */
  lemma {:induction false} EncodedShape(s: Bytes)
    ensures |Encode(s)| == (|s| + 2) / 3 * 4 && WellFormed(Encode(s), Padding(|s|))
    ensures Encode(s) == "" <==> s == []
  {
    if |s| == 0 {
    } else if |s| <= 2 {
      ShortShape(s[0], if |s| == 2 then s[1] else 0);
    } else {
      var rest := Encode(s[3..]);
      EncodedShape(s[3..]);
      ThreeMore(|s| - 3);
      QuadFirst(s[0], s[1], s[2], rest, Padding(|s|));
      assert Encode(s) == Quad(s[0], s[1], s[2]) + rest;
    }
  }

  /** Test vectors of section 10 of RFC 4648, and one for the last two digits. */
  lemma TestVectors()
    ensures Encode([102]) == "Zg==" && Encode([102, 111]) == "Zm8="
    ensures Encode([102, 111, 111]) == "Zm9v" && Encode([251, 255, 254]) == "+//+"
  {
    var foo: Bytes, high: Bytes := [102, 111, 111], [251, 255, 254];
    assert foo[3..] == [] && high[3..] == [];
  }

  lemma LongestTestVector()
    ensures Encode([102, 111, 111, 98, 97, 114]) == "Zm9vYmFy"
  {
    var foobar: Bytes, bar: Bytes := [102, 111, 111, 98, 97, 114], [98, 97, 114];
    assert foobar[3..] == bar && bar[3..] == [];
    assert Encode(bar) == "YmFy";
  }
}
