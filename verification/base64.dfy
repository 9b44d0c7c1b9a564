/** The standard base64 encoding of section 4 of RFC 4648, with padding, as Go's
    `base64.StdEncoding` implements it: `EncodeToString` and `DecodeString`. */
module Base64 {
  import opened GoBase

  const Pad: byte := 61  // '='
  const CR: byte := 13   // '\r'
  const LF: byte := 10   // '\n'

  /** The character of a 6-bit value in the standard alphabet (Table 1 of RFC 4648). */
  function EncodeSextet(v: int): (c: byte)
    requires 0 <= v < 64
  {
    if v < 26 then 65 + v             // 'A'..'Z'
    else if v < 52 then 97 + (v - 26) // 'a'..'z'
    else if v < 62 then 48 + (v - 52) // '0'..'9'
    else if v == 62 then 43           // '+'
    else 47                           // '/'
  }

  /** Whether a byte is one of the 64 characters of the standard alphabet. */
  predicate IsAlphabet(c: byte) {
    (65 <= c <= 90) || (97 <= c <= 122) || (48 <= c <= 57) || c == 43 || c == 47
  }

  /** The 6-bit value of an alphabet character; it is the one value that encodes to it. */
  function DecodeSextet(c: byte): (v: int)
    requires IsAlphabet(c)
    ensures 0 <= v < 64 && EncodeSextet(v) == c
  {
    if 65 <= c <= 90 then c - 65
    else if 97 <= c <= 122 then c - 97 + 26
    else if 48 <= c <= 57 then c - 48 + 52
    else if c == 43 then 62
    else 63
  }

  lemma SextetRoundTrip(v: int)
    requires 0 <= v < 64
    ensures IsAlphabet(EncodeSextet(v)) && DecodeSextet(EncodeSextet(v)) == v
  {
  }

  /** Four characters for three bytes. */
  function EncodeQuantum(x: byte, y: byte, z: byte): seq<byte> {
    [EncodeSextet(x / 4), EncodeSextet((x % 4) * 16 + y / 16),
     EncodeSextet((y % 16) * 4 + z / 64), EncodeSextet(z % 64)]
  }

  /** `base64.StdEncoding.EncodeToString`: the encoding is four characters per
      three bytes (the last group padded with '='), and every character is in the
      alphabet or is the padding character. */
  function Encode(b: Bytes): (s: Str)
    ensures |s| == 4 * ((|b| + 2) / 3)
    ensures forall i :: 0 <= i < |s| ==> IsAlphabet(s[i]) || s[i] == Pad
    decreases |b|
  {
    if |b| == 0 then []
    else if |b| == 1 then
      [EncodeSextet(b[0] / 4), EncodeSextet((b[0] % 4) * 16), Pad, Pad]
    else if |b| == 2 then
      [EncodeSextet(b[0] / 4), EncodeSextet((b[0] % 4) * 16 + b[1] / 16),
       EncodeSextet((b[1] % 16) * 4), Pad]
    else
      EncodeQuantum(b[0], b[1], b[2]) + Encode(b[3..])
  }

  /** The input with every '\r' and '\n' removed: Go's decoder skips both. */
  function StripNewlines(s: Str): (t: Str)
    ensures |t| <= |s|
    ensures forall i :: 0 <= i < |t| ==> t[i] != CR && t[i] != LF
  {
    if s == [] then []
    else (if s[0] == CR || s[0] == LF then [] else [s[0]]) + StripNewlines(s[1..])
  }

  /** Three bytes for four alphabet characters. */
  function DecodeQuantum(a: byte, b: byte, c: byte, d: byte): seq<byte>
    requires IsAlphabet(a) && IsAlphabet(b) && IsAlphabet(c) && IsAlphabet(d)
  {
    var va, vb, vc, vd := DecodeSextet(a), DecodeSextet(b), DecodeSextet(c), DecodeSextet(d);
    [va * 4 + vb / 16, (vb % 16) * 16 + vc / 4, (vc % 4) * 64 + vd]
  }

  /** Decoding of newline-free input: whole quanta of four characters; only the
      last may end in "==" or "=", and bits below the last byte are ignored
      (Go's decoder is not in strict mode). Anything else is corrupt input. */
  function DecodeQuanta(t: Str): (r: Option<Bytes>)
    decreases |t|
  {
    if |t| == 0 then Some([])
    else if |t| < 4 then None
    else
      var a, b, c, d := t[0], t[1], t[2], t[3];
      if IsAlphabet(a) && IsAlphabet(b) && IsAlphabet(c) && IsAlphabet(d) then
        match DecodeQuanta(t[4..])
        case None => None
        case Some(rest) => Some(DecodeQuantum(a, b, c, d) + rest)
      else if |t| == 4 && IsAlphabet(a) && IsAlphabet(b) && c == Pad && d == Pad then
        Some([DecodeSextet(a) * 4 + DecodeSextet(b) / 16])
      else if |t| == 4 && IsAlphabet(a) && IsAlphabet(b) && IsAlphabet(c) && d == Pad then
        Some([DecodeSextet(a) * 4 + DecodeSextet(b) / 16,
              (DecodeSextet(b) % 16) * 16 + DecodeSextet(c) / 4])
      else None
  }

  /** `base64.StdEncoding.DecodeString`; `None` is its `CorruptInputError`.
      Padding is required, so newline-free input that decodes is whole quanta,
      and the result is never longer than `DecodedLen(len(s))`. */
  function Decode(s: Str): (r: Option<Bytes>)
    ensures r.Some? ==> |StripNewlines(s)| % 4 == 0 && |r.value| <= |s| / 4 * 3
    ensures r.Some? && (forall i :: 0 <= i < |s| ==> s[i] != CR && s[i] != LF) ==> |s| % 4 == 0
  {
    var t := StripNewlines(s);
    DecodeQuantaLength(t);
    StripNewlinesOnlyNewlines(s);
    DivMonotone(|t|, |s|);
    DecodeQuanta(t)
  }

  lemma StripNewlinesOnlyNewlines(s: Str)
    ensures (forall i :: 0 <= i < |s| ==> s[i] != CR && s[i] != LF) ==> StripNewlines(s) == s
  {
    if forall i :: 0 <= i < |s| ==> s[i] != CR && s[i] != LF {
      StripNewlinesNoop(s);
    }
  }

  /** Decoded quanta: whole groups of four, three bytes at most per group. */
  lemma {:induction false} DecodeQuantaLength(t: Str)
    ensures DecodeQuanta(t).Some? ==> |t| % 4 == 0 && |DecodeQuanta(t).value| <= |t| / 4 * 3
    decreases |t|
  {
    if |t| >= 4 {
      DecodeQuantaLength(t[4..]);
    }
  }

  lemma DivMonotone(a: nat, b: nat)
    requires a <= b
    ensures a / 4 * 3 <= b / 4 * 3
  {
  }

  lemma {:induction false} StripNewlinesNoop(s: Str)
    requires forall i :: 0 <= i < |s| ==> s[i] != CR && s[i] != LF
    ensures StripNewlines(s) == s
    decreases |s|
  {
    if s != [] {
      StripNewlinesNoop(s[1..]);
    }
  }

  lemma DivMod16(a: int, q: int, r: int)
    requires a == 16 * q + r && 0 <= r < 16
    ensures a / 16 == q && a % 16 == r
  {
  }

  lemma DivMod4(a: int, q: int, r: int)
    requires a == 4 * q + r && 0 <= r < 4
    ensures a / 4 == q && a % 4 == r
  {
  }

  /** The bit regrouping of a quantum, one output byte at a time: with
      p = x/4, q = (x%4)*16 + y/16, r = (y%16)*4 + z/64 and s = z%64,
      the decoder's p*4 + q/16, (q%16)*16 + r/4 and (r%4)*64 + s give x, y, z back. */
  lemma RegroupFirst(x: byte, y: byte)
    ensures var q := (x % 4) * 16 + y / 16; (x / 4) * 4 + q / 16 == x && q % 16 == y / 16
  {
    DivMod16((x % 4) * 16 + y / 16, x % 4, y / 16);
  }

  lemma RegroupSecond(y: byte, z: byte)
    ensures var r := (y % 16) * 4 + z / 64; (y / 16) * 16 + r / 4 == y && r % 4 == z / 64
  {
    DivMod4((y % 16) * 4 + z / 64, y % 16, z / 64);
  }

  lemma QuantumRoundTrip(x: byte, y: byte, z: byte)
    ensures var q := EncodeQuantum(x, y, z);
      IsAlphabet(q[0]) && IsAlphabet(q[1]) && IsAlphabet(q[2]) && IsAlphabet(q[3]) &&
      DecodeQuantum(q[0], q[1], q[2], q[3]) == [x, y, z]
  {
    SextetRoundTrip(x / 4);
    SextetRoundTrip((x % 4) * 16 + y / 16);
    SextetRoundTrip((y % 16) * 4 + z / 64);
    SextetRoundTrip(z % 64);
    RegroupFirst(x, y);
    RegroupSecond(y, z);
  }

  lemma DecodeTail1(x: byte)
    ensures DecodeQuanta(Encode([x])) == Some([x])
  {
    SextetRoundTrip(x / 4);
    SextetRoundTrip((x % 4) * 16);
    RegroupFirst(x, 0);
  }

  lemma DecodeTail2(x: byte, y: byte)
    ensures DecodeQuanta(Encode([x, y])) == Some([x, y])
  {
    var s := Encode([x, y]);
    SextetRoundTrip(x / 4);
    SextetRoundTrip((x % 4) * 16 + y / 16);
    SextetRoundTrip((y % 16) * 4);
    RegroupFirst(x, y);
    RegroupSecond(y, 0);
    assert DecodeSextet(s[0]) == x / 4;
    assert DecodeSextet(s[1]) == (x % 4) * 16 + y / 16;
    assert DecodeSextet(s[2]) == (y % 16) * 4;
  }

  lemma {:induction false} DecodeQuantaEncode(b: Bytes)
    ensures DecodeQuanta(Encode(b)) == Some(b)
    decreases |b|
  {
    if |b| == 1 {
      assert b == [b[0]];
      DecodeTail1(b[0]);
    } else if |b| == 2 {
      assert b == [b[0], b[1]];
      DecodeTail2(b[0], b[1]);
    } else if |b| >= 3 {
      DecodeQuantaEncode(b[3..]);
      DecodeQuantaStep(b);
    }
  }

  /** One full group in front of an encoding that decodes correctly. */
  lemma DecodeQuantaStep(b: Bytes)
    requires |b| >= 3 && DecodeQuanta(Encode(b[3..])) == Some(b[3..])
    ensures DecodeQuanta(Encode(b)) == Some(b)
  {
    SplitGroup(b);
    EncodeCons(b);
    DecodeQuantumThen(b[0], b[1], b[2], Encode(b[3..]), b[3..]);
  }

  lemma SplitGroup(b: Bytes)
    requires |b| >= 3
    ensures b == [b[0], b[1], b[2]] + b[3..]
  {
  }

  /** A full group followed by input that decodes to `tail` decodes to the
      group's three bytes followed by `tail`. */
  lemma DecodeQuantumThen(x: byte, y: byte, z: byte, rest: Str, tail: Bytes)
    requires DecodeQuanta(rest) == Some(tail)
    ensures DecodeQuanta(EncodeQuantum(x, y, z) + rest) == Some([x, y, z] + tail)
  {
    QuantumRoundTrip(x, y, z);
    DecodeQuantaCons(EncodeQuantum(x, y, z), rest);
  }

  lemma EncodeCons(b: Bytes)
    requires |b| >= 3
    ensures Encode(b) == EncodeQuantum(b[0], b[1], b[2]) + Encode(b[3..])
  {
  }

  lemma DecodeQuantaCons(q: Str, rest: Str)
    requires |q| == 4 && IsAlphabet(q[0]) && IsAlphabet(q[1]) && IsAlphabet(q[2]) && IsAlphabet(q[3])
    ensures DecodeQuanta(q + rest) ==
      match DecodeQuanta(rest)
      case None => None
      case Some(r) => Some(DecodeQuantum(q[0], q[1], q[2], q[3]) + r)
  {
    assert (q + rest)[4..] == rest;
  }

  /** Decoding the standard encoding of any bytes gives those bytes back. */
  lemma DecodeEncode(b: Bytes)
    ensures Decode(Encode(b)) == Some(b)
  {
    StripNewlinesNoop(Encode(b));
    DecodeQuantaEncode(b);
  }
}
