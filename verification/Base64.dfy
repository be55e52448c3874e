/** URL-safe Base64 without padding (RFC 4648, sections 5 and 3.2): the encoder as the media
    signer uses it, and Python's permissive decoder. */
module Base64 {
  import opened Outcomes
  import opened TextCodec

  type Byte = b: int | 0 <= b < 256 witness 0

  type Sextet = v: int | 0 <= v < 64 witness 0

  // ---------------------------------------------------------------------------
  // The alphabet
  // ---------------------------------------------------------------------------

  function Symbol(v: Sextet): (c: char)
    ensures SextetOf(c) == Some(v)
    ensures IsSymbol(c)
  {
    if v < 26 then 'A' + v as char
    else if v < 52 then 'a' + (v - 26) as char
    else if v < 62 then '0' + (v - 52) as char
    else if v == 62 then '-'
    else '_'
  }

  /** The decoder maps `-` and `_` to `+` and `/` first, so it accepts both alphabets. */
  function SextetOf(c: char): Option<Sextet> {
    if 'A' <= c <= 'Z' then Some((c - 'A') as int)
    else if 'a' <= c <= 'z' then Some((c - 'a') as int + 26)
    else if '0' <= c <= '9' then Some((c - '0') as int + 52)
    else if c == '-' || c == '+' then Some(62)
    else if c == '_' || c == '/' then Some(63)
    else None
  }

  /** The characters of the URL-safe alphabet. */
  predicate IsSymbol(c: char) {
    'A' <= c <= 'Z' || 'a' <= c <= 'z' || '0' <= c <= '9' || c == '-' || c == '_'
  }

  /** The URL-safe alphabet by character codes; the decoder takes the standard one too. */
  lemma AlphabetMeans(v: Sextet, c: char)
    ensures Symbol(v) as int ==
      if v < 26 then 65 + v else if v < 52 then 97 + v - 26 else if v < 62 then 48 + v - 52 else if v == 62 then 45 else 95
    ensures SextetOf(c) == Some(v) <==> c == Symbol(v) || (c == '+' && v == 62) || (c == '/' && v == 63)
  {
  }

  // ---------------------------------------------------------------------------
  // Encoding
  // ---------------------------------------------------------------------------

  predicate AllSymbols(s: string) {
    forall i :: 0 <= i < |s| ==> IsSymbol(s[i])
  }

  /** Three bytes as four symbols. */
  function Quad(x: Byte, y: Byte, z: Byte): (s: string)
    ensures |s| == 4 && AllSymbols(s)
  {
    [Symbol(x / 4), Symbol(x % 4 * 16 + y / 16), Symbol(y % 16 * 4 + z / 64), Symbol(z % 64)]
  }

  lemma Digits64(x: Byte, y: Byte, z: Byte)
    ensures var n := 65536 * x + 256 * y + z;
      && n / 262144 == x / 4 && n / 4096 == 16 * x + y / 16 && n / 64 == 1024 * x + 4 * y + z / 64
      && n % 64 == z % 64
  {
  }

  lemma LastDigit64(m: int, d: int)
    requires 0 <= d < 64
    ensures (64 * m + d) % 64 == d
  {
  }

  /** Three bytes are one number of 24 bits, and the symbols its digits to the base 64. */
  lemma QuadMeans(x: Byte, y: Byte, z: Byte)
    ensures var n := 65536 * x + 256 * y + z;
      Quad(x, y, z) == [Symbol(n / 262144), Symbol(n / 4096 % 64), Symbol(n / 64 % 64), Symbol(n % 64)]
  {
    hide Symbol;
    Digits64(x, y, z);
    LastDigit64(x / 4, x % 4 * 16 + y / 16);
    LastDigit64(16 * x + y / 16, y % 16 * 4 + z / 64);
    assert 16 * x + y / 16 == 64 * (x / 4) + (x % 4 * 16 + y / 16);
    assert 1024 * x + 4 * y + z / 64 == 64 * (16 * x + y / 16) + (y % 16 * 4 + z / 64);
  }

  /** The last one or two bytes, zero bits added, as two or three symbols. */
  function Tail(b: seq<Byte>): (s: string)
    requires |b| < 3
    ensures AllSymbols(s) && |s| == if b == [] then 0 else |b| + 1
  {
    if b == [] then ""
    else if |b| == 1 then Quad(b[0], 0, 0)[..2]
    else Quad(b[0], b[1], 0)[..3]
  }

  /** `base64.urlsafe_b64encode` */
  function EncodePadded(b: seq<Byte>): string
    decreases |b|
  {
    if |b| < 3 then Tail(b) + Padding(Tail(b)) else Quad(b[0], b[1], b[2]) + EncodePadded(b[3..])
  }

  /** `rstrip("=")` */
  function StripPadding(s: string): string {
    if s != "" && s[|s| - 1] == '=' then StripPadding(s[..|s| - 1]) else s
  }

  function Encode(b: seq<Byte>): string {
    StripPadding(EncodePadded(b))
  }

  /** `"=" * (-len(s) % 4)` */
  function Padding(s: string): string {
    match |s| % 4
    case 0 => ""
    case 1 => "==="
    case 2 => "=="
    case _ => "="
  }

  // ---------------------------------------------------------------------------
  // Decoding
  // ---------------------------------------------------------------------------

  predicate Fits(quad: nat, left: nat) {
    quad == 0 || (quad == 1 && left < 64) || (quad == 2 && left < 16) || (quad == 3 && left < 4)
  }

  /** `binascii.a2b_base64` from the middle of a quad: `quad` symbols of it are read, `left`
      holds their bits that no byte has used, `pads` counts the padding since the last symbol.
      Foreign characters are skipped; enough padding ends the text. */
  function Scan(s: string, quad: nat, left: nat, pads: nat): Option<seq<Byte>>
    requires Fits(quad, left)
    decreases |s|
  {
    if s == "" then
      if quad == 0 then Some([]) else None
    else if s[0] == '=' then
      if quad < 2 then Scan(s[1..], quad, left, pads)
      else if quad + pads + 1 >= 4 then Some([])
      else Scan(s[1..], quad, left, pads + 1)
    else
      var v := SextetOf(s[0]);
      if v.None? then Scan(s[1..], quad, left, pads)
      else
        match quad
        case 0 => Scan(s[1..], 1, v.value, 0)
        case 1 => Prepend(left * 4 + v.value / 16, Scan(s[1..], 2, v.value % 16, 0))
        case 2 => Prepend(left * 16 + v.value / 4, Scan(s[1..], 3, v.value % 4, 0))
        case _ => Prepend(left * 64 + v.value, Scan(s[1..], 0, 0, 0))
  }

  function Prepend(b: Byte, rest: Option<seq<Byte>>): Option<seq<Byte>> {
    if rest.Some? then Some([b] + rest.value) else None
  }

  /** `base64.urlsafe_b64decode(s + padding)`; `None` is its `ValueError`. */
  function Decode(s: string): Option<seq<Byte>> {
    if Ascii(s) then Scan(s + Padding(s), 0, 0, 0) else None
  }

  // ---------------------------------------------------------------------------
  // Properties
  // ---------------------------------------------------------------------------

  function EncodeBare(b: seq<Byte>): (s: string)
    ensures AllSymbols(s)
    decreases |b|
  {
    if |b| < 3 then Tail(b) else Quad(b[0], b[1], b[2]) + EncodeBare(b[3..])
  }

  lemma {:induction false} BareLength(b: seq<Byte>)
    ensures |EncodeBare(b)| == (4 * |b| + 2) / 3 && |EncodeBare(b)| % 4 != 1
    decreases |b|
  {
    hide Quad, Tail;
    if |b| >= 3 {
      BareLength(b[3..]);
    }
  }

  lemma {:induction false} PaddedIsBarePlusPadding(b: seq<Byte>)
    ensures EncodePadded(b) == EncodeBare(b) + Padding(EncodeBare(b))
    decreases |b|
  {
    hide Quad, Tail;
    if |b| >= 3 {
      PaddedIsBarePlusPadding(b[3..]);
    }
  }

  lemma StripsExactlyThePadding(s: string, k: nat, pad: string)
    requires AllSymbols(s)
    requires k <= 2 && pad == ["", "=", "=="][k]
    ensures StripPadding(s + pad) == s
  {
    assert StripPadding(s) == s;
    if k == 0 {
      assert s + pad == s;
    } else {
      assert (s + "=")[..|s + "="| - 1] == s;
      assert k == 2 ==> (s + "==")[..|s + "=="| - 1] == s + "=";
    }
  }

  /** Only URL-safe characters, no padding, and nothing only for nothing. */
  lemma EncodeShape(b: seq<Byte>)
    ensures Encode(b) == EncodeBare(b)
    ensures AllSymbols(Encode(b))
    ensures |Encode(b)| == (4 * |b| + 2) / 3
  {
    PaddedIsBarePlusPadding(b);
    BareLength(b);
    var s := EncodeBare(b);
    var k := match |s| % 4 case 0 => 0 case 2 => 2 case _ => 1;
    StripsExactlyThePadding(s, k, Padding(s));
  }

  /** Three bytes at a time; of one or two left over, the symbols that hold their bits. */
  lemma EncodeByThrees(b: seq<Byte>)
    ensures |b| >= 3 ==> Encode(b) == Quad(b[0], b[1], b[2]) + Encode(b[3..])
    ensures |b| == 2 ==> Encode(b) == Quad(b[0], b[1], 0)[..3]
    ensures |b| == 1 ==> Encode(b) == Quad(b[0], 0, 0)[..2]
    ensures b == [] ==> Encode(b) == ""
  {
    hide Quad, Encode;
    EncodeShape(b);
    if |b| >= 3 {
      EncodeShape(b[3..]);
    }
  }

  lemma ScanSymbol(v: Sextet, rest: string, quad: nat, left: nat, pads: nat)
    requires Fits(quad, left)
    ensures Scan([Symbol(v)] + rest, quad, left, pads) ==
      match quad
      case 0 => Scan(rest, 1, v, 0)
      case 1 => Prepend(left * 4 + v / 16, Scan(rest, 2, v % 16, 0))
      case 2 => Prepend(left * 16 + v / 4, Scan(rest, 3, v % 4, 0))
      case _ => Prepend(left * 64 + v, Scan(rest, 0, 0, 0))
  {
  }

  /** Cutting three bytes into four sextets loses no bits. */
  lemma SplitThree(x: Byte, y: Byte, z: Byte) returns (a: Sextet, b: Sextet, c: Sextet, d: Sextet)
    ensures a == x / 4 && b == x % 4 * 16 + y / 16 && c == y % 16 * 4 + z / 64 && d == z % 64
    ensures a * 4 + b / 16 == x && b % 16 * 16 + c / 4 == y && c % 4 * 64 + d == z
  {
    a, b, c, d := x / 4, x % 4 * 16 + y / 16, y % 16 * 4 + z / 64, z % 64;
  }

  lemma ScanQuad(x: Byte, y: Byte, z: Byte, rest: string)
    ensures Scan(Quad(x, y, z) + rest, 0, 0, 0) == Prepend(x, Prepend(y, Prepend(z, Scan(rest, 0, 0, 0))))
  {
    hide Symbol, Scan, Prepend;
    var a, b, c, d := SplitThree(x, y, z);
    var s3 := [Symbol(d)] + rest;
    var s2 := [Symbol(c)] + s3;
    var s1 := [Symbol(b)] + s2;
    assert Quad(x, y, z) == [Symbol(a), Symbol(b), Symbol(c), Symbol(d)];
    assert Quad(x, y, z) + rest == [Symbol(a)] + s1;
    ScanSymbol(a, s1, 0, 0, 0);
    ScanSymbol(b, s2, 1, a, 0);
    ScanSymbol(c, s3, 2, b % 16, 0);
    ScanSymbol(d, rest, 3, c % 4, 0);
  }

  lemma ScanPads()
    ensures forall left: nat :: left < 16 ==> Scan("==", 2, left, 0) == Some([])
    ensures forall left: nat :: left < 4 ==> Scan("=", 3, left, 0) == Some([])
  {
  }

  lemma PrependAll(x: Byte, y: Byte)
    ensures Prepend(x, Some([])) == Some([x])
    ensures Prepend(x, Prepend(y, Some([]))) == Some([x, y])
  {
    var none: seq<Byte> := [];
    assert [x] + none == [x] && [y] + none == [y] && [x] + [y] == [x, y];
  }

  lemma ScanOneByte(x: Byte)
    ensures Scan(Tail([x]) + "==", 0, 0, 0) == Some([x])
  {
    hide Symbol, Scan;
    ScanPads();
    var s1 := [Symbol(x % 4 * 16)] + "==";
    assert Tail([x]) + "==" == [Symbol(x / 4)] + s1;
    ScanSymbol(x / 4, s1, 0, 0, 0);
    ScanSymbol(x % 4 * 16, "==", 1, x / 4, 0);
    assert x % 4 * 16 / 16 == x % 4 && x % 4 * 16 % 16 == 0;
    PrependAll(x, x);
  }

  lemma TailOfTwo(x: Byte, y: Byte)
    ensures Tail([x, y]) == [Symbol(x / 4), Symbol(x % 4 * 16 + y / 16), Symbol(y % 16 * 4)]
  {
  }

  lemma ScanTwoBytes(x: Byte, y: Byte)
    ensures Scan(Tail([x, y]) + "=", 0, 0, 0) == Some([x, y])
  {
    TailOfTwo(x, y);
    hide Symbol, Scan, Quad, Tail;
    ScanPads();
    var h, m, l, none := SplitThree(x, y, 0);
    var s2 := [Symbol(l)] + "=";
    var s1 := [Symbol(m)] + s2;
    assert Tail([x, y]) + "=" == [Symbol(h)] + s1;
    ScanSymbol(h, s1, 0, 0, 0);
    ScanSymbol(m, s2, 1, h, 0);
    ScanSymbol(l, "=", 2, m % 16, 0);
    PrependAll(x, y);
  }

  lemma ScanTail(b: seq<Byte>)
    requires |b| < 3
    ensures Scan(Tail(b) + Padding(Tail(b)), 0, 0, 0) == Some(b)
  {
    hide Symbol, Quad;
    if |b| == 1 {
      assert b == [b[0]];
      ScanOneByte(b[0]);
    } else if |b| == 2 {
      assert b == [b[0], b[1]];
      ScanTwoBytes(b[0], b[1]);
    }
  }

  lemma {:induction false} ScanEncoded(b: seq<Byte>)
    ensures Scan(EncodePadded(b), 0, 0, 0) == Some(b)
    decreases |b|
  {
    hide Quad, Tail, Scan;
    if |b| < 3 {
      ScanTail(b);
    } else {
      ScanEncoded(b[3..]);
      ScanQuad(b[0], b[1], b[2], EncodePadded(b[3..]));
      assert b == [b[0]] + ([b[1]] + ([b[2]] + b[3..]));
    }
  }

  /** Decoding undoes encoding, on every byte string. */
  lemma DecodeEncode(b: seq<Byte>)
    ensures Decode(Encode(b)) == Some(b)
  {
    EncodeShape(b);
    PaddedIsBarePlusPadding(b);
    ScanEncoded(b);
  }

  /** Hence the encoding is injective. */
  lemma EncodeIsInjective(a: seq<Byte>, b: seq<Byte>)
    requires Encode(a) == Encode(b)
    ensures a == b
  {
    DecodeEncode(a);
    DecodeEncode(b);
  }
}
