/** Media capabilities: the canonical payload, the token, and what `verify` accepts.

    HMAC is any function from key and message to a non-empty digest (RFC 2104, section 2); no
    claim about forging is made. */
module MediaSigning {
  import opened Outcomes
  import opened TextCodec
  import opened Base64

  datatype Kind = File | SessionStream | SessionHls | Image

  datatype Capability = Capability(
    kind: Kind, resourceId: int, verb: string, expiresAt: int, parent: Option<int>, version: string)

  type Digest = d: seq<Byte> | d != [] witness [0]

  datatype Signer = Signer(key: seq<Byte>, hmac: (seq<Byte>, seq<Byte>) -> Digest)

  datatype IssueError = NotAscii

  /** `SignatureNotText` is the `TypeError` of `hmac.compare_digest` on non-ASCII text. */
  datatype VerifyError = Malformed | UnsupportedVersion | SignatureNotText | InvalidCapability | Expired

  // ---------------------------------------------------------------------------
  // ASCII bytes
  // ---------------------------------------------------------------------------

  function Bytes(s: string): (b: seq<Byte>)
    requires Ascii(s)
    ensures |b| == |s| && forall i :: 0 <= i < |s| ==> b[i] == s[i] as int
  {
    seq(|s|, i requires 0 <= i < |s| => s[i] as int)
  }

  function Text(b: seq<Byte>): Option<string> {
    if forall i :: 0 <= i < |b| ==> b[i] < 128
    then Some(seq(|b|, i requires 0 <= i < |b| && b[i] < 128 => b[i] as char))
    else None
  }

  lemma TextOfBytes(s: string)
    requires Ascii(s)
    ensures Text(Bytes(s)) == Some(s)
  {
    assert forall i :: 0 <= i < |s| ==> Bytes(s)[i] as char == s[i];
    assert Text(Bytes(s)).value == s;
  }

  // ---------------------------------------------------------------------------
  // The payload
  // ---------------------------------------------------------------------------

  function KindName(kind: Kind): string {
    match kind
    case File => "file"
    case SessionStream => "session_stream"
    case SessionHls => "session_hls"
    case Image => "image"
  }

  function ParseKind(s: string): Option<Kind> {
    if s == "file" then Some(File)
    else if s == "session_stream" then Some(SessionStream)
    else if s == "session_hls" then Some(SessionHls)
    else if s == "image" then Some(Image)
    else None
  }

  function Fields(c: Capability): seq<string> {
    [c.version, Upper(c.verb), KindName(c.kind), PrintInt(c.resourceId), PrintInt(c.expiresAt),
     if c.parent.None? then "" else PrintInt(c.parent.value)]
  }

  function CanonicalText(c: Capability): string {
    Join(Fields(c), ':')
  }

  function ParseFields(parts: seq<string>): Option<Capability> {
    if |parts| != 6 then None
    else
      var kind, id, expiresAt := ParseKind(parts[2]), ParseInt(parts[3]), ParseInt(parts[4]);
      var parent := if parts[5] == "" then Some(None) else
        var n := ParseInt(parts[5]);
        if n.None? then None else Some(Some(n.value));
      if kind.Some? && id.Some? && expiresAt.Some? && parent.Some?
      then Some(Capability(kind.value, id.value, parts[1], expiresAt.value, parent.value, parts[0]))
      else None
  }

  function DecodeCapability(payload: string): Option<Capability> {
    var bytes := Decode(payload);
    if bytes.None? then None
    else
      var text := Text(bytes.value);
      if text.None? then None else ParseFields(Split(text.value, ':'))
  }

  // ---------------------------------------------------------------------------
  // Tokens
  // ---------------------------------------------------------------------------

  function Signature(signer: Signer, payload: string): string
    requires Ascii(payload)
  {
    Encode(signer.hmac(signer.key, Bytes(payload)))
  }

  function Token(version: string, payload: string, signature: string): string {
    version + "." + payload + "." + signature
  }

  function Issue(signer: Signer, c: Capability): Result<string, IssueError> {
    var text := CanonicalText(c);
    if !Ascii(text) then Err(NotAscii)
    else
      var payload := Encode(Bytes(text));
      EncodedIsAscii(Bytes(text));
      Ok(Token(c.version, payload, Signature(signer, payload)))
  }

  /** The payload is six fields between colons: version, upper-cased method, kind, resource id, expiry
      and the parent's id or nothing. */
  lemma PayloadText(c: Capability)
    ensures CanonicalText(c) == c.version + ":" + (Upper(c.verb) + ":" + (KindText(c.kind) + ":" + (
      PrintInt(c.resourceId) + ":" + (PrintInt(c.expiresAt) + ":" + (
      if c.parent.None? then "" else PrintInt(c.parent.value))))))
  {
    hide Upper, PrintInt, Join;
    var f := Fields(c);
    JoinSix(f[0], f[1], f[2], f[3], f[4], f[5]);
    assert f == [f[0], f[1], f[2], f[3], f[4], f[5]];
    KindsAreText(c.kind);
  }

  lemma JoinSix(a: string, b: string, c: string, d: string, e: string, f: string)
    ensures Join([a, b, c, d, e, f], ':') == a + ":" + (b + ":" + (c + ":" + (d + ":" + (e + ":" + f))))
  {
    hide Join;
    JoinStep([a, b, c, d, e, f], ':');
    JoinStep([b, c, d, e, f], ':');
    JoinStep([c, d, e, f], ':');
    JoinStep([d, e, f], ':');
    JoinStep([e, f], ':');
    JoinStep([f], ':');
  }

  lemma KindsAreText(kind: Kind)
    ensures KindName(kind) == KindText(kind)
  {
  }

  function KindText(kind: Kind): string {
    if kind == File then "file" else if kind == Image then "image"
    else "session_" + if kind == SessionHls then "hls" else "stream"
  }

  lemma JoinStep(parts: seq<string>, sep: char)
    requires parts != []
    ensures Join(parts, sep) == if |parts| == 1 then parts[0] else parts[0] + [sep] + Join(parts[1..], sep)
  {
  }

  /** A token is version, encoded payload, and encoded digest of the encoded payload, between dots. */
  lemma TokenText(signer: Signer, c: Capability)
    requires Ascii(CanonicalText(c))
    ensures Ascii(Encode(Bytes(CanonicalText(c))))
    ensures var payload := Encode(Bytes(CanonicalText(c)));
      Issue(signer, c) == Ok(c.version + "." + payload + "." + Encode(signer.hmac(signer.key, Bytes(payload))))
  {
    hide CanonicalText, Encode;
    EncodedIsAscii(Bytes(CanonicalText(c)));
  }

  predicate InScope(c: Capability, expected: Capability) {
    && c.kind == expected.kind
    && c.resourceId == expected.resourceId
    && c.verb == Upper(expected.verb)
    && (expected.parent.None? || c.parent == expected.parent)
  }

  function Verify(signer: Signer, token: string, expected: Capability, now: int): Result<Capability, VerifyError> {
    var parts := Split(token, '.');
    if |parts| != 3 || "" in parts then Err(Malformed)
    else
      var decoded := DecodeCapability(parts[1]);
      if decoded.None? then Err(Malformed)
      else
        var c := decoded.value;
        if parts[0] != c.version || parts[0] != expected.version then Err(UnsupportedVersion)
        else if !Ascii(parts[2]) then Err(SignatureNotText)
        else if parts[2] != Signature(signer, parts[1]) || !InScope(c, expected) then Err(InvalidCapability)
        else if c.expiresAt < now then Err(Expired)
        else Ok(c)
  }

  // ---------------------------------------------------------------------------
  // The payload round trip
  // ---------------------------------------------------------------------------

  /** The capability as the payload carries it. */
  function Normalised(c: Capability): Capability {
    c.(verb := Upper(c.verb))
  }

  predicate Colonless(c: Capability) {
    ':' !in c.version && ':' !in c.verb
  }

  lemma EncodedIsAscii(b: seq<Byte>)
    ensures Ascii(Encode(b)) && '.' !in Encode(b)
    ensures b != [] ==> Encode(b) != ""
  {
    EncodeShape(b);
  }

  lemma FieldsClean(c: Capability)
    ensures (forall i :: 0 <= i < |Fields(c)| ==> ':' !in Fields(c)[i]) <==> Colonless(c)
  {
    hide Upper, PrintInt, KindName;
    KindsAreClean(c.kind);
    UpperKeepsColons(c.verb);
    PrintIntChars(c.resourceId);
    PrintIntChars(c.expiresAt);
    if c.parent.Some? {
      PrintIntChars(c.parent.value);
    }
    var f := Fields(c);
    assert f[0] == c.version && f[1] == Upper(c.verb);
    assert forall i :: 2 <= i < 6 ==> ':' !in f[i];
  }

  lemma KindsAreClean(kind: Kind)
    ensures Ascii(KindName(kind)) && ':' !in KindName(kind) && ParseKind(KindName(kind)) == Some(kind)
  {
  }

  lemma ParseFieldsOfCapability(c: Capability)
    ensures ParseFields(Fields(c)) == Some(Normalised(c))
  {
    KindsAreClean(c.kind);
    hide Upper, PrintInt, ParseInt, KindName, ParseKind;
    ParsePrintInt(c.resourceId);
    ParsePrintInt(c.expiresAt);
    if c.parent.Some? {
      ParsePrintInt(c.parent.value);
      PrintIntChars(c.parent.value);
    }
  }

  /** Reading the payload back gives the capability with its method upper-cased, for all
      integers and with or without a parent, exactly when no field smuggles in a separator;
      with one, there are too many fields to read anything back. */
  lemma PayloadRoundTrip(c: Capability)
    ensures ParseFields(Split(CanonicalText(c), ':')) == if Colonless(c) then Some(Normalised(c)) else None
  {
    FieldsClean(c);
    SplitJoin(Fields(c), ':');
    ParseFieldsOfCapability(c);
  }

  /** Distinct capabilities never share a payload (method case aside). */
  lemma PayloadsAreDistinct(a: Capability, b: Capability)
    requires Colonless(a) && Colonless(b) && CanonicalText(a) == CanonicalText(b)
    ensures Normalised(a) == Normalised(b)
  {
    PayloadRoundTrip(a);
    PayloadRoundTrip(b);
  }

  lemma ColonMoves(x: string, y: string, z: string, tail: seq<string>)
    requires tail != []
    ensures Join([x + ":" + y, z] + tail, ':') == Join([x, y + ":" + z] + tail, ':')
  {
  }

  /** Without the side condition they can: a colon moves between version and method. */
  lemma ColonsCollide() returns (a: Capability, b: Capability)
    ensures CanonicalText(a) == CanonicalText(b) && Normalised(a) != Normalised(b)
  {
    var m := "W" + ":" + "X";
    a := Capability(File, 1, "X", 0, None, "V" + ":" + "W");
    b := Capability(File, 1, m, 0, None, "V");
    UpperOfFixed("X");
    UpperOfFixed(m);
    var tail := [KindName(File), PrintInt(1), PrintInt(0), ""];
    hide Upper, KindName, PrintInt, Join;
    assert Fields(a) == ["V" + ":" + "W", "X"] + tail && Fields(b) == ["V", m] + tail;
    ColonMoves("V", "W", "X", tail);
  }

  lemma DecodeIssued(c: Capability)
    requires Ascii(CanonicalText(c))
    ensures DecodeCapability(Encode(Bytes(CanonicalText(c)))) == if Colonless(c) then Some(Normalised(c)) else None
  {
    DecodeEncode(Bytes(CanonicalText(c)));
    TextOfBytes(CanonicalText(c));
    PayloadRoundTrip(c);
  }

  // ---------------------------------------------------------------------------
  // Issued tokens
  // ---------------------------------------------------------------------------

  predicate Issuable(c: Capability) {
    Ascii(c.version) && Ascii(Upper(c.verb))
  }

  /** A capability can be issued exactly when its version and upper-cased method are ASCII. */
  lemma IssuesIffAscii(signer: Signer, c: Capability)
    ensures Issue(signer, c).Ok? <==> Issuable(c)
  {
    hide Upper, PrintInt, Join, Encode, Signature, Bytes, Token;
    KindsAreClean(c.kind);
    JoinAscii(Fields(c), ':');
    PrintIntChars(c.resourceId);
    PrintIntChars(c.expiresAt);
    if c.parent.Some? {
      PrintIntChars(c.parent.value);
    }
    var f := Fields(c);
    assert f[0] == c.version && f[1] == Upper(c.verb);
    assert forall i :: 2 <= i < 6 ==> Ascii(f[i]);
  }

  lemma TokenSplits(version: string, payload: string, signature: string)
    requires '.' !in payload && '.' !in signature
    ensures '.' !in version ==> Split(Token(version, payload, signature), '.') == [version, payload, signature]
    ensures '.' in version ==> |Split(Token(version, payload, signature), '.')| > 3
  {
    var parts := [version, payload, signature];
    JoinThree(version, payload, signature, '.');
    SplitJoin(parts, '.');
    SplitCounts(Join(parts, '.'), '.');
    JoinCounts(parts, '.');
  }

  /** The versions and methods that survive the trip through a token. */
  predicate Separable(c: Capability) {
    Colonless(c) && c.version != "" && '.' !in c.version
  }

  /** What verification makes of an issued token, completely: it reads the capability back, and
      accepts exactly when version, kind, resource, method and, if one is expected, parent are the
      expected ones and the time has not passed. A capability that is not separable yields a token
      that nothing accepts. */
  lemma VerifyIssued(signer: Signer, c: Capability, expected: Capability, now: int)
    requires Issuable(c)
    ensures Issue(signer, c).Ok?
    ensures Verify(signer, Issue(signer, c).value, expected, now) ==
      if !Separable(c) then Err(Malformed)
      else if c.version != expected.version then Err(UnsupportedVersion)
      else if c.kind != expected.kind || c.resourceId != expected.resourceId
              || Upper(c.verb) != Upper(expected.verb)
              || (expected.parent.Some? && c.parent != expected.parent) then Err(InvalidCapability)
      else if c.expiresAt < now then Err(Expired)
      else Ok(Capability(c.kind, c.resourceId, Upper(c.verb), c.expiresAt, c.parent, c.version))
  {
    hide CanonicalText, Encode, Bytes, Split, DecodeCapability, Token, Upper, Issuable;
    IssuesIffAscii(signer, c);
    var text := CanonicalText(c);
    var payload := Encode(Bytes(text));
    EncodedIsAscii(Bytes(text));
    var signature := Signature(signer, payload);
    EncodedIsAscii(signer.hmac(signer.key, Bytes(payload)));
    TokenSplits(c.version, payload, signature);
    DecodeIssued(c);
    PayloadIsNotEmpty(c);
    assert [c.version, payload, signature][0] == c.version;
  }

  lemma PayloadIsNotEmpty(c: Capability)
    ensures CanonicalText(c) != ""
  {
  }

  /** An issued token opens exactly what it was issued for. */
  lemma IssuedTokenOpens(signer: Signer, c: Capability, expected: Capability, now: int)
    requires Issuable(c) && Separable(c)
    ensures Issue(signer, c).Ok?
    ensures Verify(signer, Issue(signer, c).value, expected, now).Ok? <==>
      && c.version == expected.version && c.kind == expected.kind && c.resourceId == expected.resourceId
      && Upper(c.verb) == Upper(expected.verb)
      && (expected.parent.None? || expected.parent == c.parent)
      && now <= c.expiresAt
  {
    VerifyIssued(signer, c, expected, now);
  }

  /** An issued token is accepted for its own capability until it expires. */
  lemma OwnTokenAccepted(signer: Signer, c: Capability, now: int)
    requires Issuable(c) && Separable(c)
    ensures Issue(signer, c).Ok?
    ensures Verify(signer, Issue(signer, c).value, c, now).Ok? <==> now <= c.expiresAt
  {
    VerifyIssued(signer, c, c, now);
  }

  // ---------------------------------------------------------------------------
  // Arbitrary tokens
  // ---------------------------------------------------------------------------

  /** Whatever token is accepted, its text is determined by its payload part, it stands for the
      capability returned, and that capability agrees with the expected one in every field that
      is checked and is in time. */
  lemma AcceptedTokenIsDetermined(signer: Signer, token: string, expected: Capability, now: int) returns (payload: string)
    requires Verify(signer, token, expected, now).Ok?
    ensures Ascii(payload) && token == Token(expected.version, payload, Signature(signer, payload))
    ensures var c := Verify(signer, token, expected, now).value;
      && DecodeCapability(payload) == Some(c)
      && c.version == expected.version && c.kind == expected.kind && c.resourceId == expected.resourceId
      && c.verb == Upper(expected.verb) && (expected.parent.None? || c.parent == expected.parent)
      && now <= c.expiresAt
  {
    hide Split, Join;
    var parts := Split(token, '.');
    payload := parts[1];
    JoinSplit(token, '.');
    assert parts == [parts[0], parts[1], parts[2]];
    JoinThree(parts[0], parts[1], parts[2], '.');
  }

  /** Verifying and re-issuing gives back the same token. */
  lemma ReissueIsIdentical(signer: Signer, c: Capability, expected: Capability, now: int)
    requires Issuable(c) && Separable(c) && c.version == expected.version
    requires InScope(Normalised(c), expected) && now <= c.expiresAt
    ensures Issue(signer, c).Ok? && Verify(signer, Issue(signer, c).value, expected, now).Ok?
    ensures Issue(signer, Verify(signer, Issue(signer, c).value, expected, now).value) == Issue(signer, c)
  {
    VerifyIssued(signer, c, expected, now);
    UpperIsStable(c.verb);
    assert Fields(Normalised(c)) == Fields(c);
  }
}
