// The WebAuthn assertion as the warehouse accepts it and as the contract checks it
// (wms/internal/signedaction/{assertion,onchain}.go).
module WebAuthnChecks {
  import opened Basics
  import opened Words
  import Base64Url

  type Key = nat

  type Sha = seq<Byte> -> Word

  // P-256 as far as the checks use it: the group order, the points, and which (r, s) verify a digest.
  datatype Curve = Curve(n: nat, onCurve: Key -> bool, valid: (Key, Word, nat, nat) -> bool)

  // A signature lies within the order, and (r, s) verifies exactly when (r, n - s) does.
  ghost predicate IsEcdsa(c: Curve) {
    && 1 < c.n < Pow256(32)
    && (forall k, d, r: nat, s: nat :: c.valid(k, d, r, s) ==> 0 < r < c.n && 0 < s < c.n)
    && (forall k, d, r: nat, s: nat :: 0 < s < c.n ==> (c.valid(k, d, r, s) <==> c.valid(k, d, r, c.n - s)))
  }

  datatype ClientData = ClientData(kind: string, challenge: string, origin: string)

  // parsed is what the JSON decoder makes of json, signature what the DER decoder makes of the signature.
  datatype Assertion = Assertion(authData: seq<Byte>, json: string, parsed: Option<ClientData>, signature: Option<(nat, nat)>)

  datatype WebAuthn = WebAuthn(authData: seq<Byte>, json: string, challengeIndex: int, typeIndex: int, r: Word, s: Word)

  const GET := "webauthn.get"
  const TYPE_FIELD := "\"type\":\"webauthn.get\""
  const CHALLENGE_FIELD := "\"challenge\":\""

  // strings.HasPrefix(text[i:], pattern)
  predicate PrefixAt(text: string, i: int, pattern: string) {
    0 <= i && i + |pattern| <= |text| && text[i..i + |pattern|] == pattern
  }

  // strings.Index, from i on.
  function IndexFrom(text: string, pattern: string, i: nat): (k: int)
    ensures k < 0 ==> forall j :: i <= j ==> !PrefixAt(text, j, pattern)
    ensures k >= 0 ==> PrefixAt(text, k, pattern) && i <= k && forall j :: i <= j < k ==> !PrefixAt(text, j, pattern)
    decreases if i <= |text| then |text| - i + 1 else 0
  {
    if i > |text| then -1
    else if PrefixAt(text, i, pattern) then i
    else IndexFrom(text, pattern, i + 1)
  }

  function Index(text: string, pattern: string): int {
    IndexFrom(text, pattern, 0)
  }

  predicate Flag(flags: Byte, bit: nat)
    requires bit > 0
  {
    flags / bit % 2 == 1
  }

  const USER_PRESENT := 0x01
  const USER_VERIFIED := 0x04
  const BACKUP_ELIGIBLE := 0x08
  const BACKED_UP := 0x10

  function Digest(sha: Sha, authData: seq<Byte>, json: string): Word {
    sha(authData + sha(AsciiOf(json)))
  }

  datatype Rejection =
    | BAD_JSON | WRONG_TYPE | WRONG_CHALLENGE | WRONG_ORIGIN | SHORT_AUTH_DATA | WRONG_RP_ID | USER_ABSENT | USER_UNVERIFIED
    | BACKUP_FLAGS | KEY_OFF_CURVE | BAD_DER | BAD_SIGNATURE | FIELD_NOT_FOUND | FIELD_NOT_AT_INDEX | HIGH_S

  datatype Verdict = Accepted(tuple: WebAuthn) | Rejected(why: Rejection)

  function LowS(c: Curve, s: nat): int {
    if s > c.n / 2 then c.n - s else s
  }

  // All the warehouse asks of an assertion.
  ghost predicate Acceptable(c: Curve, sha: Sha, a: Assertion, challenge: Word, key: Key, rpId: string, origins: seq<string>) {
    && a.parsed.Some? && a.parsed.value.kind == GET && a.parsed.value.challenge == Base64Url.Encode(challenge)
    && a.parsed.value.origin in origins
    && |a.authData| >= 37 && a.authData[..32] == sha(AsciiOf(rpId))
    && Flag(a.authData[32], USER_PRESENT) && Flag(a.authData[32], USER_VERIFIED)
    && (Flag(a.authData[32], BACKED_UP) ==> Flag(a.authData[32], BACKUP_ELIGIBLE))
    && c.onCurve(key)
    && a.signature.Some? && c.valid(key, Digest(sha, a.authData, a.json), a.signature.value.0, a.signature.value.1)
    && Index(a.json, TYPE_FIELD) >= 0 && Index(a.json, CHALLENGE_FIELD) >= 0
  }

  // Spelled out: a get assertion for this challenge and an allowed origin, authenticator data of at least 37 bytes
  // that start with the hash of the relying party, bits 0 and 2 of the flags set and bit 4 only with bit 3, a key on
  // the curve, a signature over the authenticator data and the hash of the client data, and both fields in the text.
  lemma AcceptableMeans(c: Curve, sha: Sha, a: Assertion, challenge: Word, key: Key, rpId: string, origins: seq<string>)
    ensures Acceptable(c, sha, a, challenge, key, rpId, origins) <==>
            && a.parsed.Some? && a.parsed.value.kind == "webauthn.get" && Base64Url.Decode(a.parsed.value.challenge) == Some(challenge)
            && a.parsed.value.challenge == Base64Url.Encode(challenge)
            && (exists i :: 0 <= i < |origins| && origins[i] == a.parsed.value.origin)
            && |a.authData| >= 37 && a.authData[..32] == sha(AsciiOf(rpId))
            && a.authData[32] % 2 == 1 && a.authData[32] / 4 % 2 == 1 && (a.authData[32] / 16 % 2 == 1 ==> a.authData[32] / 8 % 2 == 1)
            && c.onCurve(key)
            && a.signature.Some? && c.valid(key, sha(a.authData + sha(AsciiOf(a.json))), a.signature.value.0, a.signature.value.1)
            && (exists i :: PrefixAt(a.json, i, "\"type\":\"webauthn.get\"")) && (exists i :: PrefixAt(a.json, i, "\"challenge\":\""))
  {
    Base64Url.RoundTrip(challenge);
    FirstOrNone(a.json, TYPE_FIELD);
    FirstOrNone(a.json, CHALLENGE_FIELD);
  }

  lemma FirstOrNone(text: string, pattern: string)
    ensures Index(text, pattern) >= 0 <==> exists i :: PrefixAt(text, i, pattern)
  {
    if i :| PrefixAt(text, i, pattern) {
      assert 0 <= i;
    }
  }

  // Of the two valid values the lower one is passed on.
  lemma LowSIsLower(c: Curve, s: nat)
    requires 0 < s < c.n
    ensures LowS(c, s) in {s, c.n - s} && 2 * LowS(c, s) <= c.n
  {
  }

  // What each reason for a rejection says of the assertion.
  ghost predicate IsReason(why: Rejection, c: Curve, sha: Sha, a: Assertion, challenge: Word, key: Key, rpId: string, origins: seq<string>) {
    match why
    case BAD_JSON => a.parsed == None
    case WRONG_TYPE => a.parsed.Some? && a.parsed.value.kind != "webauthn.get"
    case WRONG_CHALLENGE => a.parsed.Some? && a.parsed.value.challenge != Base64Url.Encode(challenge)
    case WRONG_ORIGIN => a.parsed.Some? && a.parsed.value.origin !in origins
    case SHORT_AUTH_DATA => |a.authData| < 37
    case WRONG_RP_ID => |a.authData| >= 37 && a.authData[..32] != sha(AsciiOf(rpId))
    case USER_ABSENT => |a.authData| >= 37 && a.authData[32] % 2 == 0
    case USER_UNVERIFIED => |a.authData| >= 37 && a.authData[32] / 4 % 2 == 0
    case BACKUP_FLAGS => |a.authData| >= 37 && a.authData[32] / 16 % 2 == 1 && a.authData[32] / 8 % 2 == 0
    case KEY_OFF_CURVE => !c.onCurve(key)
    case BAD_DER => a.signature == None
    case BAD_SIGNATURE => a.signature.Some? && !c.valid(key, sha(a.authData + sha(AsciiOf(a.json))), a.signature.value.0, a.signature.value.1)
    case FIELD_NOT_FOUND => Index(a.json, TYPE_FIELD) < 0 || Index(a.json, CHALLENGE_FIELD) < 0
    case _ => false
  }

  method OriginAllowed(origin: string, origins: seq<string>) returns (allowed: bool)
    ensures allowed <==> origin in origins
  {
    allowed := false;
    var i := 0;
    while i < |origins| && !allowed
      invariant 0 <= i <= |origins| && (allowed ==> origin in origins) && (!allowed ==> origin !in origins[..i])
    {
      if origin == origins[i] {
        allowed := true;
      }
      i := i + 1;
    }
  }

  method Verify(c: Curve, sha: Sha, a: Assertion, challenge: Word, key: Key, rpId: string, origins: seq<string>) returns (r: Verdict)
    requires IsEcdsa(c)
    ensures r.Accepted? <==> Acceptable(c, sha, a, challenge, key, rpId, origins)
    ensures r.Rejected? ==> IsReason(r.why, c, sha, a, challenge, key, rpId, origins)
    ensures r.Accepted? ==>
              && r.tuple.authData == a.authData && r.tuple.json == a.json
              && r.tuple.typeIndex == Index(a.json, TYPE_FIELD) && r.tuple.challengeIndex == Index(a.json, CHALLENGE_FIELD)
              && NumberOf(r.tuple.r) == a.signature.value.0 && NumberOf(r.tuple.s) == LowS(c, a.signature.value.1)
  {
    if a.parsed == None {
      return Rejected(BAD_JSON);
    }
    var cdj := a.parsed.value;
    if cdj.kind != GET {
      return Rejected(WRONG_TYPE);
    }
    if cdj.challenge != Base64Url.Encode(challenge) {
      return Rejected(WRONG_CHALLENGE);
    }
    var allowed := OriginAllowed(cdj.origin, origins);
    if !allowed {
      return Rejected(WRONG_ORIGIN);
    }
    if |a.authData| < 37 {
      return Rejected(SHORT_AUTH_DATA);
    }
    if a.authData[..32] != sha(AsciiOf(rpId)) {
      return Rejected(WRONG_RP_ID);
    }
    var flags := a.authData[32];
    if !Flag(flags, USER_PRESENT) {
      return Rejected(USER_ABSENT);
    }
    if !Flag(flags, USER_VERIFIED) {
      return Rejected(USER_UNVERIFIED);
    }
    if Flag(flags, BACKED_UP) && !Flag(flags, BACKUP_ELIGIBLE) {
      return Rejected(BACKUP_FLAGS);
    }
    if !c.onCurve(key) {
      return Rejected(KEY_OFF_CURVE);
    }
    if a.signature == None {
      return Rejected(BAD_DER);
    }
    var (sigR, sigS) := a.signature.value;
    if !c.valid(key, Digest(sha, a.authData, a.json), sigR, sigS) {
      return Rejected(BAD_SIGNATURE);
    }
    var s := sigS;
    if s > c.n / 2 {
      s := c.n - s;
    }
    var typeIndex, challengeIndex := Index(a.json, TYPE_FIELD), Index(a.json, CHALLENGE_FIELD);
    if typeIndex < 0 || challengeIndex < 0 {
      return Rejected(FIELD_NOT_FOUND);
    }
    ReadsNumber(sigR, 32);
    ReadsNumber(s, 32);
    r := Accepted(WebAuthn(a.authData, a.json, challengeIndex, typeIndex, BigEndian(sigR, 32), BigEndian(s, 32)));
  }

  function Wanted(challenge: Word): string {
    CHALLENGE_FIELD + Base64Url.Encode(challenge) + "\""
  }

  // No origin and no relying party here; the indices, the flags, low s and the signature.
  function VerifyOnChain(c: Curve, sha: Sha, wa: WebAuthn, challenge: Word, key: Key): Option<Rejection> {
    if !PrefixAt(wa.json, wa.typeIndex, TYPE_FIELD) then Some(FIELD_NOT_AT_INDEX)
    else if !PrefixAt(wa.json, wa.challengeIndex, Wanted(challenge)) then Some(FIELD_NOT_AT_INDEX)
    else if |wa.authData| < 37 then Some(SHORT_AUTH_DATA)
    else if !Flag(wa.authData[32], USER_PRESENT) then Some(USER_ABSENT)
    else if !Flag(wa.authData[32], USER_VERIFIED) then Some(USER_UNVERIFIED)
    else if !c.onCurve(key) then Some(KEY_OFF_CURVE)
    else if NumberOf(wa.s) > c.n / 2 then Some(HIGH_S)
    else if !c.valid(key, Digest(sha, wa.authData, wa.json), NumberOf(wa.r), NumberOf(wa.s)) then Some(BAD_SIGNATURE)
    else None
  }

  // What the warehouse accepted passes on chain exactly when the text at the first "challenge":" goes on
  // with the challenge itself.
  lemma PassesOnChainIff(c: Curve, sha: Sha, a: Assertion, challenge: Word, key: Key, rpId: string, origins: seq<string>, wa: WebAuthn)
    requires IsEcdsa(c) && Acceptable(c, sha, a, challenge, key, rpId, origins)
    requires wa.authData == a.authData && wa.json == a.json
    requires wa.typeIndex == Index(a.json, TYPE_FIELD) && wa.challengeIndex == Index(a.json, CHALLENGE_FIELD)
    requires NumberOf(wa.r) == a.signature.value.0 && NumberOf(wa.s) == LowS(c, a.signature.value.1)
    ensures VerifyOnChain(c, sha, wa, challenge, key) == None <==> PrefixAt(a.json, Index(a.json, CHALLENGE_FIELD), Wanted(challenge))
  {
  }

  // ------------------------------------------------- serialization by section 5.8.1.1 of Web Authentication Level 2

  // CCDToString; four hexadecimal digits for what is neither plain, nor a quote, nor a backslash.
  function Escaped(s: string, hex: char -> string): string {
    if s == "" then ""
    else (if Base64Url.Plain(s[0]) then [s[0]] else if s[0] == '"' then "\\\"" else if s[0] == '\\' then "\\\\" else "\\u" + hex(s[0])) + Escaped(s[1..], hex)
  }

  lemma {:induction false} PlainIsVerbatim(s: string, hex: char -> string)
    requires forall ch :: ch in s ==> Base64Url.Plain(ch)
    ensures Escaped(s, hex) == s
    decreases |s|
  {
    if s != "" {
      PlainIsVerbatim(s[1..], hex);
      assert s == [s[0]] + s[1..];
    }
  }

  // type, challenge and origin in this order, then crossOrigin and whatever follows.
  function Serialized(kind: string, challenge: string, origin: string, rest: string): string {
    Start(kind) + Tail(challenge, origin, rest)
  }

  function Start(kind: string): string {
    "{\"type\":\"" + kind + "\",\"challenge\":\""
  }

  function Tail(challenge: string, origin: string, rest: string): string {
    challenge + ("\",\"origin\":\"" + origin + "\",\"crossOrigin\":" + rest)
  }

  ghost predicate Canonical(a: Assertion, hex: char -> string) {
    && a.parsed.Some?
    && exists rest ::
         a.json == Serialized(Escaped(a.parsed.value.kind, hex), Escaped(a.parsed.value.challenge, hex), Escaped(a.parsed.value.origin, hex), rest)
  }

  const HEAD := "{" + TYPE_FIELD + "," + CHALLENGE_FIELD

  // No quote in the type field is followed by a c.
  lemma TypeFieldText()
    ensures |TYPE_FIELD| == 21 && TYPE_FIELD[20] == '"'
    ensures forall i :: 0 <= i < 20 ==> TYPE_FIELD[i] != '"' || TYPE_FIELD[i + 1] != 'c'
  {
  }

  lemma ChallengeFieldText()
    ensures |CHALLENGE_FIELD| == 13 && CHALLENGE_FIELD[0] == '"' && CHALLENGE_FIELD[1] == 'c'
  {
  }

  lemma HeadFields()
    ensures |HEAD| == 36 && |TYPE_FIELD| == 21 && |CHALLENGE_FIELD| == 13
    ensures HEAD[1..22] == TYPE_FIELD && HEAD[23..36] == CHALLENGE_FIELD
    ensures HEAD[0] == '{' && TYPE_FIELD[0] == '"'
    ensures forall i :: 0 <= i < 23 ==> HEAD[i] != CHALLENGE_FIELD[0] || HEAD[i + 1] != CHALLENGE_FIELD[1]
  {
  }

  lemma FieldsAreInFront(json: string, tail: string)
    requires json == HEAD + tail
    ensures Index(json, TYPE_FIELD) == 1 && Index(json, CHALLENGE_FIELD) == 23
  {
    HeadFields();
    assert json[1..22] == HEAD[1..22] && json[23..36] == HEAD[23..36];
    assert PrefixAt(json, 1, TYPE_FIELD) && PrefixAt(json, 23, CHALLENGE_FIELD);
    assert !PrefixAt(json, 0, TYPE_FIELD) by {
      assert json[0..21][0] == HEAD[0];
    }
    forall i | 0 <= i < 23
      ensures !PrefixAt(json, i, CHALLENGE_FIELD)
    {
      assert json[i..i + 13][0] == HEAD[i] && json[i..i + 13][1] == HEAD[i + 1];
    }
  }

  // Every tuple Verify emits for a canonically serialized assertion passes the contract's check.
  lemma AcceptedPassesOnChain(c: Curve, sha: Sha, a: Assertion, challenge: Word, key: Key, rpId: string, origins: seq<string>,
                              wa: WebAuthn, hex: char -> string)
    requires IsEcdsa(c) && Acceptable(c, sha, a, challenge, key, rpId, origins) && Canonical(a, hex)
    requires wa.authData == a.authData && wa.json == a.json
    requires wa.typeIndex == Index(a.json, TYPE_FIELD) && wa.challengeIndex == Index(a.json, CHALLENGE_FIELD)
    requires NumberOf(wa.r) == a.signature.value.0 && NumberOf(wa.s) == LowS(c, a.signature.value.1)
    ensures VerifyOnChain(c, sha, wa, challenge, key) == None
    ensures wa.typeIndex == 1 && wa.challengeIndex == 23
  {
    PassesOnChainIff(c, sha, a, challenge, key, rpId, origins, wa);
    var text := CanonicalStart(a, challenge, hex);
    FieldsAreInFront(a.json, text);
    HeadFields();
    WantedFollows(a.json, text, challenge);
  }

  lemma StartIsHead()
    ensures Start(GET) == HEAD
  {
  }

  lemma CanonicalStart(a: Assertion, challenge: Word, hex: char -> string) returns (tail: string)
    requires Canonical(a, hex) && a.parsed.value.kind == GET && a.parsed.value.challenge == Base64Url.Encode(challenge)
    ensures a.json == HEAD + tail
    ensures Base64Url.Encode(challenge) + "\"" <= tail
  {
    var text, origin := Base64Url.Encode(challenge), Escaped(a.parsed.value.origin, hex);
    StartIsHead();
    GetIsPlain(hex);
    PlainIsVerbatim(text, hex);
    var rest :| a.json == Serialized(Escaped(a.parsed.value.kind, hex), Escaped(a.parsed.value.challenge, hex), origin, rest);
    tail := Tail(text, origin, rest);
    TailStart(text, origin, rest);
  }

  lemma GetIsPlain(hex: char -> string)
    ensures Escaped(GET, hex) == GET
  {
    PlainIsVerbatim(GET, hex);
  }

  lemma TailStart(text: string, origin: string, rest: string)
    ensures text + "\"" <= Tail(text, origin, rest)
  {
  }

  lemma WantedFollows(json: string, tail: string, challenge: Word)
    requires json == HEAD + tail && Base64Url.Encode(challenge) + "\"" <= tail
    ensures PrefixAt(json, 23, Wanted(challenge))
  {
  }

  // ------------------------------------------------------------ text in another order

  const TOY: Curve := Curve(3, _ => true, (_, _, r: nat, s: nat) => 0 < r < 3 && 0 < s < 3)

  // A flat object of plain strings and what the decoder makes of it: of a key given twice the last
  // value counts, a missing key gives the empty string.
  datatype Field = Field(key: string, value: string)

  function FieldText(f: Field): string {
    "\"" + f.key + "\":\"" + f.value + "\""
  }

  function FieldsText(fields: seq<Field>): string {
    if fields == [] then ""
    else if |fields| == 1 then FieldText(fields[0])
    else FieldText(fields[0]) + ("," + FieldsText(fields[1..]))
  }

  function ObjectText(fields: seq<Field>): string {
    "{" + FieldsText(fields) + "}"
  }

  function LastValue(fields: seq<Field>, key: string): string {
    if fields == [] then ""
    else if fields[|fields| - 1].key == key then fields[|fields| - 1].value
    else LastValue(fields[..|fields| - 1], key)
  }

  function Decoded(fields: seq<Field>): ClientData {
    ClientData(LastValue(fields, "type"), LastValue(fields, "challenge"), LastValue(fields, "origin"))
  }

  predicate PlainField(f: Field) {
    (forall i :: 0 <= i < |f.key| ==> Base64Url.Plain(f.key[i])) && (forall i :: 0 <= i < |f.value| ==> Base64Url.Plain(f.value[i]))
  }

  ghost predicate IsDecoded(a: Assertion, fields: seq<Field>) {
    (forall f :: f in fields ==> PlainField(f)) && a.json == ObjectText(fields) && a.parsed == Some(Decoded(fields))
  }

  function RepeatedField(text: string): seq<Field> {
    [Field("challenge", ""), Field("type", GET), Field("challenge", text), Field("origin", "o")]
  }

  const EMPTY_CHALLENGE := "{\"challenge\":\"\","

  lemma FourFields(a: Field, b: Field, c: Field, d: Field)
    ensures FieldsText([a, b, c, d]) == FieldText(a) + ("," + (FieldText(b) + ("," + (FieldText(c) + ("," + FieldText(d))))))
  {
    assert [a, b, c, d][1..] == [b, c, d] && [b, c, d][1..] == [c, d] && [c, d][1..] == [d];
    assert FieldsText([c, d]) == FieldText(c) + ("," + FieldText(d));
    assert FieldsText([b, c, d]) == FieldText(b) + ("," + FieldsText([c, d]));
  }

  lemma Shifted(a: string, b: string, close: string)
    ensures (a + ("," + b)) + close == a + ("," + (b + close))
  {
  }

  lemma Regrouped(open: string, a: string, b: string, c: string, d: string, close: string)
    ensures open + (a + ("," + (b + ("," + (c + ("," + d)))))) + close == open + a + "," + b + "," + (c + ("," + (d + close)))
  {
    var y := c + ("," + d);
    var z := b + ("," + y);
    Shifted(a, z, close);
    Shifted(b, y, close);
    Shifted(c, d, close);
    var rest := c + ("," + (d + close));
    assert open + (a + ("," + z)) + close == open + ((a + ("," + z)) + close);
    assert open + (a + ("," + (b + ("," + rest)))) == open + a + "," + b + "," + rest;
  }

  lemma FieldTexts(text: string)
    ensures FieldText(Field("challenge", "")) == "\"challenge\":\"\"" && FieldText(Field("type", GET)) == TYPE_FIELD
    ensures FieldText(Field("challenge", text)) == CHALLENGE_FIELD + text + "\""
  {
  }

  lemma RepeatedText(text: string) returns (tail: string)
    ensures ObjectText(RepeatedField(text)) == EMPTY_CHALLENGE + TYPE_FIELD + "," + (CHALLENGE_FIELD + text + "\"" + tail)
  {
    var last := FieldText(Field("origin", "o"));
    tail := "," + (last + "}");
    FourFields(Field("challenge", ""), Field("type", GET), Field("challenge", text), Field("origin", "o"));
    Regrouped("{", "\"challenge\":\"\"", TYPE_FIELD, CHALLENGE_FIELD + text + "\"", last, "}");
    FieldTexts(text);
    assert CHALLENGE_FIELD + text + "\"" + tail == (CHALLENGE_FIELD + text + "\"") + ("," + (last + "}"));
    assert "{" + "\"challenge\":\"\"" + "," == EMPTY_CHALLENGE;
  }

  lemma RepeatedDecodes(text: string)
    ensures Decoded(RepeatedField(text)) == ClientData(GET, text, "o")
  {
    var fs := RepeatedField(text);
    assert fs[..3][..2] == fs[..2] && LastValue(fs[..2], "type") == GET;
    assert LastValue(fs[..3], "challenge") == text && LastValue(fs[..3], "type") == GET;
  }

  lemma RepeatedFieldFails(challenge: Word) returns (sha: Sha, a: Assertion, wa: WebAuthn)
    ensures IsEcdsa(TOY) && Acceptable(TOY, sha, a, challenge, 0, "rp", ["o"])
    ensures IsDecoded(a, RepeatedField(Base64Url.Encode(challenge)))
    ensures wa.authData == a.authData && wa.json == a.json
    ensures wa.typeIndex == Index(a.json, TYPE_FIELD) && wa.challengeIndex == Index(a.json, CHALLENGE_FIELD)
    ensures NumberOf(wa.r) == a.signature.value.0 && NumberOf(wa.s) == LowS(TOY, a.signature.value.1)
    ensures VerifyOnChain(TOY, sha, wa, challenge, 0) == Some(FIELD_NOT_AT_INDEX)
  {
    var text := Base64Url.Encode(challenge);
    sha := ZERO_HASH;
    a := Assertion(PRESENT_AND_VERIFIED, ObjectText(RepeatedField(text)), Some(ClientData(GET, text, "o")), Some((1, 1)));
    RepeatedDecodes(text);
    PlainFields(text);
    ToyIsEcdsa();
    WantedText(challenge);
    RepeatedIndices(text);
    ToyAccepts(a, challenge);
    ReadsNumber(1, 32);
    var one := BigEndian(1, 32);
    wa := WebAuthn(a.authData, a.json, Index(a.json, CHALLENGE_FIELD), Index(a.json, TYPE_FIELD), one, one);
  }

  const ZERO_HASH: Sha := _ => seq(32, _ => 0)

  // User present and verified.
  const PRESENT_AND_VERIFIED: seq<Byte> := seq(32, _ => 0) + [5, 0, 0, 0, 0]

  lemma ToyIsEcdsa()
    ensures IsEcdsa(TOY) && 1 < Pow256(32)
  {
  }

  lemma ToyAccepts(a: Assertion, challenge: Word)
    requires a.authData == PRESENT_AND_VERIFIED && a.signature == Some((1, 1))
    requires a.parsed == Some(ClientData(GET, Base64Url.Encode(challenge), "o"))
    requires Index(a.json, TYPE_FIELD) >= 0 && Index(a.json, CHALLENGE_FIELD) >= 0
    ensures Acceptable(TOY, ZERO_HASH, a, challenge, 0, "rp", ["o"])
  {
    PresentFlags();
    assert ZERO_HASH(AsciiOf("rp")) == a.authData[..32];
    assert a.parsed.value.origin in ["o"];
  }

  lemma PresentFlags()
    ensures |PRESENT_AND_VERIFIED| == 37 && PRESENT_AND_VERIFIED[..32] == seq(32, _ => 0)
    ensures var flags := PRESENT_AND_VERIFIED[32]; Flag(flags, USER_PRESENT) && Flag(flags, USER_VERIFIED) && !Flag(flags, BACKED_UP)
  {
  }

  lemma PlainFields(text: string)
    requires forall i :: 0 <= i < |text| ==> Base64Url.Plain(text[i])
    ensures forall f :: f in RepeatedField(text) ==> PlainField(f)
  {
  }

  lemma RepeatedIndices(text: string)
    requires text != "" && text[0] != '"'
    ensures var json := ObjectText(RepeatedField(text));
            Index(json, TYPE_FIELD) >= 0 && Index(json, CHALLENGE_FIELD) == 1 && |json| > 14 && json[14] == '"'
  {
    var json := ObjectText(RepeatedField(text));
    var tail := RepeatedText(text);
    IndicesOf(json, CHALLENGE_FIELD + text + "\"" + tail);
  }

  lemma IndicesOf(json: string, rest: string)
    requires json == EMPTY_CHALLENGE + TYPE_FIELD + "," + rest
    ensures Index(json, TYPE_FIELD) >= 0 && Index(json, CHALLENGE_FIELD) == 1 && |json| > 14 && json[14] == '"'
  {
    ChallengeFieldText();
    TypeFieldText();
    EmptyChallengeText();
    assert json[1..14] == EMPTY_CHALLENGE[1..14];
    assert json[16..37] == TYPE_FIELD;
    assert PrefixAt(json, 1, CHALLENGE_FIELD) && PrefixAt(json, 16, TYPE_FIELD);
    assert !PrefixAt(json, 0, CHALLENGE_FIELD) by {
      assert json[0..13][0] == '{';
    }
  }

  lemma EmptyChallengeText()
    ensures |EMPTY_CHALLENGE| == 16 && EMPTY_CHALLENGE[0] == '{' && EMPTY_CHALLENGE[14] == '"' && EMPTY_CHALLENGE[1..14] == CHALLENGE_FIELD
  {
  }

  lemma WantedText(challenge: Word)
    ensures Base64Url.Encode(challenge) != "" && Base64Url.Encode(challenge)[0] != '"'
    ensures forall json, i :: PrefixAt(json, i, Wanted(challenge)) ==> i + 13 < |json| && json[i + 13] != '"'
  {
  }
}
