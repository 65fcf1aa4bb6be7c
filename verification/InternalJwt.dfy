/** Internal JWTs: signing with a key derived from the calendar month, and verification that tries
    the current month's key and, near a month start, the previous month's.

    JSON, base64url and HMAC are parameters (`Codec`); `Ideal` states what is assumed of them. */
module InternalJwt {
  import opened Text
  import opened Calendar

  const SIGNING_ALG := "HS256"
  const TYPE_INTERNAL_ACCESS := "internal_access"

  datatype ResourceRef = ResourceRef(typ: string, id: string)
  datatype ActorRef = ActorRef(typ: string, id: string)
  datatype DelegationRef = DelegationRef(onBehalfOf: string, sessionID: string, runID: string)

  datatype Claims = Claims(
    issuer: string, subject: string, audience: string,
    expiresAt: int, notBefore: int, issuedAt: int, jwtID: string,
    typ: string, version: int, policyVersion: string,
    tenantID: string, orgID: string, principalType: string, principalID: string,
    email: string, name: string, handle: string,
    roles: seq<string>, scopes: seq<string>, resource: Option<ResourceRef>,
    sessionID: string, authTime: int, source: string,
    actor: Option<ActorRef>, delegation: Option<DelegationRef>)

  datatype SignInput = SignInput(
    issuer: string, audience: string, ttl: Duration,
    tenantID: string, orgID: string, principalType: string, principalID: string,
    email: string, name: string, handle: string,
    roles: seq<string>, scopes: seq<string>, resource: Option<ResourceRef>,
    sessionID: string, authTime: Time, source: string, now: Time, jwtID: string,
    actor: Option<ActorRef>, delegation: Option<DelegationRef>, policyVersion: string)

  datatype JwtError =
    | MalformedToken | UnsupportedAlg | InvalidSignature | InvalidClaims | Expired | NotYetValid
    | BadConfiguration

  datatype Codec = Codec(
    encode: string -> string,              // base64url without padding
    decode: string -> Option<string>,
    marshal: Claims -> string,             // JSON of the claims
    unmarshal: string -> Option<Claims>,
    header: string,                        // JSON of the fixed header
    algOf: string -> Option<string>,       // the "alg" member of a header
    mac: (string, string) -> string)       // HMAC-SHA256 of a key and a message

  /** Decoding undoes encoding, encoded text has no dot, and distinct (key, message) pairs have
      distinct tags. */
  ghost predicate Ideal(c: Codec) {
    && (forall s :: c.decode(c.encode(s)) == Some(s))
    && (forall s :: '.' !in c.encode(s))
    && (forall k :: c.unmarshal(c.marshal(k)) == Some(k))
    && c.algOf(c.header) == Some(SIGNING_ALG)
    && (forall k1, m1, k2, m2 {:trigger c.mac(k1, m1), c.mac(k2, m2)} ::
          c.mac(k1, m1) == c.mac(k2, m2) ==> k1 == k2 && m1 == m2)
  }

  datatype Signer = Signer(issuer: string, secret: string, ttl: Duration)
  datatype Verifier = Verifier(issuer: string, audience: string, secret: string, ttl: Duration, skew: Duration)

  function NewSigner(issuer: string, secret: string, ttl: Duration): (r: Result<Signer, JwtError>)
    ensures r.Ok? ==> r.value.ttl > 0 && r.value.secret == secret
  {
    if |secret| < 32 || Blank(issuer) then Err(BadConfiguration)
    else Ok(Signer(TrimSpace(issuer), secret, if ttl <= 0 then 5 * MINUTE else ttl))
  }

  function NewVerifier(issuer: string, audience: string, secret: string, ttl: Duration, skew: Duration)
    : (r: Result<Verifier, JwtError>)
    ensures r.Ok? ==> r.value.ttl > 0 && r.value.skew > 0 && r.value.secret == secret
  {
    if |secret| < 32 || Blank(issuer) || Blank(audience) then Err(BadConfiguration)
    else Ok(Verifier(TrimSpace(issuer), TrimSpace(audience), secret,
                     if ttl <= 0 then 5 * MINUTE else ttl,
                     if skew <= 0 then 30 * SECOND else skew))
  }

  /** Which settings a signer and a verifier accept, and what they settle on: five minutes and half a
      minute by default. */
  lemma SettingsExactly(issuer: string, audience: string, secret: string, ttl: Duration, skew: Duration)
    ensures var s, v := NewSigner(issuer, secret, ttl), NewVerifier(issuer, audience, secret, ttl, skew);
      && (s.Ok? <==> |secret| >= 32 && TrimSpace(issuer) != "")
      && (v.Ok? <==> s.Ok? && TrimSpace(audience) != "")
      && (s.Ok? ==> s.value.issuer == TrimSpace(issuer) && s.value.secret == secret && s.value.ttl == if ttl > 0 then ttl else 300_000_000_000)
      && (v.Ok? ==> v.value.issuer == TrimSpace(issuer) && v.value.audience == TrimSpace(audience) && v.value.secret == secret
                    && v.value.ttl == s.value.ttl && v.value.skew == if skew > 0 then skew else 30_000_000_000)
  {
    hide TrimSpace;
  }

  // ----- keys -----

  function MonthKey(c: Codec, master: string, month: int): string {
    c.mac(master, "saker-jwt:" + Period(month))
  }

  function DeriveSecret(c: Codec, master: string, now: Time): string {
    MonthKey(c, master, MonthOf(now))
  }

  function PreviousPeriodSecret(c: Codec, master: string, now: Time): string {
    DeriveSecret(c, master, MonthStart(MonthOf(now)) - NANOSECOND)
  }

  predicate InPreviousPeriodWindow(now: Time, window: Duration) {
    window > 0 && MonthStart(MonthOf(now)) <= now < MonthStart(MonthOf(now)) + window
  }

  // ----- signing -----

  function SigningInput(c: Codec, claims: Claims): string {
    c.encode(c.header) + "." + c.encode(c.marshal(claims))
  }

  function SignClaims(c: Codec, claims: Claims, key: string): string {
    SigningInput(c, claims) + "." + c.encode(c.mac(key, SigningInput(c, claims)))
  }

  /** `cleanStrings`: the trimmed, non-empty values in order. */
  function CleanStrings(values: seq<string>): seq<string> {
    if values == [] then []
    else (if Blank(values[0]) then [] else [TrimSpace(values[0])]) + CleanStrings(values[1..])
  }

  lemma CleanStringsFrom(values: seq<string>, i: nat)
    requires i < |values|
    ensures var v := TrimSpace(values[i]);
      CleanStrings(values[i..]) == (if v == "" then [] else [v]) + CleanStrings(values[i + 1..])
  {
    hide TrimSpace;
    assert values[i..][0] == values[i] && values[i..][1..] == values[i + 1..];
  }

  method EvalCleanStrings(values: seq<string>) returns (out: seq<string>)
    ensures out == CleanStrings(values)
  {
    hide TrimSpace;
    out := [];
    for i := 0 to |values|
      invariant out + CleanStrings(values[i..]) == CleanStrings(values)
    {
      hide CleanStrings;
      var v := TrimSpace(values[i]);
      CleanStringsFrom(values, i);
      AppendAssociates(out, [v], CleanStrings(values[i + 1..]));
      if v != "" { out := out + [v]; }
    }
  }

  function SignTime(input: SignInput, wall: Time): Time {
    if input.now == ZERO_TIME then wall else input.now
  }

  function SignTTL(s: Signer, input: SignInput): Duration {
    if input.ttl <= 0 then s.ttl else input.ttl
  }

  function MakeClaims(s: Signer, input: SignInput, wall: Time, randomID: string): Claims {
    var now := SignTime(input, wall);
    Claims(
      if Blank(input.issuer) then s.issuer else TrimSpace(input.issuer),
      TrimSpace(input.principalID), TrimSpace(input.audience),
      Unix(now + SignTTL(s, input)), Unix(now), Unix(now),
      if Blank(input.jwtID) then randomID else TrimSpace(input.jwtID),
      TYPE_INTERNAL_ACCESS, 1, TrimSpace(input.policyVersion),
      TrimSpace(input.tenantID), TrimSpace(input.orgID), TrimSpace(input.principalType), TrimSpace(input.principalID),
      TrimSpace(input.email), TrimSpace(input.name), TrimSpace(input.handle),
      CleanStrings(input.roles), CleanStrings(input.scopes), input.resource,
      TrimSpace(input.sessionID), if input.authTime == ZERO_TIME then 0 else Unix(input.authTime),
      TrimSpace(input.source), input.actor, input.delegation)
  }

  function Sign(c: Codec, s: Signer, input: SignInput, wall: Time, randomID: string): Result<(string, Claims), JwtError> {
    var now := SignTime(input, wall);
    var claims := MakeClaims(s, input, wall, randomID);
    match ClaimsError(claims, claims.issuer, claims.audience, now, 0)
    case Some(e) => Err(e)
    case None => Ok((SignClaims(c, claims, DeriveSecret(c, s.secret, now)), claims))
  }

  // ----- verification -----

  /** Everything `validateRequiredClaims` checks before it looks at the clock. */
  predicate WellFormed(claims: Claims, issuer: string, audience: string) {
    && claims.issuer == issuer && claims.audience == audience
    && claims.typ == TYPE_INTERNAL_ACCESS && claims.version == 1
    && claims.expiresAt > 0 && claims.issuedAt > 0 && !Blank(claims.jwtID)
    && !Blank(claims.tenantID) && !Blank(claims.principalType) && !Blank(claims.principalID)
    && claims.subject != "" && claims.subject == claims.principalID
    && (claims.resource.Some? ==> !Blank(claims.resource.value.typ) && !Blank(claims.resource.value.id))
  }

  /** `validateRequiredClaims`: the error it returns, if any. */
  function ClaimsError(claims: Claims, issuer: string, audience: string, now: Time, skew: Duration): Option<JwtError> {
    if !WellFormed(claims, issuer, audience) then Some(InvalidClaims)
    else if now == ZERO_TIME then None
    else if now > claims.expiresAt * SECOND + skew then Some(Expired)
    else if claims.notBefore > 0 && now + skew < claims.notBefore * SECOND then Some(NotYetValid)
    else if now + skew < claims.issuedAt * SECOND then Some(InvalidClaims)
    else None
  }

  predicate VerifySignature(c: Codec, input: string, signature: string, key: string) {
    c.decode(signature) == Some(c.mac(key, input))
  }

  predicate SignatureAccepted(c: Codec, v: Verifier, input: string, signature: string, now: Time) {
    || VerifySignature(c, input, signature, DeriveSecret(c, v.secret, now))
    || (InPreviousPeriodWindow(now, v.ttl + v.skew)
        && VerifySignature(c, input, signature, PreviousPeriodSecret(c, v.secret, now)))
  }

  function Verify(c: Codec, v: Verifier, token: string, now: Time): Result<Claims, JwtError> {
    var parts := Split(token, '.');
    if |parts| != 3 then Err(MalformedToken)
    else
      var header := c.decode(parts[0]);
      if header.None? then Err(MalformedToken)
      else
        var alg := c.algOf(header.value);
        if alg.None? then Err(MalformedToken)
        else if alg.value != SIGNING_ALG then Err(UnsupportedAlg)
        else if !SignatureAccepted(c, v, parts[0] + "." + parts[1], parts[2], now) then Err(InvalidSignature)
        else
          var body := c.decode(parts[1]);
          if body.None? then Err(MalformedToken)
          else
            var claims := c.unmarshal(body.value);
            if claims.None? then Err(MalformedToken)
            else
              var e := ClaimsError(claims.value, v.issuer, v.audience, now, v.skew);
              if e.Some? then Err(e.value) else Ok(claims.value)
  }

  // ----- properties -----

  lemma PartsOfToken(c: Codec, claims: Claims, key: string)
    requires Ideal(c)
    ensures Split(SignClaims(c, claims, key), '.')
         == [c.encode(c.header), c.encode(c.marshal(claims)), c.encode(c.mac(key, SigningInput(c, claims)))]
  {
    var h, b, g := c.encode(c.header), c.encode(c.marshal(claims)), c.encode(c.mac(key, SigningInput(c, claims)));
    assert SignClaims(c, claims, key) == h + ['.'] + (b + ['.'] + g);
    SplitFirst(h, '.', b + ['.'] + g);
    SplitFirst(b, '.', g);
    SplitWhole(g, '.');
  }

  /** A tag made with one month's key is accepted under another month's only if the months agree. */
  lemma KeyOfMonth(c: Codec, master: string, input: string, made: int, tried: int)
    requires Ideal(c)
    ensures VerifySignature(c, input, c.encode(c.mac(MonthKey(c, master, made), input)), MonthKey(c, master, tried))
        <==> made == tried
  {
    hide Period;
    if c.mac(MonthKey(c, master, made), input) == c.mac(MonthKey(c, master, tried), input) {
      assert MonthKey(c, master, made) == MonthKey(c, master, tried);
      var a, b := "saker-jwt:" + Period(made), "saker-jwt:" + Period(tried);
      assert a[10..] == Period(made) && b[10..] == Period(tried);
      PeriodInjective(made, tried);
    }
  }

  /** The exact outcome of verifying a token made with the key of a given month. */
  lemma VerifyMonthToken(c: Codec, v: Verifier, claims: Claims, made: int, now: Time)
    requires Ideal(c)
    ensures Verify(c, v, SignClaims(c, claims, MonthKey(c, v.secret, made)), now) ==
      if made == MonthOf(now) || (made == MonthOf(now) - 1 && InPreviousPeriodWindow(now, v.ttl + v.skew)) then
        match ClaimsError(claims, v.issuer, v.audience, now, v.skew)
        case Some(e) => Err(e)
        case None => Ok(claims)
      else Err(InvalidSignature)
  {
    hide MonthOf, MonthKey, ClaimsError, Split;
    var key := MonthKey(c, v.secret, made);
    PartsOfToken(c, claims, key);
    KeyOfMonth(c, v.secret, SigningInput(c, claims), made, MonthOf(now));
    KeyOfMonth(c, v.secret, SigningInput(c, claims), made, MonthOf(now) - 1);
    PreviousMonth(now);
  }

  /** The signature is one made with the key of this month, or of the last while it is still tried. */
  ghost predicate SignedInTime(c: Codec, v: Verifier, text: string, signature: string, now: Time) {
    exists month ::
      && (month == MonthOf(now) || (month == MonthOf(now) - 1 && now < MonthStart(MonthOf(now)) + v.ttl + v.skew))
      && c.decode(signature) == Some(c.mac(c.mac(v.secret, "saker-jwt:" + Period(month)), text))
  }

  /** The claims are for this verifier, complete, and in time. */
  predicate ClaimsAccepted(v: Verifier, claims: Claims, now: Time) {
    && claims.issuer == v.issuer && claims.audience == v.audience && claims.typ == "internal_access" && claims.version == 1
    && claims.subject == claims.principalID && claims.subject != ""
    && (forall part :: part in [claims.jwtID, claims.tenantID, claims.principalType, claims.principalID] ==> TrimSpace(part) != "")
    && (claims.resource.Some? ==> TrimSpace(claims.resource.value.typ) != "" && TrimSpace(claims.resource.value.id) != "")
    && claims.expiresAt > 0 && claims.issuedAt > 0
    && (now != ZERO_TIME ==>
          && now <= claims.expiresAt * 1_000_000_000 + v.skew && claims.issuedAt * 1_000_000_000 <= now + v.skew
          && (claims.notBefore > 0 ==> claims.notBefore * 1_000_000_000 <= now + v.skew))
  }

  /** Three parts: a header that names HS256, claims that are accepted, and a signature in time over both. */
  ghost predicate Accepted(c: Codec, v: Verifier, parts: seq<string>, claims: Claims, now: Time) {
    && |parts| == 3
    && c.decode(parts[0]).Some? && c.algOf(c.decode(parts[0]).value) == Some("HS256")
    && SignedInTime(c, v, parts[0] + "." + parts[1], parts[2], now)
    && c.decode(parts[1]).Some? && c.unmarshal(c.decode(parts[1]).value) == Some(claims)
    && ClaimsAccepted(v, claims, now)
  }

  lemma ClaimsErrorExactly(v: Verifier, claims: Claims, now: Time)
    ensures ClaimsError(claims, v.issuer, v.audience, now, v.skew).None? <==> ClaimsAccepted(v, claims, now)
  {
    hide TrimSpace;
    var parts := [claims.jwtID, claims.tenantID, claims.principalType, claims.principalID];
    assert parts[0] in parts && parts[1] in parts && parts[2] in parts && parts[3] in parts;
  }

  lemma SignatureExactly(c: Codec, v: Verifier, text: string, signature: string, now: Time)
    ensures SignatureAccepted(c, v, text, signature, now) <==> SignedInTime(c, v, text, signature, now)
  {
    hide Period, FirstDay;
    PreviousMonth(now);
    var m := MonthOf(now);
    assert MonthStart(m) <= now;
    if VerifySignature(c, text, signature, MonthKey(c, v.secret, m)) {
      assert c.decode(signature) == Some(c.mac(c.mac(v.secret, "saker-jwt:" + Period(m)), text));
    }
    if InPreviousPeriodWindow(now, v.ttl + v.skew) && VerifySignature(c, text, signature, MonthKey(c, v.secret, m - 1)) {
      assert c.decode(signature) == Some(c.mac(c.mac(v.secret, "saker-jwt:" + Period(m - 1)), text));
    }
  }

  /** Exactly which tokens a verifier accepts, whoever made them, and with which claims. */
  lemma VerifyExactly(c: Codec, v: Verifier, token: string, now: Time, claims: Claims)
    ensures Verify(c, v, token, now) == Ok(claims) <==> Accepted(c, v, Split(token, '.'), claims, now)
  {
    hide ClaimsError, ClaimsAccepted, SignatureAccepted, SignedInTime, Split;
    var parts := Split(token, '.');
    if |parts| == 3 { SignatureExactly(c, v, parts[0] + "." + parts[1], parts[2], now); }
    ClaimsErrorExactly(v, claims, now);
  }

  /** Only a verifier with the signer's own master secret accepts. */
  lemma SecretOfAccepted(c: Codec, v: Verifier, claims: Claims, master: string, made: int, now: Time)
    requires Ideal(c) && Verify(c, v, SignClaims(c, claims, MonthKey(c, master, made)), now).Ok?
    ensures v.secret == master
  {
    hide MonthOf, ClaimsError, Split, Period;
    var key, text := MonthKey(c, master, made), SigningInput(c, claims);
    PartsOfToken(c, claims, key);
    assert SignatureAccepted(c, v, text, c.encode(c.mac(key, text)), now);
    assert c.decode(c.encode(c.mac(key, text))) == Some(c.mac(key, text));
  }

  /** Rotation horizon: whatever expiry the claims carry, an accepted token was made with this
      month's key, or with the previous month's within ttl + skew of the month start. */
  lemma RotationHorizon(c: Codec, v: Verifier, claims: Claims, made: int, now: Time)
    requires Ideal(c)
    requires Verify(c, v, SignClaims(c, claims, MonthKey(c, v.secret, made)), now).Ok?
    ensures made == MonthOf(now)
         || (made == MonthOf(now) - 1 && now < MonthStart(MonthOf(now)) + v.ttl + v.skew)
  {
    hide MonthOf, ClaimsError, Verify;
    VerifyMonthToken(c, v, claims, made, now);
  }

  /** The token, its claims and the instant of one successful signing. */
  ghost predicate Signed(c: Codec, s: Signer, input: SignInput, wall: Time, randomID: string, token: string, claims: Claims) {
    Sign(c, s, input, wall, randomID) == Ok((token, claims))
  }

  /** What the clock says of claims made at `at`, at any later instant. */
  lemma ClaimsErrorLater(claims: Claims, issuer: string, audience: string, at: Time, now: Time, skew: Duration)
    requires WellFormed(claims, issuer, audience) && skew >= 0
    requires claims.issuedAt == claims.notBefore == Unix(at) && ZERO_TIME < at <= now
    ensures ClaimsError(claims, issuer, audience, now, skew)
         == if now > claims.expiresAt * SECOND + skew then Some(Expired) else None
  {
  }

  /** The exact acceptance condition, with no bound on any lifetime: from the signing instant on, a
      token is accepted exactly while it has not expired (with skew) and its month's key is still
      tried. */
  lemma AcceptedExactly(c: Codec, s: Signer, v: Verifier, input: SignInput, wall: Time, randomID: string,
                        token: string, claims: Claims, now: Time)
    requires Ideal(c) && Signed(c, s, input, wall, randomID, token, claims)
    requires v.secret == s.secret && v.issuer == claims.issuer && v.audience == claims.audience && v.skew >= 0
    requires SignTime(input, wall) <= now
    ensures var made := MonthOf(SignTime(input, wall));
      Verify(c, v, token, now) == Ok(claims) <==>
        && now <= claims.expiresAt * SECOND + v.skew
        && (made == MonthOf(now) || (made == MonthOf(now) - 1 && InPreviousPeriodWindow(now, v.ttl + v.skew)))
  {
    hide MonthOf;
    var at := SignTime(input, wall);
    SignedClaims(c, s, input, wall, randomID, token, claims);
    VerifyMonthToken(c, v, claims, MonthOf(at), now);
    ClaimsErrorLater(claims, v.issuer, v.audience, at, now, v.skew);
  }

  lemma SignedClaims(c: Codec, s: Signer, input: SignInput, wall: Time, randomID: string, token: string, claims: Claims)
    requires Signed(c, s, input, wall, randomID, token, claims)
    ensures WellFormed(claims, claims.issuer, claims.audience)
    ensures ZERO_TIME < SignTime(input, wall)
    ensures claims.issuedAt == claims.notBefore == Unix(SignTime(input, wall))
    ensures claims.expiresAt == Unix(SignTime(input, wall) + SignTTL(s, input))
    ensures token == SignClaims(c, claims, MonthKey(c, s.secret, MonthOf(SignTime(input, wall))))
  {
    hide MonthOf, TrimSpace;
  }

  lemma {:induction false} CleanExactly(values: seq<string>, x: string)
    ensures x in CleanStrings(values) <==> x != "" && exists i :: 0 <= i < |values| && TrimSpace(values[i]) == x
  {
    hide TrimSpace;
    if values != [] {
      CleanExactly(values[1..], x);
      assert values == [values[0]] + values[1..];
    }
  }

  /** Every claim of a successful signing, from its input. */
  lemma SignedFields(c: Codec, s: Signer, input: SignInput, wall: Time, randomID: string, token: string, claims: Claims)
    requires Signed(c, s, input, wall, randomID, token, claims)
    ensures claims.issuer == if TrimSpace(input.issuer) == "" then s.issuer else TrimSpace(input.issuer)
    ensures claims.jwtID == if TrimSpace(input.jwtID) == "" then randomID else TrimSpace(input.jwtID)
    ensures claims.subject == claims.principalID == TrimSpace(input.principalID) && claims.principalType == TrimSpace(input.principalType)
    ensures claims.audience == TrimSpace(input.audience) && claims.tenantID == TrimSpace(input.tenantID) && claims.orgID == TrimSpace(input.orgID)
    ensures claims.email == TrimSpace(input.email) && claims.name == TrimSpace(input.name) && claims.handle == TrimSpace(input.handle)
    ensures claims.sessionID == TrimSpace(input.sessionID) && claims.source == TrimSpace(input.source)
    ensures claims.policyVersion == TrimSpace(input.policyVersion) && claims.typ == "internal_access" && claims.version == 1
    ensures claims.authTime == if input.authTime == ZERO_TIME then 0 else input.authTime / 1_000_000_000
    ensures claims.resource == input.resource && claims.actor == input.actor && claims.delegation == input.delegation
    ensures forall x :: x in claims.roles <==> x != "" && exists i :: 0 <= i < |input.roles| && TrimSpace(input.roles[i]) == x
    ensures forall x :: x in claims.scopes <==> x != "" && exists i :: 0 <= i < |input.scopes| && TrimSpace(input.scopes[i]) == x
  {
    hide MonthOf, TrimSpace, CleanStrings, SignClaims;
    forall x { CleanExactly(input.roles, x); }
    forall x { CleanExactly(input.scopes, x); }
  }

  /** Rotation completeness: when the lifetime is at most the verifier's and ttl + skew at most 28
      days, key rotation never rejects a token: it is accepted exactly until it expires, across any
      month or year boundary. */
  lemma RotationComplete(c: Codec, s: Signer, v: Verifier, input: SignInput, wall: Time, randomID: string,
                         token: string, claims: Claims, now: Time)
    requires Ideal(c) && Signed(c, s, input, wall, randomID, token, claims)
    requires v.secret == s.secret && v.issuer == claims.issuer && v.audience == claims.audience && v.skew >= 0
    requires SignTime(input, wall) <= now
    requires SignTTL(s, input) <= v.ttl && 0 < v.ttl + v.skew <= 28 * DAY
    ensures Verify(c, v, token, now) == Ok(claims) <==> now <= claims.expiresAt * SECOND + v.skew
  {
    hide MonthOf, Verify, Signed, WellFormed;
    AcceptedExactly(c, s, v, input, wall, randomID, token, claims, now);
    SignedClaims(c, s, input, wall, randomID, token, claims);
    if now <= claims.expiresAt * SECOND + v.skew {
      RotationInTime(SignTime(input, wall), now, v.ttl + v.skew);
    }
  }

  /** Two instants less than 28 days apart are in the same month, or the later one is that close to
      the start of the next month. */
  lemma RotationInTime(at: Time, now: Time, window: Duration)
    requires at <= now <= at + window && 0 < window <= 28 * DAY
    ensures MonthOf(at) == MonthOf(now) || (MonthOf(at) == MonthOf(now) - 1 && InPreviousPeriodWindow(now, window))
  {
    hide FirstDay;
    var m := MonthOf(now);
    MonthMonotone(at, now);
    MonthLength(m - 1);
    if MonthOf(at) != m {
      FirstDayMonotone(MonthOf(at) + 1, m);
      MonthUnique(at, m - 1);
    }
  }

  /** Beyond 28 days the bound matters: a token whose key month is two or more behind is rejected
      even though it has not expired. */
  lemma RotationTooLate(c: Codec, s: Signer, v: Verifier, input: SignInput, wall: Time, randomID: string,
                        token: string, claims: Claims, now: Time)
    requires Ideal(c) && Signed(c, s, input, wall, randomID, token, claims)
    requires v.secret == s.secret
    requires MonthOf(now) < MonthOf(SignTime(input, wall)) || MonthOf(SignTime(input, wall)) + 1 < MonthOf(now)
    ensures Verify(c, v, token, now) == Err(InvalidSignature)
  {
    hide MonthOf, Verify, Signed, WellFormed;
    SignedClaims(c, s, input, wall, randomID, token, claims);
    VerifyMonthToken(c, v, claims, MonthOf(SignTime(input, wall)), now);
  }

  /** From the last nanosecond of the January before a common February to the first of
      March is 28 days and a nanosecond, and the month key is two behind. `year` is the year itself. */
  lemma TightMonths(year: int)
    requires !Leap(year)
    ensures var at, now := MonthStart(12 * year + 1) - NANOSECOND, MonthStart(12 * year + 2);
      now == at + 28 * DAY + NANOSECOND && MonthOf(now) == MonthOf(at) + 2
  {
    hide FirstDay;
    var feb := 12 * year + 1;
    FebruaryLength(year);
    MonthLength(feb - 1);
    MonthUnique(MonthStart(feb) - NANOSECOND, feb - 1);
    MonthLength(feb + 1);
    MonthUnique(MonthStart(feb + 1), feb + 1);
  }

  lemma FebruaryLength(year: int)
    requires !Leap(year)
    ensures FirstDay(12 * year + 2) == FirstDay(12 * year + 1) + 28
  {
  }

  lemma PlainPart()
    ensures !Blank("t") && TrimSpace("t") == "t" && Blank("")
  {
  }

  /** 28 days is tight: for any signer and verifier whose lifetime and skew, in whole seconds, come to one
      nanosecond more, there is a token that is refused for its signature although it has not expired. */
  lemma RotationTight(c: Codec, s: Signer, v: Verifier, year: int) returns (input: SignInput, token: string, claims: Claims)
    requires Ideal(c) && v.secret == s.secret && v.issuer == s.issuer && TrimSpace(v.audience) == v.audience
    requires s.ttl > 0 && v.skew >= 0 && v.skew % SECOND == 0 && s.ttl + v.skew == 28 * DAY + NANOSECOND
    requires year > 1970 && !Leap(year)
    ensures Signed(c, s, input, ZERO_TIME, "", token, claims) && claims.issuer == v.issuer && claims.audience == v.audience
    ensures var now := MonthStart(12 * year + 2);
      && SignTime(input, ZERO_TIME) <= now <= claims.expiresAt * SECOND + v.skew
      && Verify(c, v, token, now) == Err(InvalidSignature)
  {
    hide Ideal, MonthOf, FirstDay, TrimSpace, SignClaims, Verify;
    var at, now := MonthStart(12 * year + 1) - NANOSECOND, MonthStart(12 * year + 2);
    TightMonths(year);
    PlainPart();
    KnownDates();
    FirstDayMonotone(23640, 12 * year + 1);
    input := SignInput("", v.audience, 0, "t", "", "t", "t", "", "", "", [], [], None, "", 0, "", at, "t", None, None, "");
    claims := MakeClaims(s, input, ZERO_TIME, "");
    assert at + s.ttl == now - v.skew;
    assert claims.expiresAt * SECOND == now - v.skew;
    token := SignClaims(c, claims, DeriveSecret(c, s.secret, at));
    RotationTooLate(c, s, v, input, ZERO_TIME, "", token, claims, now);
  }

  /** For a signer and a verifier as configured, with lifetimes that fit in 28 days: a token is accepted
      exactly if it names the verifier's issuer and audience and has not expired. */
  lemma ConfiguredRotation(c: Codec, issuer: string, secret: string, signerTTL: Duration, expected: string, audience: string,
                           verifierTTL: Duration, skew: Duration,
                           input: SignInput, wall: Time, randomID: string, token: string, claims: Claims, now: Time)
    requires Ideal(c) && NewSigner(issuer, secret, signerTTL).Ok? && NewVerifier(expected, audience, secret, verifierTTL, skew).Ok?
    requires var s, v := NewSigner(issuer, secret, signerTTL).value, NewVerifier(expected, audience, secret, verifierTTL, skew).value;
      SignTTL(s, input) <= v.ttl && v.ttl + v.skew <= 28 * DAY && Signed(c, s, input, wall, randomID, token, claims)
    requires SignTime(input, wall) <= now
    ensures var v := NewVerifier(expected, audience, secret, verifierTTL, skew).value;
      Verify(c, v, token, now) == Ok(claims) <==>
        claims.issuer == TrimSpace(expected) && claims.audience == TrimSpace(audience) && now <= claims.expiresAt * SECOND + v.skew
    ensures Blank(input.issuer) ==> claims.issuer == TrimSpace(issuer)
    ensures signerTTL <= 0 && verifierTTL <= 0 && skew <= 0 ==>
      NewSigner(issuer, secret, signerTTL).value.ttl == NewVerifier(expected, audience, secret, verifierTTL, skew).value.ttl
  {
    hide TrimSpace, MonthOf, Verify, MonthKey;
    var s, v := NewSigner(issuer, secret, signerTTL).value, NewVerifier(expected, audience, secret, verifierTTL, skew).value;
    if claims.issuer == v.issuer && claims.audience == v.audience {
      RotationComplete(c, s, v, input, wall, randomID, token, claims, now);
    } else {
      SignedClaims(c, s, input, wall, randomID, token, claims);
      VerifyMonthToken(c, v, claims, MonthOf(SignTime(input, wall)), now);
    }
  }
}
