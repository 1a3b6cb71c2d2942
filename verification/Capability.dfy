/** Signed node capabilities (internal/node/capability.go). Signing is ideal: a verifier accepts
    exactly the claims its signer issued, so a token is identified with its claims. */
module Capability {
  import opened Identifiers

  const CAPABILITY_VERSION := 1
  const MAX_TTL_SECONDS := 30
  const NANOS := 1_000_000_000
  const MAX_OPERATION_MILLIS := 24 * 60 * 60 * 1_000
  const MAX_CAPABILITY_BYTES := 0x4000_0000
  const MAX_IDENTITY := 256
  const MAX_PORT := 65_535

  datatype Operation = RunCommand | ReadFile | WriteFile | ProxyPort | WebSocket

  datatype Bounds = Bounds(maxDurationMillis: int, maxRequestBytes: int, maxResponseBytes: int, port: nat)

  /** Times in claims are whole seconds. */
  datatype Claims = Claims(
    version: int, keyId: string, issuer: string, audience: string, nodeId: string, bootEpoch: string,
    routeId: string, generation: nat, projectId: string, sandboxId: string, jti: string,
    operation: Operation, requestDigest: string, issuedAt: int, notBefore: int, expiresAt: int, bounds: Bounds)

  datatype IssueRequest = IssueRequest(
    audience: string, nodeId: string, bootEpoch: string, routeId: string, generation: nat,
    projectId: string, sandboxId: string, operation: Operation, requestDigest: string, bounds: Bounds,
    ttlNanos: int, notBeforeNanos: int)

  /** The context a node establishes on its own before it matches a capability against it. */
  datatype Expected = Expected(
    audience: string, nodeId: string, bootEpoch: string, routeId: string, generation: nat,
    projectId: string, sandboxId: string, operation: Operation, requestDigest: string)

  datatype Error = InvalidCapability | UnknownKey | NotYetValid | Expired | Mismatch | Stale

  datatype Result<+T> = Ok(value: T) | Err(error: Error)

  predicate ValidIdentity(value: string) {
    && 1 <= |value| <= MAX_IDENTITY
    && !IsSpace(value[0]) && !IsSpace(value[|value| - 1])
    && forall i | 0 <= i < |value| :: 0x20 <= value[i] as int && value[i] as int != 0x7F
  }

  function Base64UrlIndex(c: char): int {
    if 'A' <= c <= 'Z' then c as int - 'A' as int
    else if 'a' <= c <= 'z' then c as int - 'a' as int + 26
    else if '0' <= c <= '9' then c as int - '0' as int + 52
    else if c == '-' then 62
    else if c == '_' then 63
    else -1
  }

  /** The strict unpadded base64url encodings of `size` bytes, for sizes not divisible by three: the
      last character carries only the remaining bits and its unused low bits are zero. */
  predicate ValidEncodedSize(value: string, size: nat)
    requires size % 3 != 0
  {
    && |value| == size / 3 * 4 + size % 3 + 1
    && (forall i | 0 <= i < |value| :: Base64UrlIndex(value[i]) >= 0)
    && Base64UrlIndex(value[|value| - 1]) % (if size % 3 == 1 then 16 else 4) == 0
  }

  predicate ValidBounds(operation: Operation, b: Bounds) {
    && 0 <= b.maxDurationMillis <= MAX_OPERATION_MILLIS
    && 0 <= b.maxRequestBytes <= MAX_CAPABILITY_BYTES
    && 0 <= b.maxResponseBytes <= MAX_CAPABILITY_BYTES
    && b.port <= MAX_PORT
    && match operation
       case RunCommand => b.maxDurationMillis != 0 && b.maxResponseBytes != 0 && b.maxRequestBytes == 0 && b.port == 0
       case ReadFile => b.maxResponseBytes != 0 && b.maxDurationMillis == 0 && b.maxRequestBytes == 0 && b.port == 0
       case WriteFile => b.maxRequestBytes != 0 && b.maxDurationMillis == 0 && b.maxResponseBytes == 0 && b.port == 0
       case ProxyPort => b.port != 0 && b.maxDurationMillis != 0 && b.maxRequestBytes != 0 && b.maxResponseBytes != 0
       case WebSocket => b.port != 0 && b.maxDurationMillis != 0 && b.maxRequestBytes != 0 && b.maxResponseBytes != 0
  }

  predicate ValidClaims(c: Claims) {
    && c.version == CAPABILITY_VERSION
    && ValidIdentity(c.keyId) && ValidIdentity(c.issuer) && ValidIdentity(c.audience) && ValidIdentity(c.nodeId)
    && ValidIdentity(c.bootEpoch) && ValidIdentity(c.routeId) && ValidIdentity(c.projectId)
    && ValidIdentity(c.sandboxId)
    && c.generation != 0
    && ValidEncodedSize(c.jti, 16) && ValidEncodedSize(c.requestDigest, 32)
    && 0 < c.issuedAt <= c.notBefore < c.expiresAt <= c.issuedAt + MAX_TTL_SECONDS
    && ValidBounds(c.operation, c.bounds)
  }

  predicate ValidExpected(e: Expected) {
    && ValidIdentity(e.audience) && ValidIdentity(e.nodeId) && ValidIdentity(e.bootEpoch)
    && ValidIdentity(e.routeId) && ValidIdentity(e.projectId) && ValidIdentity(e.sandboxId)
    && e.generation != 0 && ValidEncodedSize(e.requestDigest, 32)
  }

  /** Signs claims for `request` at `nowNanos`; `jti` is the signer's fresh random identifier. */
  function Issue(issuer: string, keyId: string, request: IssueRequest, nowNanos: int, jti: string): Result<Claims> {
    if request.ttlNanos < NANOS || request.ttlNanos > MAX_TTL_SECONDS * NANOS || request.ttlNanos % NANOS != 0 then
      Err(InvalidCapability)
    else
      var now := nowNanos / NANOS;
      var notBefore := if request.notBeforeNanos == 0 then now else request.notBeforeNanos / NANOS;
      var expires := now + request.ttlNanos / NANOS;
      if notBefore < now || notBefore >= expires then Err(InvalidCapability)
      else
        var c := Claims(CAPABILITY_VERSION, keyId, issuer, request.audience, request.nodeId, request.bootEpoch,
                        request.routeId, request.generation, request.projectId, request.sandboxId, jti,
                        request.operation, request.requestDigest, now, notBefore, expires, request.bounds);
        if ValidClaims(c) then Ok(c) else Err(InvalidCapability)
  }

  /** What the verifier accepts of a genuinely signed token at `nowNanos`. */
  function Authenticate(issuer: string, keys: set<string>, c: Claims, nowNanos: int): Result<Claims> {
    if c.keyId !in keys then Err(UnknownKey)
    else if !ValidClaims(c) then Err(InvalidCapability)
    else if c.issuer != issuer then Err(Mismatch)
    else
      var now := nowNanos / NANOS;
      if now < c.issuedAt || now < c.notBefore then Err(NotYetValid)
      else if now >= c.expiresAt then Err(Expired)
      else Ok(c)
  }

  function Match(issuer: string, c: Claims, e: Expected): Result<()> {
    if !ValidClaims(c) || c.issuer != issuer || !ValidExpected(e) then Err(Mismatch)
    else if c.audience == e.audience && c.nodeId == e.nodeId && c.bootEpoch == e.bootEpoch && c.routeId == e.routeId
            && c.generation == e.generation && c.projectId == e.projectId && c.sandboxId == e.sandboxId
            && c.operation == e.operation && c.requestDigest == e.requestDigest then Ok(())
    else Err(Mismatch)
  }

  /** The context a request was issued for. */
  function ContextOf(request: IssueRequest): Expected {
    Expected(request.audience, request.nodeId, request.bootEpoch, request.routeId, request.generation,
             request.projectId, request.sandboxId, request.operation, request.requestDigest)
  }

  /** A capability that was issued verifies exactly in its own context and exactly within its window. */
  lemma IssuedVerifiesExactly(issuer: string, keyId: string, request: IssueRequest, issuedNanos: int, jti: string,
                              keys: set<string>, e: Expected, nowNanos: int)
    requires keyId in keys && Issue(issuer, keyId, request, issuedNanos, jti).Ok?
    ensures var c := Issue(issuer, keyId, request, issuedNanos, jti).value;
            && (Authenticate(issuer, keys, c, nowNanos).Ok? <==>
                c.notBefore * NANOS <= nowNanos < c.expiresAt * NANOS)
            && (Match(issuer, c, e).Ok? <==> e == ContextOf(request))
  {
    var c := Issue(issuer, keyId, request, issuedNanos, jti).value;
    hide ValidIdentity, ValidEncodedSize, ValidBounds;
    FloorBelow(nowNanos, c.expiresAt);
    FloorBelow(nowNanos, c.notBefore);
  }

  lemma FloorBelow(nanos: int, seconds: int)
    ensures nanos / NANOS < seconds <==> nanos < seconds * NANOS
  {
  }

  /** The relay client's lifetime for a capability: at most the maximum, in whole seconds, and within
      what remains of the authorization it acts under. */
  function ClampTtl(remainingNanos: int): Result<int> {
    var ttl := if remainingNanos < MAX_TTL_SECONDS * NANOS then TruncateSeconds(remainingNanos)
        else MAX_TTL_SECONDS * NANOS;
    if ttl < NANOS then Err(Stale) else Ok(ttl)
  }

  /** Rounds toward zero to a multiple of a second. */
  function TruncateSeconds(nanos: int): int {
    if nanos >= 0 then nanos / NANOS * NANOS else -((-nanos) / NANOS * NANOS)
  }

  /** A clamped lifetime keeps a capability within the authorization it acts under: it outlives the
      binding by no more than the time between the client's two clock readings. */
  lemma ClampedCapabilityWithinBinding(issuer: string, keyId: string, request: IssueRequest, bindingNow: int,
                                       signerNow: int, bindingExpiry: int, jti: string)
    requires ClampTtl(bindingExpiry - bindingNow).Ok? && request.ttlNanos == ClampTtl(bindingExpiry - bindingNow).value
    requires Issue(issuer, keyId, request, signerNow, jti).Ok?
    ensures Issue(issuer, keyId, request, signerNow, jti).value.expiresAt * NANOS
            <= bindingExpiry + (signerNow - bindingNow)
  {
    hide ValidClaims;
    var c := Issue(issuer, keyId, request, signerNow, jti).value;
    assert request.ttlNanos <= bindingExpiry - bindingNow;
    assert c.expiresAt * NANOS == signerNow / NANOS * NANOS + request.ttlNanos;
  }

  // ---------- What a holder and a node can rely on ----------

  /** Every safe name is a valid identity; nothing empty, over 256 characters, with a space at either end or with a
      control character is. */
  lemma IdentitiesAre(value: string, i: nat)
    ensures SafeName(value) ==> ValidIdentity(value)
    ensures value == "" || |value| > 256 ==> !ValidIdentity(value)
    ensures value != "" && (value[0] == ' ' || value[|value| - 1] == ' ') ==> !ValidIdentity(value)
    ensures i < |value| && (value[i] < ' ' || value[i] as int == 0x7F) ==> !ValidIdentity(value)
  {
  }

  /** An issued capability says what was asked for, from the second it was signed in, for exactly the time asked for. */
  lemma IssueExactly(issuer: string, keyId: string, request: IssueRequest, nowNanos: int, jti: string)
    ensures var r := Issue(issuer, keyId, request, nowNanos, jti);
            && (r.Ok? ==>
                  && var c := r.value;
                     && c.issuer == issuer && c.keyId == keyId && c.jti == jti && c.bounds == request.bounds
                     && c.audience == request.audience && c.nodeId == request.nodeId && c.bootEpoch == request.bootEpoch
                     && c.routeId == request.routeId && c.generation == request.generation
                     && c.projectId == request.projectId && c.sandboxId == request.sandboxId
                     && c.operation == request.operation && c.requestDigest == request.requestDigest
                     && c.issuedAt * NANOS <= nowNanos < (c.issuedAt + 1) * NANOS
                     && (c.expiresAt - c.issuedAt) * NANOS == request.ttlNanos
                     && (request.notBeforeNanos == 0 ==> c.notBefore == c.issuedAt)
                     && (request.notBeforeNanos != 0 ==>
                           c.notBefore * NANOS <= request.notBeforeNanos < (c.notBefore + 1) * NANOS)
                     && ValidClaims(c))
            && (r.Err? ==> r.error == InvalidCapability)
            && (r.Ok? ==> 1_000_000_000 <= request.ttlNanos <= 30_000_000_000 && request.ttlNanos % 1_000_000_000 == 0)
  {
    hide ValidIdentity, ValidEncodedSize, ValidBounds;
  }

  /** A request that asks for a whole number of seconds up to the maximum, with valid names and bounds, is granted. */
  lemma WellFormedRequestIsIssued(issuer: string, keyId: string, request: IssueRequest, nowNanos: int, jti: string,
                                  seconds: int)
    requires 1 <= seconds <= 30 && request.ttlNanos == seconds * 1_000_000_000 && request.notBeforeNanos == 0
    requires nowNanos >= 1_000_000_000 && request.generation > 0
    requires ValidIdentity(issuer) && ValidIdentity(keyId) && ValidIdentity(request.audience)
             && ValidIdentity(request.nodeId)
    requires ValidIdentity(request.bootEpoch) && ValidIdentity(request.routeId) && ValidIdentity(request.projectId)
    requires ValidIdentity(request.sandboxId) && ValidEncodedSize(jti, 16)
             && ValidEncodedSize(request.requestDigest, 32)
    requires ValidBounds(request.operation, request.bounds)
    ensures Issue(issuer, keyId, request, nowNanos, jti).Ok?
  {
    hide ValidIdentity, ValidEncodedSize, ValidBounds;
    assert request.ttlNanos / NANOS == seconds;
    assert nowNanos / NANOS >= 1;
  }

  /** Whatever is issued lives at most thirty seconds and is bounded by what its operation needs and no more. */
  lemma IssuedIsBounded(issuer: string, keyId: string, request: IssueRequest, nowNanos: int, jti: string)
    requires Issue(issuer, keyId, request, nowNanos, jti).Ok?
    ensures var c := Issue(issuer, keyId, request, nowNanos, jti).value;
            && c.version == 1 && c.generation > 0 && c.issuedAt <= c.notBefore < c.expiresAt <= c.issuedAt + 30
            && |c.jti| == 22 && |c.requestDigest| == 43
            && 0 <= c.bounds.maxDurationMillis <= 86_400_000
            && 0 <= c.bounds.maxRequestBytes <= 1_073_741_824 && 0 <= c.bounds.maxResponseBytes <= 1_073_741_824
            && (c.operation in {ProxyPort, WebSocket} <==> c.bounds.port > 0) && c.bounds.port <= 65_535
            && (c.operation in {RunCommand, ProxyPort, WebSocket} <==> c.bounds.maxDurationMillis > 0)
            && (c.operation in {WriteFile, ProxyPort, WebSocket} <==> c.bounds.maxRequestBytes > 0)
            && (c.operation in {RunCommand, ReadFile, ProxyPort, WebSocket} <==> c.bounds.maxResponseBytes > 0)
  {
    hide ValidIdentity;
  }

  /** A genuine token is accepted exactly if its key is known, its claims are valid, it is from this issuer and the
      time is in its window; the refusal names the first of these that fails. */
  lemma AuthenticateExactly(issuer: string, keys: set<string>, c: Claims, nowNanos: int)
    ensures var r := Authenticate(issuer, keys, c, nowNanos);
            && (r.Ok? <==>
                  && c.keyId in keys && ValidClaims(c) && c.issuer == issuer
                  && c.notBefore * 1_000_000_000 <= nowNanos < c.expiresAt * 1_000_000_000)
            && (r.Ok? ==> r.value == c)
            && (r == Err(UnknownKey) <==> c.keyId !in keys)
            && (r == Err(InvalidCapability) <==> c.keyId in keys && !ValidClaims(c))
            && (r == Err(Mismatch) <==> c.keyId in keys && ValidClaims(c) && c.issuer != issuer)
            && (r == Err(Expired) <==>
                  c.keyId in keys && ValidClaims(c) && c.issuer == issuer && nowNanos >= c.expiresAt * 1_000_000_000)
  {
    hide ValidIdentity, ValidEncodedSize, ValidBounds;
    FloorBelow(nowNanos, c.expiresAt);
    FloorBelow(nowNanos, c.notBefore);
    FloorBelow(nowNanos, c.issuedAt);
  }

  /** Valid claims match a context exactly if they agree with it in all nine respects. */
  lemma MatchExactly(issuer: string, c: Claims, e: Expected)
    ensures Match(issuer, c, e).Ok? <==>
              && ValidClaims(c) && c.issuer == issuer && ValidExpected(e)
              && e == Expected(c.audience, c.nodeId, c.bootEpoch, c.routeId, c.generation, c.projectId, c.sandboxId,
                               c.operation, c.requestDigest)
  {
    hide ValidClaims, ValidExpected;
  }

  /** The clamped lifetime is the largest whole number of seconds within what remains, up to thirty. */
  lemma ClampExactly(remainingNanos: int)
    ensures var r := ClampTtl(remainingNanos);
            && (r.Ok? <==> remainingNanos >= 1_000_000_000)
            && (r.Ok? ==>
                  && r.value % 1_000_000_000 == 0 && 1_000_000_000 <= r.value <= 30_000_000_000
                  && r.value <= remainingNanos
                  && (r.value == 30_000_000_000 || remainingNanos < r.value + 1_000_000_000))
  {
  }
}
