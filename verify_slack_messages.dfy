/** The middleware that authenticates an inbound webhook by its signature
    (src/api/middlewares/verifySlackMessages.ts). HMAC-SHA256 with hex output
    is the parameter `hmacHex(secret, message)`; the byte comparison is
    `TimingSafeEqual`, which throws when the lengths differ. */
module VerifySlackMessages {
  import opened Wrappers

  /** The middleware either answers the request itself or hands it on. */
  datatype Verdict = Respond(status: int, body: string) | CallNext

  /** What the middleware did, and the message it signed, if it signed one. */
  datatype Outcome = Outcome(verdict: Verdict, signed: Option<string>)

  datatype Config = Config(signingVersion: string, signingSecret: string)

  const Unauthorized: Verdict := Respond(401, "Unauthorized")

  /** A header that is absent or empty does not pass `if (!header)`. */
  predicate Falsy(header: Option<string>) {
    header.None? || header.value == ""
  }

  /** A template literal prints an absent raw body as "undefined". */
  function BodyText(rawBody: Option<string>): string {
    rawBody.GetOr("undefined")
  }

  function BaseString(version: string, timestamp: string, body: string): (s: string)
    ensures |s| == |version| + |timestamp| + |body| + 2
    ensures s[..|version|] == version && s[|version|] == ':'
    ensures s[|version| + 1..|version| + 1 + |timestamp|] == timestamp
    ensures s[|version| + 1 + |timestamp|] == ':' && s[|version| + 2 + |timestamp|..] == body
  {
    version + ":" + timestamp + ":" + body
  }

  /** The signature the platform is expected to send for a message. */
  function Sign(hmacHex: (string, string) -> string, cfg: Config, timestamp: string, body: string): string {
    "v0=" + hmacHex(cfg.signingSecret, BaseString(cfg.signingVersion, timestamp, body))
  }

  /** `timingSafeEqual` on the two encoded buffers: it throws on a length
      mismatch and otherwise says whether they are equal. */
  function TimingSafeEqual(a: string, b: string): (r: Result<bool>)
    ensures r.Err? <==> |a| != |b|
    ensures r.Ok? ==> (r.value <==> a == b)
  {
    if |a| != |b| then Err("Input buffers must have the same byte length") else Ok(a == b)
  }

  function VerifySlackMessage(
    hmacHex: (string, string) -> string, cfg: Config,
    timestamp: Option<string>, signature: Option<string>, rawBody: Option<string>
  ): (o: Outcome)
    // fail closed: a missing header answers 401 before anything is signed
    ensures Falsy(timestamp) || Falsy(signature) ==> o == Outcome(Unauthorized, None)
    // otherwise exactly "version:timestamp:body" is signed
    ensures !Falsy(timestamp) && !Falsy(signature) ==>
      o.signed == Some(BaseString(cfg.signingVersion, timestamp.value, BodyText(rawBody)))
    // the request goes on exactly when the signature is the expected one
    ensures o.verdict == CallNext <==>
      !Falsy(timestamp) && !Falsy(signature) &&
      signature.value == Sign(hmacHex, cfg, timestamp.value, BodyText(rawBody))
    // every refusal is the same bare 401
    ensures o.verdict != CallNext ==> o.verdict == Unauthorized
  {
    if Falsy(timestamp) || Falsy(signature) then
      Outcome(Unauthorized, None)
    else
      var base := BaseString(cfg.signingVersion, timestamp.value, BodyText(rawBody));
      var calculated := "v0=" + hmacHex(cfg.signingSecret, base);
      match TimingSafeEqual(calculated, signature.value)
      case Err(_) => Outcome(Unauthorized, Some(base))
      case Ok(isEqual) => if isEqual then Outcome(CallNext, Some(base)) else Outcome(Unauthorized, Some(base))
  }

  /** A request the platform signed correctly is let through. */
  lemma SignedRequestPasses(
    hmacHex: (string, string) -> string, cfg: Config, timestamp: string, body: string)
    requires timestamp != ""
    ensures VerifySlackMessage(hmacHex, cfg, Some(timestamp), Some(Sign(hmacHex, cfg, timestamp, body)), Some(body)).verdict == CallNext
  {
  }

  /** Two messages with the same timestamp sign different strings when their
      bodies differ. */
  lemma {:induction false} BaseStringInjective(version: string, timestamp: string, body1: string, body2: string)
    requires body1 != body2
    ensures BaseString(version, timestamp, body1) != BaseString(version, timestamp, body2)
  {
    var k := |version| + 2 + |timestamp|;
    assert BaseString(version, timestamp, body1)[k..] == body1;
    assert BaseString(version, timestamp, body2)[k..] == body2;
  }

  /** Replaying a signature with a changed body is refused whenever the HMAC
      tells the two signed strings apart. */
  lemma TamperedBodyRefused(
    hmacHex: (string, string) -> string, cfg: Config, timestamp: string, body: string, tampered: string)
    requires timestamp != "" && body != tampered
    requires forall m1, m2 :: m1 != m2 ==> hmacHex(cfg.signingSecret, m1) != hmacHex(cfg.signingSecret, m2)
    ensures VerifySlackMessage(hmacHex, cfg, Some(timestamp), Some(Sign(hmacHex, cfg, timestamp, body)), Some(tampered)).verdict == Unauthorized
  {
    BaseStringInjective(cfg.signingVersion, timestamp, body, tampered);
    var s1 := BaseString(cfg.signingVersion, timestamp, body);
    var s2 := BaseString(cfg.signingVersion, timestamp, tampered);
    assert hmacHex(cfg.signingSecret, s1) != hmacHex(cfg.signingSecret, s2);
    assert ("v0=" + hmacHex(cfg.signingSecret, s1))[3..] == hmacHex(cfg.signingSecret, s1);
    assert ("v0=" + hmacHex(cfg.signingSecret, s2))[3..] == hmacHex(cfg.signingSecret, s2);
  }
}
