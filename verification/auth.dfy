/** Session tokens and Google identity tokens.

    Signing and checking a JWT, and checking a Google ID token's signature,
    audience and lifetime, happen in libraries; here they are oracles whose
    outcome is handed to the functions below. What is modelled is what the
    service itself does around them: the claims it signs and their expiry,
    which library errors it turns into "no identity", and the issuer it
    insists on. Times are whole seconds. */
module Auth {
  import opened Base

  /** Default lifetime of a session token, in minutes. */
  const AccessTokenExpireMinutes: int := 30

  /** The only issuers a Google ID token may name. */
  const GoogleIssuers: set<string> := {"accounts.google.com", "https://accounts.google.com"}

  /** A signed session token, represented by the claims it carries. */
  datatype AccessToken = AccessToken(claims: Payload)

  /** Python truthiness of an optional `timedelta` of `d` seconds: `None`
      and a zero duration are both false; a negative duration is true. */
  predicate Truthy(expiresDelta: Option<int>) {
    expiresDelta.Some? && expiresDelta.value != 0
  }

  /** The expiry instant of a token issued at `now`. */
  function ExpiryOf(now: nat, expiresDelta: Option<int>): int {
    if Truthy(expiresDelta) then now + expiresDelta.value
    else now + AccessTokenExpireMinutes * 60
  }

  /** `create_access_token`: the caller's claims (which, being a value, the
      call cannot change) plus an `exp` claim that replaces any the caller
      supplied. */
  function CreateAccessToken(data: Payload, expiresDelta: Option<int>, now: nat): (t: AccessToken)
    ensures t.claims.Keys == data.Keys + {"exp"}
    ensures forall k :: k in data && k != "exp" ==> t.claims[k] == data[k]
    ensures Truthy(expiresDelta) ==> t.claims["exp"] == Int(now + expiresDelta.value)
    ensures !Truthy(expiresDelta) ==> t.claims["exp"] == Int(now + 1800)
  {
    AccessToken(data["exp" := Int(ExpiryOf(now, expiresDelta))])
  }

  /** What `jwt.decode` does with a presented token: hands back its claims,
      or raises a `JWTError` (bad signature, malformed, expired). */
  datatype DecodeOutcome = Decoded(claims: Payload) | JWTError

  /** `verify_token`: a decode failure becomes `None`, never an exception. */
  function VerifyToken(outcome: DecodeOutcome): (r: Option<Payload>)
    ensures r.Some? <==> outcome.Decoded?
    ensures outcome.Decoded? ==> r == Some(outcome.claims)
  {
    match outcome
    case Decoded(claims) => Some(claims)
    case JWTError => None
  }

  /** What `id_token.verify_oauth2_token` does with a Google ID token: hands
      back its claims, raises `ValueError` (bad signature, audience, expiry),
      or raises some other exception (a transport failure, say). */
  datatype GoogleOutcome =
    | Verified(idinfo: map<string, string>)
    | ValueError(message: string)
    | OtherError(message: string)

  /** The identity `verify_google_token` extracts. */
  datatype GoogleUser = GoogleUser(email: string, name: string, picture: string)

  /** The claims of a Google ID token the service accepts. */
  ghost predicate TrustedClaims(idinfo: map<string, string>) {
    "iss" in idinfo && idinfo["iss"] in GoogleIssuers && "email" in idinfo
  }

  /** `verify_google_token`. Only `ValueError` is caught, so it answers
      `None` for a rejected token or an untrusted issuer; a claim read with
      `idinfo[...]` that is missing raises `KeyError`, which escapes, as does
      any non-`ValueError` from the library. */
  function VerifyGoogleToken(outcome: GoogleOutcome): (r: Result<Option<GoogleUser>, Error>)
    ensures r.Ok? && r.value.Some? <==> outcome.Verified? && TrustedClaims(outcome.idinfo)
    ensures outcome.ValueError? ==> r == Ok(None)
    ensures outcome.Verified? && "iss" in outcome.idinfo && outcome.idinfo["iss"] !in GoogleIssuers ==>
              r == Ok(None)
    ensures r.Err? ==> r.error == ServerFault
    ensures r.Err? <==> outcome.OtherError? ||
                        (outcome.Verified? && ("iss" !in outcome.idinfo ||
                          (outcome.idinfo["iss"] in GoogleIssuers && "email" !in outcome.idinfo)))
    ensures r.Ok? && r.value.Some? ==>
              var info := outcome.idinfo;
              && r.value.value.email == info["email"]
              && r.value.value.name == (if "name" in info then info["name"] else "")
              && r.value.value.picture == (if "picture" in info then info["picture"] else "")
  {
    match outcome
    case ValueError(_) => Ok(None)
    case OtherError(_) => Err(ServerFault)
    case Verified(info) =>
      if "iss" !in info then Err(ServerFault)
      else if info["iss"] !in GoogleIssuers then Ok(None)
      else if "email" !in info then Err(ServerFault)
      else
        var name := if "name" in info then info["name"] else "";
        var picture := if "picture" in info then info["picture"] else "";
        Ok(Some(GoogleUser(info["email"], name, picture)))
  }
}
