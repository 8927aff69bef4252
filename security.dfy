/** Caller authentication: a bearer token is decoded locally, and only when
    that fails is it verified by the authentication service; the resulting
    claims become the caller's user context. Signature checking, expiry and
    the HTTP exchange are parameters of the model. */
module Security {
  import opened Common

  datatype UserContext = UserContext(
    userId: string,
    email: string,
    organizationId: string,
    tier: string,
    roles: seq<string>)

  /** `has_role`: the role is one of the caller's roles. */
  function HasRole(user: UserContext, role: string): (b: bool)
    ensures b <==> exists i :: 0 <= i < |user.roles| && user.roles[i] == role
  {
    role in user.roles
  }

  /** `is_admin`: an administrator or an owner. */
  function IsAdmin(user: UserContext): (b: bool)
    ensures b <==> HasRole(user, "admin") || HasRole(user, "owner")
  {
    "admin" in user.roles || "owner" in user.roles
  }

  /** A token's claims: the string-valued claims, and the role list if the
      token carries one. */
  datatype Payload = Payload(claims: map<string, string>, roles: Option<seq<string>>)

  /** Local decoding: the claims, or `None` where the library raises
      `JWTError` (bad signature, expired, malformed). */
  type LocalDecoder = string -> Option<Payload>

  /** The authentication service's answer: a status and a decoded body, or a
      request error (connection refused, timeout) with its text. */
  datatype VerifyResponse = VerifyResponse(statusCode: int, body: Payload) | RequestError(reason: string)

  type RemoteVerifier = string -> VerifyResponse

  const Unauthorized := 401
  const ServiceUnavailable := 503

  /** `decode_jwt_token`. */
  function DecodeJwtToken(decode: LocalDecoder, token: string): (r: Result<Payload, HttpError>)
    ensures r.Ok? <==> decode(token).Some?
    ensures r.Ok? ==> r.value == decode(token).value
    ensures r.Err? ==> r.error == HttpError(Unauthorized, "Could not validate credentials")
  {
    match decode(token)
    case Some(p) => Ok(p)
    case None => Err(HttpError(Unauthorized, "Could not validate credentials"))
  }

  /** `verify_token_with_auth_service`. */
  function VerifyTokenWithAuthService(verify: RemoteVerifier, token: string): (r: Result<Payload, HttpError>)
    ensures r.Ok? <==> verify(token).VerifyResponse? && verify(token).statusCode == 200
    ensures r.Ok? ==> r.value == verify(token).body
    ensures verify(token).VerifyResponse? && verify(token).statusCode != 200 ==>
      r == Err(HttpError(Unauthorized, "Invalid authentication credentials"))
    ensures verify(token).RequestError? ==>
      r == Err(HttpError(ServiceUnavailable, "Authentication service unavailable: " + verify(token).reason))
  {
    match verify(token)
    case RequestError(reason) => Err(HttpError(ServiceUnavailable, "Authentication service unavailable: " + reason))
    case VerifyResponse(code, body) =>
      if code == 200 then Ok(body) else Err(HttpError(Unauthorized, "Invalid authentication credentials"))
  }

  function ClaimOr(p: Payload, key: string, default: string): string
  {
    if key in p.claims then p.claims[key] else default
  }

  /** The user context a payload describes: `sub` is required, every other
      field has a default. */
  function UserFromPayload(p: Payload): (r: Result<UserContext, HttpError>)
    ensures r.Err? <==> "sub" !in p.claims
    ensures r.Err? ==> r.error == HttpError(Unauthorized, "Invalid token payload")
    ensures r.Ok? ==> r.value.userId == p.claims["sub"]
    ensures r.Ok? ==>
      && r.value.email == ClaimOr(p, "email", "")
      && r.value.organizationId == ClaimOr(p, "org_id", "")
      && r.value.tier == ClaimOr(p, "tier", "starter")
    ensures r.Ok? ==> r.value.roles == (if p.roles.Some? then p.roles.value else ["member"])
  {
    if "sub" !in p.claims then Err(HttpError(Unauthorized, "Invalid token payload"))
    else Ok(UserContext(p.claims["sub"], ClaimOr(p, "email", ""), ClaimOr(p, "org_id", ""),
                        ClaimOr(p, "tier", "starter"),
                        if p.roles.Some? then p.roles.value else ["member"]))
  }

  /** `get_current_user`: local decoding first; the authentication service
      only when that fails; then the payload mapping. */
  function GetCurrentUser(decode: LocalDecoder, verify: RemoteVerifier, token: string)
    : (r: Result<UserContext, HttpError>)
    ensures decode(token).Some? ==> r == UserFromPayload(decode(token).value)
    ensures decode(token).None? && VerifyTokenWithAuthService(verify, token).Err? ==>
      r == Err(VerifyTokenWithAuthService(verify, token).error)
    ensures decode(token).None? && VerifyTokenWithAuthService(verify, token).Ok? ==>
      r == UserFromPayload(VerifyTokenWithAuthService(verify, token).value)
  {
    var payload := match DecodeJwtToken(decode, token)
      case Ok(p) => Ok(p)
      case Err(_) => VerifyTokenWithAuthService(verify, token);
    match payload
    case Err(e) => Err(e)
    case Ok(p) => UserFromPayload(p)
  }

  /** A token that decodes locally never reaches the authentication service:
      the outcome is the same whatever the service would answer. */
  lemma LocalDecodeShortCircuits(decode: LocalDecoder, v1: RemoteVerifier, v2: RemoteVerifier, token: string)
    requires decode(token).Some?
    ensures GetCurrentUser(decode, v1, token) == GetCurrentUser(decode, v2, token)
  {
  }

  /** Authentication fails only with 401 or 503; 503 only when both the local
      decoding and the request to the service fail; and the local decoding
      error itself never reaches the caller. */
  lemma AuthenticationFailures(decode: LocalDecoder, verify: RemoteVerifier, token: string)
    ensures GetCurrentUser(decode, verify, token).Err? ==>
      GetCurrentUser(decode, verify, token).error.status in {Unauthorized, ServiceUnavailable}
    ensures GetCurrentUser(decode, verify, token).Err? ==>
      GetCurrentUser(decode, verify, token).error.detail != "Could not validate credentials"
    ensures decode(token).None? && verify(token).RequestError? ==>
      GetCurrentUser(decode, verify, token)
        == Err(HttpError(ServiceUnavailable, "Authentication service unavailable: " + verify(token).reason))
    ensures GetCurrentUser(decode, verify, token).Err? && GetCurrentUser(decode, verify, token).error.status == ServiceUnavailable ==>
      decode(token).None? && verify(token).RequestError?
  {
    var detail := "Could not validate credentials";
    assert detail != "Invalid token payload" && detail != "Invalid authentication credentials";
    if verify(token).RequestError? {
      var other := "Authentication service unavailable: " + verify(token).reason;
      assert other[0] != detail[0];
    }
  }

  /** A token without a role list gives a plain member, never an administrator. */
  lemma DefaultUserIsMember(p: Payload)
    requires "sub" in p.claims && p.roles.None?
    ensures UserFromPayload(p).Ok?
    ensures HasRole(UserFromPayload(p).value, "member") && !IsAdmin(UserFromPayload(p).value)
  {
    assert UserFromPayload(p).value.roles == ["member"];
  }
}
