/** `AuthManager` (src/auth/auth_manager.py): issues signed tokens, keeps one
    `Session` per issued token, and checks tokens and roles. Signing and
    verifying (PyJWT with the manager's secret key) are parameters, and so
    is the clock, in whole seconds. */
module Auth {
  import opened Values
  import opened Sessions

  /** What verifying a token's signature and expiry can give. */
  datatype DecodeResult =
    | Decoded(payload: Dict)     // the claims of a good token
    | ExpiredSignature           // jwt.ExpiredSignatureError
    | InvalidToken               // any other jwt.InvalidTokenError

  /** The signing collaborator: `jwt.encode` of a payload and `jwt.decode`
      of a token at a given instant. */
  datatype Jwt = Jwt(encode: Dict -> string, decode: (string, int) -> DecodeResult)

  /** The `(success, payload, error)` triple that validation and the role check return. */
  datatype Verdict = Granted(payload: Dict) | Denied(error: string)

  const TokenLifetime := 86400
  const DefaultRole := "user"

  const SessionUnknown := "Sessão inválida ou expirada"
  const SessionExpired := "Sessão expirada"
  const TokenExpired := "Token expirado"
  const TokenInvalid := "Token inválido"

  /** The text of a role refusal. */
  function AccessDenied(role: string): string
  {
    "Acesso negado. Função '" + role + "' necessária."
  }

  /** The claims `create_token` signs: the user id as text, the user name,
      the role (by default "user"), and an expiry one day after issue.
      The id is read before the user name, so a missing id is the error
      reported when both are missing. */
  function TokenPayload(userData: Dict, now: int, repr: Json -> string): (r: Outcome<Dict>)
    ensures "id" !in userData ==> r == Raised(KeyErrorText("id"))
    ensures "id" in userData && "username" !in userData ==> r == Raised(KeyErrorText("username"))
    ensures r.Returned? <==> "id" in userData && "username" in userData
    ensures r.Returned? ==>
      && Has(r.value, "sub", JStr(Str(userData["id"], repr)))
      && Has(r.value, "username", userData["username"])
      && Has(r.value, "role", Get(userData, "role", JStr(DefaultRole)))
      && Has(r.value, "iat", JInt(now))
      && Has(r.value, "exp", JInt(now + TokenLifetime))
  {
    if "id" !in userData then Raised(KeyErrorText("id"))
    else if "username" !in userData then Raised(KeyErrorText("username"))
    else
      Returned(map["sub" := JStr(Str(userData["id"], repr)), "username" := userData["username"],
                   "role" := Get(userData, "role", JStr(DefaultRole)),
                   "exp" := JInt(now + TokenLifetime), "iat" := JInt(now)])
  }

  /** A token is good for exactly one day after it is issued. */
  lemma {:induction false} TokenLastsOneDay(userData: Dict, now: int, repr: Json -> string)
    requires TokenPayload(userData, now, repr).Returned?
    ensures var p := TokenPayload(userData, now, repr).value;
      p["exp"].JInt? && p["iat"].JInt? && p["exp"].i - p["iat"].i == TokenLifetime
  {
    var p := TokenPayload(userData, now, repr).value;
    assert Has(p, "iat", JInt(now)) && Has(p, "exp", JInt(now + TokenLifetime));
  }

  /** The role check of `require_auth` applied to a validation verdict: a
      failed validation passes through; a non-empty required role must equal
      the payload's "role". */
  function RoleGate(v: Verdict, requiredRole: Option<string>): (r: Verdict)
    ensures v.Denied? ==> r == v
    ensures r.Granted? ==> r == v
    ensures r.Granted? && requiredRole.Some? && requiredRole.value != ""
            ==> Has(v.payload, "role", JStr(requiredRole.value))
    ensures v.Granted? && (requiredRole.None? || requiredRole.value == "") ==> r == v
    ensures v.Granted? && requiredRole.Some? && requiredRole.value != ""
            && Has(v.payload, "role", JStr(requiredRole.value))
            ==> r == v
    ensures v.Granted? && requiredRole.Some? && requiredRole.value != ""
            && !Has(v.payload, "role", JStr(requiredRole.value))
            ==> r == Denied(AccessDenied(requiredRole.value))
  {
    match v
    case Denied(_) => v
    case Granted(payload) =>
      if requiredRole.Some? && requiredRole.value != "" && Get(payload, "role", JNull) != JStr(requiredRole.value)
      then Denied(AccessDenied(requiredRole.value))
      else v
  }

  class AuthManager {
    const jwt: Jwt
    const repr: Json -> string
    var sessions: map<string, Session>

    /** Every session is filed under its own token. */
    ghost predicate Valid()
      reads this
    {
      forall t :: t in sessions ==> sessions[t].token == t
    }

    /** A new manager has no sessions. */
    constructor(jwt: Jwt, repr: Json -> string)
      ensures Valid() && sessions == map[]
      ensures this.jwt == jwt && this.repr == repr
    {
      this.jwt := jwt;
      this.repr := repr;
      sessions := map[];
    }

    /** `create_token`: signs the claims and files a new session under the
      token, replacing whatever the token was filed with before. */
    method CreateToken(userData: Dict, now: int) returns (r: Outcome<string>)
      requires Valid()
      modifies this
      ensures Valid()
      ensures TokenPayload(userData, now, repr).Raised? ==>
        r == Raised(TokenPayload(userData, now, repr).message) && sessions == old(sessions)
      ensures r.Returned? <==> TokenPayload(userData, now, repr).Returned?
      ensures r.Returned? ==>
        && r.value == jwt.encode(TokenPayload(userData, now, repr).value)
        && sessions.Keys == old(sessions.Keys) + {r.value}
        && (forall t :: t in old(sessions) && t != r.value ==> sessions[t] == old(sessions[t]))
        && fresh(sessions[r.value])
        && sessions[r.value].userId == userData["id"]
        && sessions[r.value].createdAt == now && sessions[r.value].lastAccess == now
        && sessions[r.value].maxIdleTime == DefaultMaxIdleTime && sessions[r.value].data == map[]
    {
      match TokenPayload(userData, now, repr)
      case Raised(e) =>
        r := Raised(e);
      case Returned(payload) =>
        var token := jwt.encode(payload);
        var session := new Session(userData["id"], token, now);
        sessions := sessions[token := session];
        r := Returned(token);
    }

    /** The verdict `validate_token` reaches from the current state: an
      unknown token, then an idle session, then the signature check. */
    ghost function Validation(token: string, now: int): Verdict
      reads this, if token in sessions then {sessions[token]} else {}
    {
      if token !in sessions then Denied(SessionUnknown)
      else if sessions[token].IsExpired(now) then Denied(SessionExpired)
      else match jwt.decode(token, now)
        case Decoded(payload) => Granted(payload)
        case ExpiredSignature => Denied(TokenExpired)
        case InvalidToken => Denied(TokenInvalid)
    }

    /** The sessions `validate_token` leaves behind: the token's session is
      dropped when it idled out or its signature expired, and kept otherwise. */
    ghost function SessionsAfterValidation(token: string, now: int): map<string, Session>
      reads this, if token in sessions then {sessions[token]} else {}
    {
      if token in sessions && (sessions[token].IsExpired(now) || jwt.decode(token, now).ExpiredSignature?)
      then sessions - {token}
      else sessions
    }

    /** `validate_token`: the verdict and the sessions above; a granted token's
      session is touched at `now`, and no session's data changes. */
    method ValidateToken(token: string, now: int) returns (r: Verdict)
      requires Valid()
      modifies this, if token in sessions then {sessions[token]} else {}
      ensures Valid()
      ensures r == old(Validation(token, now))
      ensures sessions == old(SessionsAfterValidation(token, now))
      ensures token in sessions ==> sessions[token].data == old(sessions[token].data)
      ensures token in sessions ==>
        sessions[token].lastAccess == if r.Granted? then now else old(sessions[token].lastAccess)
    {
      if token !in sessions {
        return Denied(SessionUnknown);
      }
      if sessions[token].IsExpired(now) {
        sessions := sessions - {token};
        return Denied(SessionExpired);
      }
      match jwt.decode(token, now)
      case Decoded(payload) =>
        sessions[token].UpdateLastAccess(now);
        r := Granted(payload);
      case ExpiredSignature =>
        sessions := sessions - {token};
        r := Denied(TokenExpired);
      case InvalidToken =>
        r := Denied(TokenInvalid);
    }

    /** `logout`: true exactly when the token had a session, which is gone
      afterwards; the other sessions stay. */
    method Logout(token: string) returns (r: bool)
      requires Valid()
      modifies this
      ensures Valid()
      ensures r <==> token in old(sessions)
      ensures sessions == old(sessions) - {token}
    {
      r := token in sessions;
      sessions := sessions - {token};
    }

    /** `require_auth`: validation, then the role check. */
    method RequireAuth(token: string, requiredRole: Option<string>, now: int) returns (r: Verdict)
      requires Valid()
      modifies this, if token in sessions then {sessions[token]} else {}
      ensures Valid()
      ensures r == RoleGate(old(Validation(token, now)), requiredRole)
      ensures sessions == old(SessionsAfterValidation(token, now))
      ensures token in sessions ==> sessions[token].data == old(sessions[token].data)
      ensures token in sessions ==>
        sessions[token].lastAccess
          == if old(Validation(token, now)).Granted? then now else old(sessions[token].lastAccess)
    {
      var v := ValidateToken(token, now);
      r := RoleGate(v, requiredRole);
    }
  }
}
