/**
 * Login against the one built-in member, and the role gate that every
 * protected request passes after its token has been verified.
 */
module Auth {
  import opened Wrappers
  import opened Jwt
  import opened Http

  datatype Credential = Credential(email: string, password: string)

  /** The single identity that may log in. */
  const MemberUser := Credential("user@example.com", "password123")

  /** The key login signs with. */
  const IssuerKey := "JWT_SECRET"

  /** The key the token middleware verifies with (a separate literal in the service). */
  const VerifierKey := "JWT_SECRET"

  /** 72 hours, in seconds. */
  const TokenLifetime := 72 * 3600

  /** The claims login puts in a token, set one key at a time on an empty claim set. */
  function IssuedClaims(email: string, now: int): (c: Claims)
    ensures c.Keys == {"email", "role", "exp"}
  {
    var c: Claims := map[];
    var c := c["email" := Str(email)];
    var c := c["role" := Str("admin")];
    c["exp" := Num(now + TokenLifetime)]
  }

  /**
   * The role gate of `checkMiddleware`: it admits exactly the claims whose
   * `role` is present and is the string "admin"; a missing role, another string
   * or a number is refused.
   */
  function RoleAdmits(c: Claims): (admit: bool)
    ensures admit ==> "role" in c && c["role"].Str? && c["role"].s == "admin"
    ensures !admit ==> "role" !in c || !c["role"].Str? || c["role"].s != "admin"
  {
    "role" in c && c["role"] == Str("admin")
  }

  /** `t` verifies with the middleware's key and carries an admin token for `email` expiring 72 hours after `now`. */
  predicate IsAdminTokenFor(t: Token, email: string, now: int) {
    var v := Verify(t, VerifierKey);
    && v.Some?
    && v.value.Keys == {"email", "role", "exp"}
    && v.value["email"] == Str(email)
    && v.value["role"] == Str("admin")
    && v.value["exp"] == Num(now + TokenLifetime)
  }

  /** POST /login, at Unix time `now` (seconds). */
  function Login(body: Parsed<Credential>, now: int): (resp: Response)
    ensures resp.status == StatusBadRequest <==> body.Unparsable?
    ensures body.Unparsable? ==> resp.body == Message(body.message)
    ensures resp.status == StatusOK <==> body == Parsed(MemberUser)
    ensures body.Parsed? && body.value != MemberUser ==> resp == Response(StatusUnauthorized, Empty)
    ensures resp.status == StatusOK ==>
              resp.body.LoginJson? && resp.body.message == "Login success" &&
              IsAdminTokenFor(resp.body.token, body.value.email, now) &&
              RoleAdmits(Verify(resp.body.token, VerifierKey).value)
  {
    match body
    case Unparsable(msg) => Response(StatusBadRequest, Message(msg))
    case Parsed(user) =>
      if user.email != MemberUser.email || user.password != MemberUser.password then
        Response(StatusUnauthorized, Empty)
      else
        var t := Sign(IssuedClaims(user.email, now), IssuerKey);
        Response(StatusOK, LoginJson("Login success", t))
  }

  /** A token issued at `issuedAt` is unexpired exactly during the 72 hours that follow. */
  lemma IssuedClaimsLifetime(email: string, issuedAt: int, now: int)
    ensures Unexpired(IssuedClaims(email, issuedAt), now) <==> now < issuedAt + TokenLifetime
  {
    var c := IssuedClaims(email, issuedAt);
    assert c["exp"] == Num(issuedAt + TokenLifetime);
  }

  /** A login fails on any wrong field, even when the other one is right. */
  lemma LoginNeedsBothFields(email: string, password: string, now: int)
    requires email != MemberUser.email || password != MemberUser.password
    ensures Login(Parsed(Credential(email, password)), now) == Response(StatusUnauthorized, Empty)
  {
  }

  /** A token issued later expires later: each login starts a fresh 72 hours. */
  lemma ReissueExtends(now: int, later: int)
    requires now < later
    ensures var a := Login(Parsed(MemberUser), now).body.token;
            var b := Login(Parsed(MemberUser), later).body.token;
            a.claims["exp"].n < b.claims["exp"].n
  {
  }
}
