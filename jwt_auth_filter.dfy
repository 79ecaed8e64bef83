/**
 * `JwtAuthFilter`: finds the bearer token of a request (the Authorization
 * header first, the `AUTH_TOKEN` cookie otherwise), turns its claims into
 * an authentication in the security context, and always hands the request
 * on. Token parsing is a partial function passed in: `None` stands for any
 * exception it throws.
 */
module JwtAuthFilter {
  import opened Text
  import opened Entities

  const BearerPrefix: string := "Bearer "
  const TokenCookie: string := "AUTH_TOKEN"
  const RolePrefix: string := "ROLE_"

  datatype Cookie = Cookie(name: string, value: string)

  /** The parts of a request the filter reads; `None` stands for `null`. */
  datatype HttpRequest = HttpRequest(authorization: Option<string>, cookies: Option<seq<Cookie>>)

  /** The `role` claim: missing, a string, or a value of another type (the cast to `String` throws). */
  datatype RoleClaim = NoRole | RoleText(name: string) | RoleOther

  datatype Claims = Claims(subject: Option<string>, role: RoleClaim)

  /** `UsernamePasswordAuthenticationToken(email, null, authorities)` */
  datatype Authentication = Authentication(principal: Option<string>, authorities: seq<string>)

  /** `(String) auth.getPrincipal()` of the context's authentication, `None` standing for `null`. */
  function Principal(auth: Option<Authentication>): Option<string> {
    if auth.None? then None else auth.value.principal
  }

  /** `cookies[i]` is the first cookie named `name`. */
  ghost predicate FirstNamed(cookies: seq<Cookie>, name: string, i: int) {
    0 <= i < |cookies| && cookies[i].name == name && forall j :: 0 <= j < i ==> cookies[j].name != name
  }

  /** The value of the first cookie named `name`, if any. */
  function FirstCookie(cookies: seq<Cookie>, name: string): (r: Option<string>)
    ensures r.None? <==> forall i :: 0 <= i < |cookies| ==> cookies[i].name != name
    ensures r.Some? ==> exists i :: FirstNamed(cookies, name, i) && cookies[i].value == r.value
  {
    if cookies == [] then None
    else if cookies[0].name == name then
      assert FirstNamed(cookies, name, 0);
      Some(cookies[0].value)
    else
      ShiftCookies(cookies, name);
      FirstCookie(cookies[1..], name)
  }

  /** What holds of the cookies after the first one holds of them all, one index further on. */
  lemma ShiftCookies(cookies: seq<Cookie>, name: string)
    requires cookies != [] && cookies[0].name != name
    ensures forall i :: FirstNamed(cookies[1..], name, i) ==> FirstNamed(cookies, name, i + 1) && cookies[i + 1] == cookies[1..][i]
    ensures (forall i :: 0 <= i < |cookies[1..]| ==> cookies[1..][i].name != name) ==>
            forall i :: 0 <= i < |cookies| ==> cookies[i].name != name
  {
    forall i | FirstNamed(cookies[1..], name, i) ensures FirstNamed(cookies, name, i + 1) {
      forall j | 0 <= j < i + 1 ensures cookies[j].name != name {
        if j > 0 { assert cookies[j] == cookies[1..][j - 1]; }
      }
    }
    if forall i :: 0 <= i < |cookies[1..]| ==> cookies[1..][i].name != name {
      forall i | 0 <= i < |cookies| ensures cookies[i].name != name {
        if i > 0 { assert cookies[i] == cookies[1..][i - 1]; }
      }
    }
  }

  /** The token the filter works with: the header minus "Bearer ", else the cookie, else none. */
  function ResolveToken(req: HttpRequest): Option<string> {
    if req.authorization.Some? && StartsWith(req.authorization.value, BearerPrefix) then
      Some(req.authorization.value[|BearerPrefix|..])
    else if req.cookies.Some? then
      FirstCookie(req.cookies.value, TokenCookie)
    else
      None
  }

  /**
   * The authentication in the context after the filter: unchanged without a
   * non-blank token; cleared when parsing or reading the claims fails;
   * otherwise the subject with the single authority "ROLE_" + role, or no
   * authority when the token has no role.
   */
  function Authenticate(prev: Option<Authentication>, token: Option<string>, parse: string -> Option<Claims>): Option<Authentication> {
    if token.None? || IsBlank(token.value) then prev
    else
      match parse(token.value)
      case None => None
      case Some(claims) =>
        match claims.role
        case RoleOther => None
        case NoRole => Some(Authentication(claims.subject, []))
        case RoleText(role) => Some(Authentication(claims.subject, [RolePrefix + role]))
  }

  // ---------------------------------------------------------------------------
  // Properties
  // ---------------------------------------------------------------------------

  /** A "Bearer " header decides the token, whatever cookies the request carries. */
  lemma HeaderWins(req: HttpRequest, h: string)
    requires req.authorization == Some(h) && StartsWith(h, BearerPrefix)
    ensures ResolveToken(req) == Some(h[7..])
    ensures forall cs :: ResolveToken(req.(cookies := cs)) == ResolveToken(req)
  {
  }

  /** Without a "Bearer " header the first `AUTH_TOKEN` cookie is the token. */
  lemma CookieFallback(req: HttpRequest)
    requires req.authorization.None? || !StartsWith(req.authorization.value, BearerPrefix)
    ensures ResolveToken(req) == if req.cookies.None? then None else FirstCookie(req.cookies.value, TokenCookie)
  {
  }

  /**
   * A "Bearer " header with a blank remainder authenticates nobody and
   * leaves the context as it was, even when a cookie holds a valid token.
   */
  lemma BlankBearerNoFallback(prev: Option<Authentication>, rest: string, cookies: Option<seq<Cookie>>, parse: string -> Option<Claims>)
    requires IsBlank(rest)
    ensures Authenticate(prev, ResolveToken(HttpRequest(Some(BearerPrefix + rest), cookies)), parse) == prev
  {
    var h := BearerPrefix + rest;
    assert h[..|BearerPrefix|] == BearerPrefix;
    assert h[|BearerPrefix|..] == rest;
  }

  /** A failed parse or a role of the wrong type never keeps a previous identity. */
  lemma FailureClears(prev: Option<Authentication>, token: string, parse: string -> Option<Claims>)
    requires !IsBlank(token)
    requires parse(token).None? || parse(token).value.role == RoleOther
    ensures Authenticate(prev, Some(token), parse) == None
  {
  }

  /** A good token replaces any previous identity with its subject and at most one authority. */
  lemma SuccessAuthorities(prev: Option<Authentication>, token: string, parse: string -> Option<Claims>)
    requires !IsBlank(token) && parse(token).Some? && parse(token).value.role != RoleOther
    ensures var a := Authenticate(prev, Some(token), parse);
      var claims := parse(token).value;
      && a.Some? && a.value.principal == claims.subject
      && (claims.role.NoRole? ==> a.value.authorities == [])
      && (claims.role.RoleText? ==> a.value.authorities == [RolePrefix + claims.role.name])
  {
  }

  /** `/me`: the first authority with every "ROLE_" removed, or "" without authorities. */
  function MeRole(authorities: seq<string>): string {
    if authorities == [] then "" else ReplaceAll(authorities[0], RolePrefix, "")
  }

  /** Prefixing "ROLE_" and stripping it in `/me` gives back a role name that does not itself contain "ROLE_". */
  lemma RoleRoundTrip(role: string)
    requires !Contains(role, RolePrefix)
    ensures MeRole([RolePrefix + role]) == role
  {
    var a := RolePrefix + role;
    assert a[..|RolePrefix|] == RolePrefix;
    assert a[|RolePrefix|..] == role;
    ReplaceAbsent(role, RolePrefix, "");
  }

  /** Every role the service issues survives the round trip. */
  lemma IssuedRolesRoundTrip(r: Role)
    ensures MeRole([RolePrefix + RoleName(r)]) == RoleName(r)
  {
    var name := RoleName(r);
    assert !Contains(name, RolePrefix) by {
      ContainsIff(name, RolePrefix);
      forall i | 0 <= i && i + |RolePrefix| <= |name| ensures !OccursAt(name, RolePrefix, i) {
        assert name[i..i + |RolePrefix|][0] == name[i];
      }
    }
    RoleRoundTrip(name);
  }

  // ---------------------------------------------------------------------------
  // The filter
  // ---------------------------------------------------------------------------

  /** `SecurityContextHolder`'s context for the current request. */
  class SecurityContext {
    var authentication: Option<Authentication>

    constructor (authentication: Option<Authentication>)
      ensures this.authentication == authentication
    {
      this.authentication := authentication;
    }
  }

  /** The rest of the chain; counts how often the request is handed on. */
  class FilterChain {
    var invocations: nat

    constructor ()
      ensures invocations == 0
    {
      invocations := 0;
    }

    method DoFilter(req: HttpRequest)
      modifies this
      ensures invocations == old(invocations) + 1
    {
      invocations := invocations + 1;
    }
  }

  /** The header test and the cookie loop of `doFilterInternal`. */
  method FindToken(req: HttpRequest) returns (token: Option<string>)
    ensures token == ResolveToken(req)
  {
    token := None;
    var header := req.authorization;
    if header.Some? && |header.value| >= 7 && header.value[..7] == BearerPrefix {
      token := Some(header.value[7..]);
    } else if req.cookies.Some? {
      var cookies := req.cookies.value;
      var i := 0;
      while i < |cookies|
        invariant 0 <= i <= |cookies|
        invariant token.None? && forall j :: 0 <= j < i ==> cookies[j].name != TokenCookie
      {
        if cookies[i].name == TokenCookie {
          token := Some(cookies[i].value);
          break;
        }
        i := i + 1;
      }
    }
  }

  /** `doFilterInternal(request, response, chain)` */
  method DoFilterInternal(req: HttpRequest, parse: string -> Option<Claims>, ctx: SecurityContext, chain: FilterChain)
    requires ctx as object != chain as object
    modifies ctx, chain
    ensures ctx.authentication == Authenticate(old(ctx.authentication), ResolveToken(req), parse)
    ensures chain.invocations == old(chain.invocations) + 1
  {
    var token := FindToken(req);
    if token.Some? && !IsBlank(token.value) {
      var claims := parse(token.value);
      if claims.None? {
        ctx.authentication := None;
      } else {
        var email := claims.value.subject;
        match claims.value.role {
          case RoleOther =>
            ctx.authentication := None;
          case NoRole =>
            ctx.authentication := Some(Authentication(email, []));
          case RoleText(role) =>
            ctx.authentication := Some(Authentication(email, [RolePrefix + role]));
        }
      }
    }
    chain.DoFilter(req);
  }
}
