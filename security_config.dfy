/**
 * `SecurityConfig.filterChain`: the authorization rules as an ordered
 * table; the first rule whose method and path match decides. Refusals,
 * with or without an identity, answer 403.
 */
module SecurityConfig {
  import opened Text
  import opened Entities
  import opened JwtAuthFilter

  datatype HttpMethod = GET | HEAD | POST | PUT | PATCH | DELETE | OPTIONS | TRACE

  // A request path pattern: every path ("/**"), a prefix with everything below it ("prefix/**"), or one exact path.
  datatype PathPattern = AnyPath | Subtree(prefix: string) | Exact(path: string)

  datatype Access = PermitAll | HasRole(role: string) | Authenticated

  /** `requestMatchers([method,] patterns...)` followed by its access rule; no verb matches every verb. */
  datatype Rule = Rule(verb: Option<HttpMethod>, patterns: seq<PathPattern>, access: Access)

  datatype Decision = Allow | Forbidden

  const PreflightRule: Rule := Rule(Some(OPTIONS), [AnyPath], PermitAll)
  const AuthRule: Rule := Rule(None, [Subtree("/api/auth")], PermitAll)
  const AiRule: Rule := Rule(None, [Subtree("/api/ai")], PermitAll)
  const AvatarRule: Rule := Rule(Some(GET), [Subtree("/api/profile/avatar")], PermitAll)
  const CatalogRule: Rule := Rule(Some(GET), [Exact("/api/barbers"), Exact("/api/services")], PermitAll)
  const BarberRule: Rule := Rule(None, [Subtree("/api/barber")], HasRole("BARBER"))
  const AdminRule: Rule := Rule(None, [Subtree("/api/admin")], HasRole("ADMIN"))
  const AnyRequestRule: Rule := Rule(None, [AnyPath], Authenticated)

  /** The table, in declaration order. */
  const Rules: seq<Rule> :=
    [PreflightRule, AuthRule, AiRule, AvatarRule, CatalogRule, BarberRule, AdminRule, AnyRequestRule]

  /** `path` is `prefix` itself or lies below it. */
  predicate InTree(path: string, prefix: string) {
    path == prefix || StartsWith(path, prefix + "/")
  }

  predicate PatternMatches(p: PathPattern, path: string) {
    match p
    case AnyPath => true
    case Subtree(prefix) => InTree(path, prefix)
    case Exact(q) => path == q
  }

  /** Some pattern of the list matches the path. */
  predicate AnyMatches(patterns: seq<PathPattern>, path: string) {
    |patterns| > 0 && (PatternMatches(patterns[0], path) || AnyMatches(patterns[1..], path))
  }

  predicate RuleMatches(rule: Rule, m: HttpMethod, path: string) {
    (rule.verb.None? || rule.verb.value == m) && AnyMatches(rule.patterns, path)
  }

  /** The index of the first rule at or after `from` that matches. */
  function FirstMatch(rules: seq<Rule>, m: HttpMethod, path: string, from: nat): (r: Option<nat>)
    requires from <= |rules|
    ensures r.Some? ==> from <= r.value < |rules| && RuleMatches(rules[r.value], m, path)
    ensures r.Some? ==> forall j :: from <= j < r.value ==> !RuleMatches(rules[j], m, path)
    ensures r.None? <==> forall j :: from <= j < |rules| ==> !RuleMatches(rules[j], m, path)
    decreases |rules| - from
  {
    if from == |rules| then None
    else if RuleMatches(rules[from], m, path) then Some(from)
    else FirstMatch(rules, m, path, from + 1)
  }

  /** Whether an access rule lets the identity in the context through; `None` is the anonymous user. */
  predicate Grants(a: Access, auth: Option<Authentication>) {
    match a
    case PermitAll => true
    case Authenticated => auth.Some?
    case HasRole(role) => auth.Some? && RolePrefix + role in auth.value.authorities
  }

  /** The decision for a request; the last rule matches everything, so some rule always decides. */
  function Decide(m: HttpMethod, path: string, auth: Option<Authentication>): Decision {
    var i := FirstMatch(Rules, m, path, 0);
    if i.Some? && Grants(Rules[i.value].access, auth) then Allow else Forbidden
  }

  // ---------------------------------------------------------------------------
  // Properties
  // ---------------------------------------------------------------------------

  lemma SingleMatches(p: PathPattern, path: string)
    ensures AnyMatches([p], path) <==> PatternMatches(p, path)
  {
    assert [p][1..] == [];
  }

  /** What each row of the table matches, spelled out. */
  lemma MatchTable(m: HttpMethod, path: string)
    ensures RuleMatches(Rules[0], m, path) <==> m == OPTIONS
    ensures RuleMatches(Rules[1], m, path) <==> InTree(path, "/api/auth")
    ensures RuleMatches(Rules[2], m, path) <==> InTree(path, "/api/ai")
    ensures RuleMatches(Rules[3], m, path) <==> m == GET && InTree(path, "/api/profile/avatar")
    ensures RuleMatches(Rules[4], m, path) <==> m == GET && (path == "/api/barbers" || path == "/api/services")
    ensures RuleMatches(Rules[5], m, path) <==> InTree(path, "/api/barber")
    ensures RuleMatches(Rules[6], m, path) <==> InTree(path, "/api/admin")
    ensures RuleMatches(Rules[7], m, path)
  {
    SingleMatches(AnyPath, path);
    SingleMatches(Subtree("/api/auth"), path);
    SingleMatches(Subtree("/api/ai"), path);
    SingleMatches(Subtree("/api/profile/avatar"), path);
    SingleMatches(Exact("/api/services"), path);
    assert CatalogRule.patterns[1..] == [Exact("/api/services")];
    SingleMatches(Subtree("/api/barber"), path);
    SingleMatches(Subtree("/api/admin"), path);
  }

  /** The catch-all rule makes every request decided by some rule. */
  lemma SomeRuleDecides(m: HttpMethod, path: string)
    ensures FirstMatch(Rules, m, path, 0).Some?
  {
    MatchTable(m, path);
  }

  /** The first matching rule decides, by its access rule alone. */
  lemma DecidedBy(m: HttpMethod, path: string, auth: Option<Authentication>, i: nat)
    requires i < |Rules| && RuleMatches(Rules[i], m, path)
    requires forall j :: 0 <= j < i ==> !RuleMatches(Rules[j], m, path)
    ensures FirstMatch(Rules, m, path, 0) == Some(i)
    ensures Decide(m, path, auth) == if Grants(Rules[i].access, auth) then Allow else Forbidden
  {
  }

  /** A path below `p` is not in the tree of a prefix that differs from `p` at an index both share. */
  lemma NotInTree(path: string, p: string, prefix: string, k: nat)
    requires StartsWith(path, p) && k < |p| && k < |prefix| && p[k] != prefix[k]
    ensures !InTree(path, prefix)
  {
    assert path[k] == p[k];
    assert (prefix + "/")[k] == prefix[k];
  }

  /** A path below `p` is not in the tree of a shorter prefix that `p` does not continue with a slash. */
  lemma NotInTreeOfShorter(path: string, p: string, prefix: string)
    requires StartsWith(path, p) && |prefix| < |p| && p[|prefix|] != '/'
    ensures !InTree(path, prefix)
  {
    assert path[|prefix|] == p[|prefix|];
    assert (prefix + "/")[|prefix|] == '/';
  }

  /** Pre-flight requests pass on every path, the role-gated ones included. */
  lemma PreflightAlwaysAllowed(path: string, auth: Option<Authentication>)
    ensures Decide(OPTIONS, path, auth) == Allow
  {
    MatchTable(OPTIONS, path);
    DecidedBy(OPTIONS, path, auth, 0);
  }

  // Everything below /api/auth and /api/ai is public for every method.
  lemma AuthAndAiArePublic(m: HttpMethod, path: string, auth: Option<Authentication>)
    requires InTree(path, "/api/auth") || InTree(path, "/api/ai")
    ensures Decide(m, path, auth) == Allow
  {
    MatchTable(m, path);
    if m == OPTIONS {
      DecidedBy(m, path, auth, 0);
    } else if InTree(path, "/api/auth") {
      DecidedBy(m, path, auth, 1);
    } else {
      DecidedBy(m, path, auth, 2);
    }
  }

  /** The catalog listings are public to GET requests. */
  lemma CatalogPublicForGet(path: string, auth: Option<Authentication>)
    requires path == "/api/barbers" || path == "/api/services"
    ensures Decide(GET, path, auth) == Allow
  {
    MatchTable(GET, path);
    var k: nat := 5;
    assert path[k] == 'b' || path[k] == 's';
    NotInTree(path, path, "/api/auth", k);
    NotInTree(path, path, "/api/ai", k);
    NotInTree(path, path, "/api/profile/avatar", k);
    DecidedBy(GET, path, auth, 4);
  }

  /** The catalog paths, the avatar tree and the bookings tree are in none of the public or role-gated trees. */
  lemma OutsideGatedTrees(path: string, p: string)
    requires StartsWith(path, p)
    requires p in {"/api/barbers", "/api/services", "/api/profile/avatar/", "/api/bookings"}
    ensures !InTree(path, "/api/auth") && !InTree(path, "/api/ai")
    ensures !InTree(path, "/api/barber") && !InTree(path, "/api/admin")
    ensures p != "/api/profile/avatar/" ==> !InTree(path, "/api/profile/avatar")
    ensures p == "/api/bookings" ==> path != "/api/barbers" && path != "/api/services"
  {
    if p == "/api/barbers" {
      NotInTree(path, p, "/api/auth", 5);
      NotInTree(path, p, "/api/ai", 5);
      NotInTree(path, p, "/api/profile/avatar", 5);
      NotInTree(path, p, "/api/admin", 5);
      NotInTreeOfShorter(path, p, "/api/barber");
    } else if p == "/api/services" {
      NotInTree(path, p, "/api/auth", 5);
      NotInTree(path, p, "/api/ai", 5);
      NotInTree(path, p, "/api/profile/avatar", 5);
      NotInTree(path, p, "/api/barber", 5);
      NotInTree(path, p, "/api/admin", 5);
    } else if p == "/api/profile/avatar/" {
      NotInTree(path, p, "/api/auth", 5);
      NotInTree(path, p, "/api/ai", 5);
      NotInTree(path, p, "/api/barber", 5);
      NotInTree(path, p, "/api/admin", 5);
    } else {
      NotInTree(path, p, "/api/auth", 5);
      NotInTree(path, p, "/api/ai", 5);
      NotInTree(path, p, "/api/profile/avatar", 5);
      NotInTree(path, p, "/api/barber", 6);
      NotInTree(path, p, "/api/admin", 5);
      assert path[5] == p[5];
    }
  }

  /** Any other method on the catalog listings needs an identity, of any role. */
  lemma CatalogWritesNeedAuthentication(m: HttpMethod, path: string, auth: Option<Authentication>)
    requires m != GET && m != OPTIONS
    requires path == "/api/barbers" || path == "/api/services"
    ensures Decide(m, path, auth) == Allow <==> auth.Some?
  {
    MatchTable(m, path);
    OutsideGatedTrees(path, path);
    DecidedBy(m, path, auth, 7);
  }

  /** Avatars are public to GET requests only; every other method needs an identity. */
  lemma AvatarsPublicForGetOnly(m: HttpMethod, path: string, auth: Option<Authentication>)
    requires StartsWith(path, "/api/profile/avatar/") && m != OPTIONS
    ensures Decide(m, path, auth) == Allow <==> (m == GET || auth.Some?)
  {
    MatchTable(m, path);
    OutsideGatedTrees(path, "/api/profile/avatar/");
    assert InTree(path, "/api/profile/avatar");
    if m == GET {
      DecidedBy(m, path, auth, 3);
    } else {
      DecidedBy(m, path, auth, 7);
    }
  }

  // Everything below /api/barber admits exactly the identities holding ROLE_BARBER: an ADMIN alone is refused.
  lemma BarberAreaNeedsBarberRole(m: HttpMethod, path: string, auth: Option<Authentication>)
    requires StartsWith(path, "/api/barber/") && m != OPTIONS
    ensures Decide(m, path, auth) == Allow <==> auth.Some? && "ROLE_BARBER" in auth.value.authorities
    ensures auth == Some(Authentication(Some("admin@freshcut.com"), ["ROLE_ADMIN"])) ==> Decide(m, path, auth) == Forbidden
  {
    var p := "/api/barber/";
    MatchTable(m, path);
    NotInTree(path, p, "/api/auth", 5);
    NotInTree(path, p, "/api/ai", 5);
    NotInTree(path, p, "/api/profile/avatar", 5);
    assert path != "/api/barbers" by { assert path[11] == p[11]; }
    assert path != "/api/services" by { assert path[5] == p[5]; }
    assert InTree(path, "/api/barber");
    DecidedBy(m, path, auth, 5);
    assert RolePrefix + "BARBER" == "ROLE_BARBER";
    assert "ROLE_BARBER" != "ROLE_ADMIN" by { assert "ROLE_BARBER"[5] != "ROLE_ADMIN"[5]; }
  }

  // Everything below /api/admin admits exactly the identities holding ROLE_ADMIN; the anonymous GET of
  // /api/admin/schedules is refused.
  lemma AdminAreaNeedsAdminRole(m: HttpMethod, path: string, auth: Option<Authentication>)
    requires StartsWith(path, "/api/admin/") && m != OPTIONS
    ensures Decide(m, path, auth) == Allow <==> auth.Some? && "ROLE_ADMIN" in auth.value.authorities
  {
    var p := "/api/admin/";
    MatchTable(m, path);
    NotInTree(path, p, "/api/auth", 6);
    NotInTree(path, p, "/api/ai", 6);
    NotInTree(path, p, "/api/profile/avatar", 5);
    NotInTree(path, p, "/api/barber", 5);
    assert path != "/api/barbers" && path != "/api/services" by { assert path[5] == p[5]; }
    assert InTree(path, "/api/admin");
    DecidedBy(m, path, auth, 6);
    assert RolePrefix + "ADMIN" == "ROLE_ADMIN";
  }

  /** The request of the unauthorized-access test: anonymous GET /api/admin/schedules answers 403. */
  lemma AnonymousAdminSchedulesForbidden()
    ensures Decide(GET, "/api/admin/schedules", None) == Forbidden
  {
    var path := "/api/admin/schedules";
    assert path[..11] == "/api/admin/";
    AdminAreaNeedsAdminRole(GET, path, None);
  }

  // /api/barbers is not below /api/barber (pattern "/api/barber/**"): the public listing is not role-gated.
  lemma BarbersListingIsNotBarberArea()
    ensures !InTree("/api/barbers", "/api/barber")
    ensures Decide(GET, "/api/barbers", None) == Allow
  {
    OutsideGatedTrees("/api/barbers", "/api/barbers");
    CatalogPublicForGet("/api/barbers", None);
  }

  /** Everything else, the bookings API for one, needs an identity of any role. */
  lemma BookingsNeedAuthentication(m: HttpMethod, path: string, auth: Option<Authentication>)
    requires StartsWith(path, "/api/bookings") && m != OPTIONS
    ensures Decide(m, path, auth) == Allow <==> auth.Some?
  {
    MatchTable(m, path);
    OutsideGatedTrees(path, "/api/bookings");
    DecidedBy(m, path, auth, 7);
  }
}
