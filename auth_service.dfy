/**
 * `AuthService`: registration, login and the password-reset code life
 * cycle. The password encoder, its `matches` test and the token issuer
 * are functions passed in; instants are milliseconds and the clock
 * reading `now` is a parameter, as is the random draw of a reset code.
 */
module AuthService {
  import opened Text
  import opened Entities
  import opened Store

  datatype RegisterRequest = RegisterRequest(
    name: Option<string>,
    email: string,
    password: string,
    role: Option<string>,
    barberId: Option<string>)

  datatype AuthResponse = AuthResponse(token: string, email: string, role: string)

  datatype AuthError =
    | EmailTaken          // "El email ya está registrado"
    | BarberNameRequired  // "Para rol BARBER debes indicar nombre para crear tu perfil"
    | InvalidCredentials  // "Credenciales inválidas"
    | CodeNotRequested    // "Código no solicitado"
    | CodeExpired         // "Código expirado"
    | CodeInvalid         // "Código inválido"

  /** Fifteen minutes, in milliseconds. */
  const ResetWindowMs: int := 15 * 60 * 1000

  /** Reset codes are drawn from 0 to 999999. */
  const CodeBound: int := 1000000

  predicate Present(s: Option<string>) {
    s.Some? && !IsBlank(s.value)
  }

  /** "ADMIN" and "BARBER" in any letter case; anything else, a missing role included, is USER. */
  function ResolveRole(role: Option<string>): Role {
    if role.Some? && EqualsIgnoreCase("ADMIN", role.value) then ADMIN
    else if role.Some? && EqualsIgnoreCase("BARBER", role.value) then BARBER
    else USER
  }

  /** How a new user is tied to a barber profile. */
  datatype Link = NoLink | LinkTo(barberId: Id) | NewProfile(name: string)

  /** The checks of `register`, in order, and the role and link they settle on. */
  function RegisterPlan(users: map<Id, User>, req: RegisterRequest): Result<(Role, Link), AuthError> {
    if ExistsByEmail(users, req.email) then Err(EmailTaken)
    else
      var role := ResolveRole(req.role);
      if role != BARBER then Ok((role, NoLink))
      else if Present(req.barberId) then Ok((role, LinkTo(req.barberId.value)))
      else if !Present(req.name) then Err(BarberNameRequired)
      else Ok((role, NewProfile(req.name.value)))
  }

  /** The user `register` saves. */
  function NewUser(req: RegisterRequest, role: Role, barberId: Option<Id>, encode: string -> string, now: int): User {
    User(req.email, encode(req.password), role, barberId, req.name, None, now, None, None)
  }

  /** The barber profile `register` creates for a BARBER without a barber id. */
  function NewProfileDoc(name: string): Barber {
    Barber(Some(name), None, None, None, None, true)
  }

  /** `login(email, password)`: one error for an unknown email and for a wrong password. */
  function Login(users: map<Id, User>, email: string, password: string,
                 matches: (string, string) -> bool, issue: (string, string) -> string): Result<AuthResponse, AuthError>
    requires UniqueEmails(users)
  {
    match FindUserByEmail(users, email)
    case None => Err(InvalidCredentials)
    case Some(id) =>
      var u := users[id];
      if !matches(password, u.passwordHash) then Err(InvalidCredentials)
      else Ok(AuthResponse(issue(u.email, RoleName(u.role)), u.email, RoleName(u.role)))
  }

  /** `String.format("%06d", n)` for 0 <= n < 1000000. */
  function PadCode(n: int): (r: string)
    requires 0 <= n < CodeBound
  {
    var digits := Decimal(n);
    DecimalLength(n, 6);
    seq(6 - |digits|, _ => '0') + digits
  }

  /** `requestPasswordReset(email)`: the code and its expiry written to the user, or nothing for an unknown email. */
  function ResetRequested(users: map<Id, User>, email: string, draw: int, now: int): map<Id, User>
    requires UniqueEmails(users) && 0 <= draw < CodeBound
  {
    match FindUserByEmail(users, email)
    case None => users
    case Some(id) => users[id := users[id].(resetCode := Some(PadCode(draw)), resetExpiry := Some(now + ResetWindowMs))]
  }

  /** `resetPassword(email, code, newPassword)`: the checks in order; on success the new hash, code and expiry cleared. */
  function ResetOutcome(users: map<Id, User>, email: string, code: string, newPassword: string,
                        encode: string -> string, now: int): Result<map<Id, User>, AuthError>
    requires UniqueEmails(users)
  {
    match FindUserByEmail(users, email)
    case None => Err(InvalidCredentials)
    case Some(id) =>
      var u := users[id];
      if u.resetCode.None? || u.resetExpiry.None? then Err(CodeNotRequested)
      else if now > u.resetExpiry.value then Err(CodeExpired)
      else if code != u.resetCode.value then Err(CodeInvalid)
      else Ok(users[id := u.(passwordHash := encode(newPassword), resetCode := None, resetExpiry := None)])
  }

  // ---------------------------------------------------------------------------
  // Properties
  // ---------------------------------------------------------------------------

  /**
   * The role names match in any letter case, including the characters
   * whose case mappings reach an ASCII letter (the dotless and the dotted
   * capital I); a missing or unknown role is USER.
   */
  lemma ResolveRoleCases(s: string)
    ensures ResolveRole(None) == USER
    ensures ResolveRole(Some(s)) == ADMIN <==>
      |s| == 5 && s[0] in "aA" && s[1] in "dD" && s[2] in "mM" && s[3] in "iI\U{0131}\U{0130}" && s[4] in "nN"
    ensures ResolveRole(Some(s)) == BARBER <==>
      |s| == 6 && s[0] in "bB" && s[1] in "aA" && s[2] in "rR" && s[3] in "bB" && s[4] in "eE" && s[5] in "rR"
    ensures ResolveRole(Some("Admin")) == ADMIN && ResolveRole(Some("adm\U{0131}n")) == ADMIN
    ensures ResolveRole(Some("barber")) == BARBER && ResolveRole(Some("ROOT")) == USER
  {
    AdminForms(s);
    BarberForms(s);
    AdminForms("Admin");
    AdminForms("adm\U{0131}n");
    BarberForms("barber");
    AdminForms("ROOT");
    BarberForms("ROOT");
  }

  /** The strings equal to "ADMIN" ignoring case. */
  lemma AdminForms(s: string)
    ensures EqualsIgnoreCase("ADMIN", s) <==>
      |s| == 5 && s[0] in "aA" && s[1] in "dD" && s[2] in "mM" && s[3] in "iI\U{0131}\U{0130}" && s[4] in "nN"
  {
    if |s| == 5 {
      MatchesLetter(s[0], 'A', "aA");
      MatchesLetter(s[1], 'D', "dD");
      MatchesLetter(s[2], 'M', "mM");
      MatchesLetter(s[3], 'I', "iI\U{0131}\U{0130}");
      MatchesLetter(s[4], 'N', "nN");
      var admin := "ADMIN";
      assert EqualsIgnoreCase(admin, s) <==> CharsMatch('A', s[0]) && CharsMatch('D', s[1]) && CharsMatch('M', s[2])
                                             && CharsMatch('I', s[3]) && CharsMatch('N', s[4]);
    }
  }

  /** The strings equal to "BARBER" ignoring case. */
  lemma BarberForms(s: string)
    ensures EqualsIgnoreCase("BARBER", s) <==>
      |s| == 6 && s[0] in "bB" && s[1] in "aA" && s[2] in "rR" && s[3] in "bB" && s[4] in "eE" && s[5] in "rR"
  {
    if |s| == 6 {
      MatchesLetter(s[0], 'B', "bB");
      MatchesLetter(s[1], 'A', "aA");
      MatchesLetter(s[2], 'R', "rR");
      MatchesLetter(s[3], 'B', "bB");
      MatchesLetter(s[4], 'E', "eE");
      MatchesLetter(s[5], 'R', "rR");
      var barber := "BARBER";
      assert EqualsIgnoreCase(barber, s) <==> CharsMatch('B', s[0]) && CharsMatch('A', s[1]) && CharsMatch('R', s[2])
                                              && CharsMatch('B', s[3]) && CharsMatch('E', s[4]) && CharsMatch('R', s[5]);
    }
  }

  /** The characters that match an ASCII capital of a role name ignoring case. */
  lemma MatchesLetter(c: char, capital: char, forms: string)
    requires capital in "ADMINBER"
    requires forms == (if capital == 'I' then "iI\U{0131}\U{0130}" else [(capital as int + 32) as char, capital])
    ensures CharsMatch(capital, c) <==> c in forms
  {
  }

  /**
   * A taken email fails before anything else; a BARBER is linked to the
   * given id when there is one, needs a name otherwise; other roles get no link.
   */
  lemma RegisterPlanCases(users: map<Id, User>, req: RegisterRequest)
    ensures ExistsByEmail(users, req.email) ==> RegisterPlan(users, req) == Err(EmailTaken)
    ensures RegisterPlan(users, req).Ok? ==>
      var (role, link) := RegisterPlan(users, req).value;
      && role == ResolveRole(req.role)
      && (role != BARBER <==> link.NoLink?)
      && (link.LinkTo? ==> Present(req.barberId) && link.barberId == req.barberId.value)
      && (link.NewProfile? ==> !Present(req.barberId) && Present(req.name) && link.name == req.name.value)
    ensures RegisterPlan(users, req) == Err(BarberNameRequired) <==>
      !ExistsByEmail(users, req.email) && ResolveRole(req.role) == BARBER && !Present(req.barberId) && !Present(req.name)
  {
  }

  /** A user just saved by `register` logs in with the same password when the encoder's `matches` accepts its own encodings. */
  lemma RegisterThenLogin(users: map<Id, User>, req: RegisterRequest, id: Id, barberId: Option<Id>,
                          encode: string -> string, matches: (string, string) -> bool,
                          issue: (string, string) -> string, now: int)
    requires UniqueEmails(users) && RegisterPlan(users, req).Ok? && id !in users
    requires matches(req.password, encode(req.password))
    ensures var role := RegisterPlan(users, req).value.0;
      var after := users[id := NewUser(req, role, barberId, encode, now)];
      && UniqueEmails(after)
      && Login(after, req.email, req.password, matches, issue)
         == Ok(AuthResponse(issue(req.email, RoleName(role)), req.email, RoleName(role)))
  {
    var role := RegisterPlan(users, req).value.0;
    var after := users[id := NewUser(req, role, barberId, encode, now)];
    assert UniqueEmails(after);
    FindUserByEmailIs(after, req.email, id);
  }

  /** Login fails only with the one uniform error, and succeeds exactly for a known email whose hash matches. */
  lemma LoginUniformFailure(users: map<Id, User>, email: string, password: string,
                            matches: (string, string) -> bool, issue: (string, string) -> string)
    requires UniqueEmails(users)
    ensures Login(users, email, password, matches, issue).Err? ==> Login(users, email, password, matches, issue).error == InvalidCredentials
    ensures Login(users, email, password, matches, issue).Ok? <==>
      exists id :: id in users && users[id].email == email && matches(password, users[id].passwordHash)
  {
    if Login(users, email, password, matches, issue).Err? {
      forall id | id in users && users[id].email == email ensures !matches(password, users[id].passwordHash) {
        FindUserByEmailIs(users, email, id);
      }
    }
  }

  /** The reset code is six decimal digits that read back as the draw: distinct draws give distinct codes. */
  lemma PadCodeShape(n: int)
    requires 0 <= n < CodeBound
    ensures |PadCode(n)| == 6 && AllDigits(PadCode(n))
    ensures DecimalValue(PadCode(n)) == n
  {
    var digits := Decimal(n);
    DecimalLength(n, 6);
    LeadingZeros(6 - |digits|, digits);
    DecimalRoundTrip(n);
  }

  lemma PadCodeInjective(n: int, m: int)
    requires 0 <= n < CodeBound && 0 <= m < CodeBound && PadCode(n) == PadCode(m)
    ensures n == m
  {
    PadCodeShape(n);
    PadCodeShape(m);
  }

  /** Asking for a reset touches only the named user's code and expiry, and nobody for an unknown email. */
  lemma ResetRequestedTouchesOnlyCode(users: map<Id, User>, email: string, draw: int, now: int)
    requires UniqueEmails(users) && 0 <= draw < CodeBound
    ensures var after := ResetRequested(users, email, draw, now);
      && after.Keys == users.Keys
      && UniqueEmails(after)
      && (!ExistsByEmail(users, email) ==> after == users)
      && forall id :: id in users ==>
           if users[id].email == email then after[id] == users[id].(resetCode := Some(PadCode(draw)), resetExpiry := Some(now + ResetWindowMs))
           else after[id] == users[id]
  {
    var after := ResetRequested(users, email, draw, now);
    assert UniqueEmails(after);
  }

  /**
   * A code issued at `issued` is accepted with the right code up to and
   * including `issued` + 15 minutes, and the reset writes the new hash and
   * clears the code and expiry.
   */
  lemma ResetWithinWindow(users: map<Id, User>, email: string, draw: int, issued: int, now: int,
                          newPassword: string, encode: string -> string)
    requires UniqueEmails(users) && 0 <= draw < CodeBound && ExistsByEmail(users, email)
    ensures UniqueEmails(ResetRequested(users, email, draw, issued))
    ensures var requested := ResetRequested(users, email, draw, issued);
      var r := ResetOutcome(requested, email, PadCode(draw), newPassword, encode, now);
      && (r.Ok? <==> now <= issued + ResetWindowMs)
      && (r.Err? ==> r.error == CodeExpired)
      && (r.Ok? ==> forall id :: id in users && users[id].email == email ==>
            r.value[id] == users[id].(passwordHash := encode(newPassword), resetCode := None, resetExpiry := None))
  {
    ResetRequestedTouchesOnlyCode(users, email, draw, issued);
    var requested := ResetRequested(users, email, draw, issued);
    var id := FindUserByEmail(users, email).value;
    FindUserByEmailIs(requested, email, id);
  }

  /** A code can be used once: after a successful reset the same request fails with "Código no solicitado". */
  lemma ResetIsSingleUse(users: map<Id, User>, email: string, code: string, newPassword: string,
                         encode: string -> string, now: int, later: int, password2: string)
    requires UniqueEmails(users)
    requires ResetOutcome(users, email, code, newPassword, encode, now).Ok?
    ensures UniqueEmails(ResetOutcome(users, email, code, newPassword, encode, now).value)
    ensures ResetOutcome(ResetOutcome(users, email, code, newPassword, encode, now).value, email, code, password2, encode, later)
            == Err(CodeNotRequested)
  {
    var id := FindUserByEmail(users, email).value;
    var after := ResetOutcome(users, email, code, newPassword, encode, now).value;
    assert UniqueEmails(after);
    FindUserByEmailIs(after, email, id);
  }

  /** The user holding `email` has a reset code and an expiry. */
  ghost predicate Requested(users: map<Id, User>, email: string, id: Id) {
    id in users && users[id].email == email && users[id].resetCode.Some? && users[id].resetExpiry.Some?
  }

  /**
   * `resetPassword` succeeds exactly with the stored code before its expiry,
   * and each refusal names the first check that fails: unknown email, no
   * code requested, code expired, wrong code.
   */
  lemma ResetCheckOrder(users: map<Id, User>, email: string, code: string, newPassword: string, encode: string -> string, now: int)
    requires UniqueEmails(users)
    ensures var r := ResetOutcome(users, email, code, newPassword, encode, now);
      && (r == Err(InvalidCredentials) <==> !ExistsByEmail(users, email))
      && (r == Err(CodeNotRequested) <==>
            exists id :: id in users && users[id].email == email && (users[id].resetCode.None? || users[id].resetExpiry.None?))
      && (r == Err(CodeExpired) <==>
            exists id :: Requested(users, email, id) && now > users[id].resetExpiry.value)
      && (r == Err(CodeInvalid) <==>
            exists id :: Requested(users, email, id) && now <= users[id].resetExpiry.value && code != users[id].resetCode.value)
      && (r.Ok? <==>
            exists id :: Requested(users, email, id) && now <= users[id].resetExpiry.value && code == users[id].resetCode.value)
    ensures forall id :: Requested(users, email, id) && now <= users[id].resetExpiry.value && code == users[id].resetCode.value ==>
      ResetOutcome(users, email, code, newPassword, encode, now)
        == Ok(users[id := users[id].(passwordHash := encode(newPassword), resetCode := None, resetExpiry := None)])
  {
    if id :| id in users && users[id].email == email {
      FindUserByEmailIs(users, email, id);
    }
  }

  // ---------------------------------------------------------------------------
  // The service operations
  // ---------------------------------------------------------------------------

  datatype Registered = Registered(response: AuthResponse, userId: Id, profileId: Option<Id>)

  /** `register(req)` */
  method Register(store: Store, req: RegisterRequest, encode: string -> string,
                  issue: (string, string) -> string, now: int) returns (r: Result<Registered, AuthError>)
    requires store.Valid()
    modifies store`users, store`barbers, store`nextSeq
    ensures store.Valid()
    ensures var plan := RegisterPlan(old(store.users), req);
      && (r.Err? <==> plan.Err?)
      && (r.Err? ==> r.error == plan.error && store.users == old(store.users) && store.barbers == old(store.barbers))
      && (r.Ok? ==>
            var (role, link) := plan.value;
            var reg := r.value;
            && reg.response == AuthResponse(issue(req.email, RoleName(role)), req.email, RoleName(role))
            && reg.userId !in old(store.users)
            && (link.NewProfile? <==> reg.profileId.Some?)
            && (link.NewProfile? ==> reg.profileId.value !in old(store.barbers)
                                     && store.barbers == old(store.barbers)[reg.profileId.value := NewProfileDoc(link.name)])
            && (!link.NewProfile? ==> store.barbers == old(store.barbers))
            && var linked := match link
                             case NoLink => None
                             case LinkTo(b) => Some(b)
                             case NewProfile(_) => reg.profileId;
               store.users == old(store.users)[reg.userId := NewUser(req, role, linked, encode, now)])
  {
    if ExistsByEmail(store.users, req.email) {
      return Err(EmailTaken);
    }
    var role := ResolveRole(req.role);
    var linked: Option<Id> := None;
    var profileId: Option<Id> := None;
    if role == BARBER {
      if Present(req.barberId) {
        linked := req.barberId;
      } else {
        if !Present(req.name) {
          return Err(BarberNameRequired);
        }
        var b := NewProfileDoc(req.name.value);
        var bid := store.NewId();
        store.barbers := store.barbers[bid := b];
        linked := Some(bid);
        profileId := Some(bid);
      }
    }
    var u := NewUser(req, role, linked, encode, now);
    var uid := store.NewId();
    store.users := store.users[uid := u];
    var token := issue(u.email, RoleName(u.role));
    r := Ok(Registered(AuthResponse(token, u.email, RoleName(u.role)), uid, profileId));
  }

  /** `requestPasswordReset(email)`, with `draw` the random number in [0, 1000000). */
  method RequestPasswordReset(store: Store, email: string, draw: int, now: int)
    requires store.Valid() && 0 <= draw < CodeBound
    modifies store`users
    ensures store.Valid()
    ensures store.users == ResetRequested(old(store.users), email, draw, now)
  {
    var found := FindUserByEmail(store.users, email);
    if found.Some? {
      var id := found.value;
      var u := store.users[id];
      var code := PadCode(draw);
      u := u.(resetCode := Some(code), resetExpiry := Some(now + ResetWindowMs));
      ResetRequestedTouchesOnlyCode(store.users, email, draw, now);
      store.users := store.users[id := u];
    }
  }

  /** `resetPassword(email, code, newPassword)` */
  method ResetPassword(store: Store, email: string, code: string, newPassword: string, encode: string -> string, now: int)
    returns (r: Result<(), AuthError>)
    requires store.Valid()
    modifies store`users
    ensures store.Valid()
    ensures var outcome := ResetOutcome(old(store.users), email, code, newPassword, encode, now);
      && (r.Err? <==> outcome.Err?)
      && (r.Err? ==> r.error == outcome.error && store.users == old(store.users))
      && (r.Ok? ==> store.users == outcome.value)
  {
    var found := FindUserByEmail(store.users, email);
    if found.None? {
      return Err(InvalidCredentials);
    }
    var id := found.value;
    var u := store.users[id];
    if u.resetCode.None? || u.resetExpiry.None? {
      return Err(CodeNotRequested);
    }
    if now > u.resetExpiry.value {
      return Err(CodeExpired);
    }
    if code != u.resetCode.value {
      return Err(CodeInvalid);
    }
    u := u.(passwordHash := encode(newPassword), resetCode := None, resetExpiry := None);
    assert UniqueEmails(store.users[id := u]);
    store.users := store.users[id := u];
    r := Ok(());
  }
}
