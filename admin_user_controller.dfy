/**
 * `AdminUserController`: the administrator's view of the user accounts
 * under `/api/admin/users` — a projection that leaves out the secrets, a
 * lookup by lower-cased email, and two deletions that refuse to remove the
 * caller's own account.
 */
module AdminUserController {
  import opened Text
  import opened Entities
  import opened Store
  import opened JwtAuthFilter

  /** `UserDto`: what an administrator sees of a user. */
  datatype UserDto = UserDto(id: Id, email: string, role: Option<string>, name: Option<string>, barberId: Option<Id>, createdAt: int)

  /** The answers other than 200/204. */
  datatype Refusal = BadRequest | NotFound

  /** `new UserDto(u)` for the user stored under `id`. */
  function ToDto(id: Id, u: User): UserDto {
    UserDto(id, u.email, Some(RoleName(u.role)), u.name, u.barberId, u.createdAt)
  }

  /** `GET /api/admin/users`: one projection per stored user. */
  function ListOutcome(users: map<Id, User>): map<Id, UserDto> {
    map id | id in users :: ToDto(id, users[id])
  }

  /** `GET /by-email/{email}`: the user whose stored email is the lower-cased path segment. */
  function GetByEmailOutcome(users: map<Id, User>, email: string): Result<UserDto, Refusal>
    requires UniqueEmails(users)
  {
    match FindUserByEmail(users, ToLower(email))
    case None => Err(NotFound)
    case Some(id) => Ok(ToDto(id, users[id]))
  }

  /**
   * `DELETE /{id}`: 400 when `id` is the id of the user whose email is the
   * principal, then 404 for an unknown id; on success the id to remove.
   */
  function DeleteOutcome(users: map<Id, User>, auth: Option<Authentication>, id: Id): Result<Id, Refusal>
    requires UniqueEmails(users)
  {
    var me := if Principal(auth).None? then None else FindUserByEmail(users, Principal(auth).value);
    if me == Some(id) then Err(BadRequest)
    else if id !in users then Err(NotFound)
    else Ok(id)
  }

  /**
   * `DELETE /by-email/{email}`: 400 when the principal equals `email`
   * ignoring case, then 404 unless some user's email is `email` lower-cased;
   * on success the id of that user.
   */
  function DeleteByEmailOutcome(users: map<Id, User>, auth: Option<Authentication>, email: string): Result<Id, Refusal>
    requires UniqueEmails(users)
  {
    if Principal(auth).Some? && EqualsIgnoreCase(Principal(auth).value, email) then Err(BadRequest)
    else
      match FindUserByEmail(users, ToLower(email))
      case None => Err(NotFound)
      case Some(id) => Ok(id)
  }

  // ---------------------------------------------------------------------------
  // Properties
  // ---------------------------------------------------------------------------

  /**
   * The projection copies the id, email, role name, name, barber link and
   * creation instant, and nothing it shows depends on the password hash,
   * the avatar or the reset code and its expiry.
   */
  lemma DtoHidesSecrets(id: Id, u: User, hash: string, avatar: Option<string>, code: Option<string>, expiry: Option<int>)
    ensures var d := ToDto(id, u);
      && d.id == id && d.email == u.email && d.role == Some(RoleName(u.role))
      && d.name == u.name && d.barberId == u.barberId && d.createdAt == u.createdAt
    ensures ToDto(id, u.(passwordHash := hash, avatarPath := avatar, resetCode := code, resetExpiry := expiry)) == ToDto(id, u)
  {
  }

  /**
   * The listing has as many entries as there are users, each carrying the
   * id it is listed under, and shows exactly the stored emails.
   */
  lemma ListCoversUsers(users: map<Id, User>)
    ensures |ListOutcome(users)| == |users|
    ensures forall id :: id in ListOutcome(users) ==> ListOutcome(users)[id].id == id
    ensures (set id | id in ListOutcome(users) :: ListOutcome(users)[id].email) == (set id | id in users :: users[id].email)
  {
    assert ListOutcome(users).Keys == users.Keys;
  }

  /**
   * A user whose stored email holds an ASCII capital is found by no lookup
   * and removed by no deletion by email, whatever case the query uses.
   */
  lemma CapitalisedEmailUnreachable(users: map<Id, User>, auth: Option<Authentication>, id: Id, q: string, k: int)
    requires UniqueEmails(users) && id in users
    requires 0 <= k < |users[id].email| && 'A' <= users[id].email[k] <= 'Z'
    ensures GetByEmailOutcome(users, q).Ok? ==> GetByEmailOutcome(users, q).value.id != id
    ensures DeleteByEmailOutcome(users, auth, q) != Ok(id)
  {
    ToLowerNoAsciiCapital(q);
  }

  /** A user stored with a lower-case email is found by that email written in any case. */
  lemma LowerCaseEmailFound(users: map<Id, User>, id: Id, q: string)
    requires UniqueEmails(users) && id in users
    requires ToLower(q) == users[id].email
    ensures GetByEmailOutcome(users, q) == Ok(ToDto(id, users[id]))
  {
    FindUserByEmailIs(users, ToLower(q), id);
  }

  /** `DELETE /{id}` on the caller's own id is a 400, whether or not anything else would fail. */
  lemma DeleteRefusesSelf(users: map<Id, User>, auth: Option<Authentication>, me: Id)
    requires UniqueEmails(users) && me in users && Principal(auth) == Some(users[me].email)
    ensures DeleteOutcome(users, auth, me) == Err(BadRequest)
  {
    FindUserByEmailIs(users, users[me].email, me);
  }

  /**
   * Any other id: 404 exactly when unknown, and removed otherwise; an
   * anonymous caller, or one with no account, can delete any stored user.
   */
  lemma DeleteOthers(users: map<Id, User>, auth: Option<Authentication>, id: Id)
    requires UniqueEmails(users)
    requires forall me :: me in users && Principal(auth) == Some(users[me].email) ==> me != id
    ensures DeleteOutcome(users, auth, id) == Err(NotFound) <==> id !in users
    ensures DeleteOutcome(users, auth, id) == Ok(id) <==> id in users
  {
  }

  /**
   * `DELETE /by-email/{email}` never removes the caller's own account: the
   * user it would remove has the lower-cased query as email, and that equals
   * the query ignoring case, so a principal holding that email gets a 400.
   * This rests on `Text.ToLower` keeping U+0130 as one character: Java
   * lower-cases it to two ("i" and U+0307), and then a stored "i\u0307"
   * queried as U+0130 differs in length from the query, passes the guard
   * and is found by the lower-cased lookup.
   */
  lemma DeleteByEmailRefusesSelf(users: map<Id, User>, auth: Option<Authentication>, me: Id, email: string)
    requires UniqueEmails(users) && me in users && Principal(auth) == Some(users[me].email)
    ensures DeleteByEmailOutcome(users, auth, email) != Ok(me)
  {
    if users[me].email == ToLower(email) {
      LowerEqualsIgnoreCase(email);
    }
  }

  /** Otherwise `DELETE /by-email/{email}` removes exactly the user whose email is the lower-cased query, or 404s. */
  lemma DeleteByEmailTarget(users: map<Id, User>, auth: Option<Authentication>, email: string)
    requires UniqueEmails(users)
    requires Principal(auth).None? || !EqualsIgnoreCase(Principal(auth).value, email)
    ensures DeleteByEmailOutcome(users, auth, email) == Err(NotFound) <==> !ExistsByEmail(users, ToLower(email))
    ensures DeleteByEmailOutcome(users, auth, email).Ok? ==>
      var id := DeleteByEmailOutcome(users, auth, email).value;
      id in users && users[id].email == ToLower(email)
  {
  }

  /** Removing a user keeps the emails unique and leaves every other user as it was. */
  lemma RemoveKeepsUnique(users: map<Id, User>, id: Id)
    requires UniqueEmails(users)
    ensures UniqueEmails(users - {id})
    ensures forall other :: other in users && other != id ==> other in users - {id} && (users - {id})[other] == users[other]
  {
  }

  // ---------------------------------------------------------------------------
  // The endpoints that write
  // ---------------------------------------------------------------------------

  /** `DELETE /{id}` */
  method Delete(store: Store, auth: Option<Authentication>, id: Id) returns (r: Result<Id, Refusal>)
    requires store.Valid()
    modifies store`users
    ensures store.Valid()
    ensures r == DeleteOutcome(old(store.users), auth, id)
    ensures r.Err? ==> store.users == old(store.users)
    ensures r.Ok? ==> store.users == old(store.users) - {id}
  {
    r := DeleteOutcome(store.users, auth, id);
    if r.Ok? {
      RemoveKeepsUnique(store.users, id);
      store.users := store.users - {id};
    }
  }

  /** `DELETE /by-email/{email}` */
  method DeleteByEmail(store: Store, auth: Option<Authentication>, email: string) returns (r: Result<Id, Refusal>)
    requires store.Valid()
    modifies store`users
    ensures store.Valid()
    ensures r == DeleteByEmailOutcome(old(store.users), auth, email)
    ensures r.Err? ==> store.users == old(store.users)
    ensures r.Ok? ==> store.users == old(store.users) - {r.value}
  {
    r := DeleteByEmailOutcome(store.users, auth, email);
    if r.Ok? {
      RemoveKeepsUnique(store.users, r.value);
      store.users := store.users - {r.value};
    }
  }
}
