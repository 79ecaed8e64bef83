/**
 * `BarberController`: the self-service endpoints of a barber under
 * `/api/barber`. Every endpoint first finds the calling user by the email
 * in the security context, then answers 404 unless that user is linked to
 * a barber profile (a non-null, non-blank `barberId`); the schedule
 * endpoints only touch the caller's own windows.
 */
module BarberController {
  import opened Text
  import opened Entities
  import opened Store
  import opened BookingRepository
  import opened JwtAuthFilter

  /**
   * Why an endpoint does not answer 200: the two failures of `currentUser`
   * (an `IllegalStateException`, so a server error), 404 and 403.
   */
  datatype Refusal = NotAuthenticated | UserNotFound | NotFound | Forbidden

  /** `currentUser()`: the id of the user whose email is the principal. */
  function CurrentUser(users: map<Id, User>, auth: Option<Authentication>): (r: Result<Id, Refusal>)
    requires UniqueEmails(users)
    ensures r == Err(NotAuthenticated) <==> Principal(auth).None?
    ensures r == Err(UserNotFound) <==> Principal(auth).Some? && !ExistsByEmail(users, Principal(auth).value)
    ensures r.Ok? ==> r.value in users && Some(users[r.value].email) == Principal(auth)
  {
    match Principal(auth)
    case None => Err(NotAuthenticated)
    case Some(email) =>
      match FindUserByEmail(users, email)
      case None => Err(UserNotFound)
      case Some(id) => Ok(id)
  }

  /** The barber profile a user is linked to: its `barberId` when that is neither null nor blank. */
  function LinkedBarber(u: User): Option<Id> {
    if u.barberId.Some? && !IsBlank(u.barberId.value) then u.barberId else None
  }

  /**
   * The guard every endpoint starts with: `currentUser()`, then 404 for a
   * user without a linked barber. On success, the caller's barber id.
   */
  function Caller(users: map<Id, User>, auth: Option<Authentication>): (r: Result<Id, Refusal>)
    requires UniqueEmails(users)
    ensures CurrentUser(users, auth).Err? ==> r == CurrentUser(users, auth)
    ensures CurrentUser(users, auth).Ok? ==>
      r == (match LinkedBarber(users[CurrentUser(users, auth).value])
            case None => Err(NotFound)
            case Some(b) => Ok(b))
  {
    match CurrentUser(users, auth)
    case Err(e) => Err(e)
    case Ok(uid) =>
      match LinkedBarber(users[uid])
      case None => Err(NotFound)
      case Some(b) => Ok(b)
  }

  /** `GET /me`: the caller's barber profile. */
  function MeOutcome(users: map<Id, User>, barbers: map<Id, Barber>, auth: Option<Authentication>): Result<Barber, Refusal>
    requires UniqueEmails(users)
  {
    match Caller(users, auth)
    case Err(e) => Err(e)
    case Ok(bid) => if bid in barbers then Ok(barbers[bid]) else Err(NotFound)
  }

  /**
   * The merge of `PUT /me`: each optional field of the payload replaces the
   * stored one unless it is null; `active` is always taken from the payload.
   */
  function Merge(existing: Barber, payload: Barber): Barber {
    Barber(
      if payload.name.Some? then payload.name else existing.name,
      if payload.specialties.Some? then payload.specialties else existing.specialties,
      if payload.bio.Some? then payload.bio else existing.bio,
      if payload.experienceYears.Some? then payload.experienceYears else existing.experienceYears,
      if payload.cutTypes.Some? then payload.cutTypes else existing.cutTypes,
      payload.active)
  }

  /** `PUT /me`: the id of the caller's profile and the profile as saved. */
  function UpdateMeOutcome(users: map<Id, User>, barbers: map<Id, Barber>, auth: Option<Authentication>, payload: Barber): Result<(Id, Barber), Refusal>
    requires UniqueEmails(users)
  {
    match Caller(users, auth)
    case Err(e) => Err(e)
    case Ok(bid) => if bid in barbers then Ok((bid, Merge(barbers[bid], payload))) else Err(NotFound)
  }

  /** `GET /bookings`: the bookings filed under the caller's current barber name. */
  function MyBookingsOutcome(users: map<Id, User>, barbers: map<Id, Barber>, bookings: map<Id, Booking>, auth: Option<Authentication>): Result<map<Id, Booking>, Refusal>
    requires UniqueEmails(users)
  {
    match Caller(users, auth)
    case Err(e) => Err(e)
    case Ok(bid) =>
      if bid !in barbers then Err(NotFound)
      else
        match barbers[bid].name
        case None => Ok(map[])   // `findByBarber(null)`: every stored booking names a barber
        case Some(name) => Ok(FindByBarber(bookings, name))
  }

  /** `GET /schedules`: the caller's windows. */
  function MySchedulesOutcome(users: map<Id, User>, schedules: map<Id, Schedule>, auth: Option<Authentication>): Result<map<Id, Schedule>, Refusal>
    requires UniqueEmails(users)
  {
    match Caller(users, auth)
    case Err(e) => Err(e)
    case Ok(bid) => Ok(SchedulesOf(schedules, bid))
  }

  /**
   * `POST /schedules`: the payload with the caller's barber id, stored under
   * the new id `newId` (see `CreateScheduleAsWritten` for the id the source uses).
   */
  function CreateScheduleOutcome(users: map<Id, User>, auth: Option<Authentication>, s: Schedule, newId: Id): Result<(Id, Schedule), Refusal>
    requires UniqueEmails(users)
  {
    match Caller(users, auth)
    case Err(e) => Err(e)
    case Ok(bid) => Ok((newId, s.(barberId := Some(bid))))
  }

  /**
   * `POST /schedules` as written: `save` keeps an id the request body
   * carries (`payloadId`), so the window is written over whatever is stored
   * under that id; only a body without an id gets a new one.
   */
  function CreateScheduleAsWritten(users: map<Id, User>, auth: Option<Authentication>, payloadId: Option<Id>, s: Schedule, newId: Id): Result<(Id, Schedule), Refusal>
    requires UniqueEmails(users)
  {
    match Caller(users, auth)
    case Err(e) => Err(e)
    case Ok(bid) => Ok((payloadId.GetOr(newId), s.(barberId := Some(bid))))
  }

  /** `PUT /schedules/{id}`: 404, then 403 for a window of another barber, then the new day and times. */
  function UpdateScheduleOutcome(users: map<Id, User>, schedules: map<Id, Schedule>, auth: Option<Authentication>, id: Id, s: Schedule): Result<Schedule, Refusal>
    requires UniqueEmails(users)
  {
    match Caller(users, auth)
    case Err(e) => Err(e)
    case Ok(bid) =>
      if id !in schedules then Err(NotFound)
      else if schedules[id].barberId != Some(bid) then Err(Forbidden)
      else Ok(schedules[id].(dayOfWeek := s.dayOfWeek, startTime := s.startTime, endTime := s.endTime))
  }

  /** `DELETE /schedules/{id}`: 404, then 403 for a window of another barber, then 204. */
  function DeleteScheduleOutcome(users: map<Id, User>, schedules: map<Id, Schedule>, auth: Option<Authentication>, id: Id): Result<(), Refusal>
    requires UniqueEmails(users)
  {
    match Caller(users, auth)
    case Err(e) => Err(e)
    case Ok(bid) =>
      if id !in schedules then Err(NotFound)
      else if schedules[id].barberId != Some(bid) then Err(Forbidden)
      else Ok(())
  }

  // ---------------------------------------------------------------------------
  // Properties
  // ---------------------------------------------------------------------------

  /** An authenticated user whose `barberId` is null or blank gets 404 from every endpoint. */
  lemma UnlinkedCallerNotFound(users: map<Id, User>, barbers: map<Id, Barber>, schedules: map<Id, Schedule>, bookings: map<Id, Booking>,
                               auth: Option<Authentication>, uid: Id, payload: Barber, s: Schedule, id: Id, newId: Id)
    requires UniqueEmails(users) && uid in users && Principal(auth) == Some(users[uid].email)
    requires users[uid].barberId.None? || IsBlank(users[uid].barberId.value)
    ensures MeOutcome(users, barbers, auth) == Err(NotFound)
    ensures UpdateMeOutcome(users, barbers, auth, payload) == Err(NotFound)
    ensures MyBookingsOutcome(users, barbers, bookings, auth) == Err(NotFound)
    ensures MySchedulesOutcome(users, schedules, auth) == Err(NotFound)
    ensures CreateScheduleOutcome(users, auth, s, newId) == Err(NotFound)
    ensures UpdateScheduleOutcome(users, schedules, auth, id, s) == Err(NotFound)
    ensures DeleteScheduleOutcome(users, schedules, auth, id) == Err(NotFound)
  {
    FindUserByEmailIs(users, users[uid].email, uid);
  }

  /** Which barber an endpoint acts for is decided by the caller's user record alone. */
  lemma CallerIsLinkedBarber(users: map<Id, User>, auth: Option<Authentication>, uid: Id)
    requires UniqueEmails(users) && uid in users && Principal(auth) == Some(users[uid].email)
    ensures Caller(users, auth).Ok? <==> LinkedBarber(users[uid]).Some?
    ensures Caller(users, auth).Ok? ==> Caller(users, auth).value == users[uid].barberId.value && !IsBlank(Caller(users, auth).value)
  {
    FindUserByEmailIs(users, users[uid].email, uid);
  }

  /** `currentUser` fails before any 404: with no principal, or with an email nobody has. */
  lemma CurrentUserFailsFirst(users: map<Id, User>, schedules: map<Id, Schedule>, auth: Option<Authentication>, id: Id, s: Schedule)
    requires UniqueEmails(users)
    requires Principal(auth).None? || !ExistsByEmail(users, Principal(auth).value)
    ensures var e := if Principal(auth).None? then NotAuthenticated else UserNotFound;
      && UpdateScheduleOutcome(users, schedules, auth, id, s) == Err(e)
      && DeleteScheduleOutcome(users, schedules, auth, id) == Err(e)
      && MySchedulesOutcome(users, schedules, auth) == Err(e)
  {
  }

  /** A payload that sets every field replaces the stored profile entirely. */
  lemma MergeFullPayload(existing: Barber, payload: Barber)
    requires payload.name.Some? && payload.specialties.Some? && payload.bio.Some?
    requires payload.experienceYears.Some? && payload.cutTypes.Some?
    ensures Merge(existing, payload) == payload
  {
  }

  /** Two successive updates are one update with the later payload's fields over the earlier's. */
  lemma MergeComposes(existing: Barber, first: Barber, second: Barber)
    ensures Merge(Merge(existing, first), second) == Merge(existing, Merge(first, second))
  {
  }

  /** A payload with only `active` set changes nothing but `active`; sending it twice is the same as once. */
  lemma MergeOnlyActive(existing: Barber, active: bool)
    ensures Merge(existing, Barber(None, None, None, None, None, active)) == existing.(active := active)
  {
  }

  lemma MergeIdempotent(existing: Barber, payload: Barber)
    ensures Merge(Merge(existing, payload), payload) == Merge(existing, payload)
  {
  }

  /** `GET /bookings` lists exactly the bookings whose barber field is the caller's current profile name. */
  lemma MyBookingsByName(users: map<Id, User>, barbers: map<Id, Barber>, bookings: map<Id, Booking>, auth: Option<Authentication>)
    requires UniqueEmails(users)
    requires MyBookingsOutcome(users, barbers, bookings, auth).Ok?
    ensures var bid := Caller(users, auth).value;
      var r := MyBookingsOutcome(users, barbers, bookings, auth).value;
      && bid in barbers
      && (forall id :: id in r <==> id in bookings && Some(bookings[id].barber) == barbers[bid].name)
      && (forall id :: id in r ==> r[id] == bookings[id])
  {
  }

  /** A created window always belongs to the caller, whatever barber id the payload named. */
  lemma CreatedWindowIsOwn(users: map<Id, User>, auth: Option<Authentication>, s: Schedule, newId: Id)
    requires UniqueEmails(users)
    requires CreateScheduleOutcome(users, auth, s, newId).Ok?
    ensures var (id, w) := CreateScheduleOutcome(users, auth, s, newId).value;
      && id == newId
      && w == Schedule(Some(Caller(users, auth).value), s.dayOfWeek, s.startTime, s.endTime)
  {
  }

  /**
   * `PUT /schedules/{id}` succeeds only on a stored window of the caller,
   * 404s on an unknown id and 403s on a foreign window; the saved window
   * keeps its barber and takes the day and both times from the payload.
   */
  lemma UpdateScheduleGuards(users: map<Id, User>, schedules: map<Id, Schedule>, auth: Option<Authentication>, id: Id, s: Schedule)
    requires UniqueEmails(users) && Caller(users, auth).Ok?
    ensures var bid := Caller(users, auth).value;
      var r := UpdateScheduleOutcome(users, schedules, auth, id, s);
      && (r == Err(NotFound) <==> id !in schedules)
      && (r == Err(Forbidden) <==> id in schedules && schedules[id].barberId != Some(bid))
      && (r.Ok? <==> id in schedules && schedules[id].barberId == Some(bid))
      && (r.Ok? ==> r.value == Schedule(Some(bid), s.dayOfWeek, s.startTime, s.endTime))
  {
  }

  /** `DELETE /schedules/{id}`: the same guards as an update, in the same order. */
  lemma DeleteScheduleGuards(users: map<Id, User>, schedules: map<Id, Schedule>, auth: Option<Authentication>, id: Id, s: Schedule)
    requires UniqueEmails(users) && Caller(users, auth).Ok?
    ensures var r := DeleteScheduleOutcome(users, schedules, auth, id);
      && (r == Err(NotFound) <==> id !in schedules)
      && (r.Ok? <==> UpdateScheduleOutcome(users, schedules, auth, id, s).Ok?)
      && (r == Err(Forbidden) <==> UpdateScheduleOutcome(users, schedules, auth, id, s) == Err(Forbidden))
  {
  }

  /** Writing a window of barber `bid` over a free id or over one of `bid`'s own windows leaves every other barber's windows as they were. */
  lemma OthersUntouchedByWrite(schedules: map<Id, Schedule>, bid: Id, id: Id, w: Schedule, other: Id)
    requires w.barberId == Some(bid) && other != bid
    requires id !in schedules || schedules[id].barberId == Some(bid)
    ensures SchedulesOf(schedules[id := w], other) == SchedulesOf(schedules, other)
  {
    var before := SchedulesOf(schedules, other);
    var after := SchedulesOf(schedules[id := w], other);
    assert after.Keys == before.Keys;
  }

  lemma OthersUntouchedByRemove(schedules: map<Id, Schedule>, bid: Id, id: Id, other: Id)
    requires other != bid
    requires id !in schedules || schedules[id].barberId == Some(bid)
    ensures SchedulesOf(schedules - {id}, other) == SchedulesOf(schedules, other)
  {
    var before := SchedulesOf(schedules, other);
    var after := SchedulesOf(schedules - {id}, other);
    assert after.Keys == before.Keys;
  }

  /**
   * No schedule endpoint changes another barber's windows: creating under a
   * new id, updating or deleting leaves `findByBarberId(other)` as it was.
   */
  lemma ScheduleWritesStayOwn(users: map<Id, User>, schedules: map<Id, Schedule>, auth: Option<Authentication>, id: Id, s: Schedule, newId: Id, other: Id)
    requires UniqueEmails(users) && Caller(users, auth).Ok? && other != Caller(users, auth).value
    requires newId !in schedules
    ensures var (cid, cw) := CreateScheduleOutcome(users, auth, s, newId).value;
      SchedulesOf(schedules[cid := cw], other) == SchedulesOf(schedules, other)
    ensures UpdateScheduleOutcome(users, schedules, auth, id, s).Ok? ==>
      SchedulesOf(schedules[id := UpdateScheduleOutcome(users, schedules, auth, id, s).value], other) == SchedulesOf(schedules, other)
    ensures DeleteScheduleOutcome(users, schedules, auth, id).Ok? ==>
      SchedulesOf(schedules - {id}, other) == SchedulesOf(schedules, other)
  {
    var bid := Caller(users, auth).value;
    OthersUntouchedByWrite(schedules, bid, newId, s.(barberId := Some(bid)), other);
    if UpdateScheduleOutcome(users, schedules, auth, id, s).Ok? {
      OthersUntouchedByWrite(schedules, bid, id, UpdateScheduleOutcome(users, schedules, auth, id, s).value, other);
    }
    if DeleteScheduleOutcome(users, schedules, auth, id).Ok? {
      OthersUntouchedByRemove(schedules, bid, id, other);
    }
  }

  /** A barber "b2" and the window "w1" of another barber "b1". */
  function TakeoverUsers(): map<Id, User> {
    map["u2" := User("b2@freshcut.local", "hash", BARBER, Some("b2"), None, None, 0, None, None)]
  }

  function TakeoverAuth(): Option<Authentication> {
    Some(Authentication(Some("b2@freshcut.local"), ["ROLE_BARBER"]))
  }

  function TakeoverSchedules(): map<Id, Schedule> {
    map["w1" := Schedule(Some("b1"), 0, 540, 1080)]
  }

  /**
   * As written, barber "b2" posting a window whose body carries the id
   * "w1" replaces barber "b1"'s Monday window and leaves "b1" without
   * windows, although the update and delete endpoints forbid touching it.
   */
  lemma CreateScheduleAsWrittenTakesOver(s: Schedule, newId: Id)
    ensures UniqueEmails(TakeoverUsers())
    ensures CreateScheduleAsWritten(TakeoverUsers(), TakeoverAuth(), Some("w1"), s, newId).Ok?
    ensures var (id, w) := CreateScheduleAsWritten(TakeoverUsers(), TakeoverAuth(), Some("w1"), s, newId).value;
      && id == "w1" && w.barberId == Some("b2")
      && UpdateScheduleOutcome(TakeoverUsers(), TakeoverSchedules(), TakeoverAuth(), "w1", s) == Err(Forbidden)
      && SchedulesOf(TakeoverSchedules(), "b1") != map[]
      && SchedulesOf(TakeoverSchedules()[id := w], "b1") == map[]
  {
    var users := TakeoverUsers();
    FindUserByEmailIs(users, "b2@freshcut.local", "u2");
    assert !IsBlank("b2") by { assert !IsWhitespace("b2"[0]); }
    assert "w1" in SchedulesOf(TakeoverSchedules(), "b1");
    var after := TakeoverSchedules()["w1" := s.(barberId := Some("b2"))];
    assert SchedulesOf(after, "b1").Keys == {};
  }

  // ---------------------------------------------------------------------------
  // The endpoints that write
  // ---------------------------------------------------------------------------

  /** `PUT /me` */
  method UpdateMe(store: Store, auth: Option<Authentication>, payload: Barber) returns (r: Result<Barber, Refusal>)
    requires store.Valid()
    modifies store`barbers
    ensures store.Valid()
    ensures var outcome := UpdateMeOutcome(old(store.users), old(store.barbers), auth, payload);
      && (outcome.Err? ==> r == Err(outcome.error) && store.barbers == old(store.barbers))
      && (outcome.Ok? ==> r == Ok(outcome.value.1) && store.barbers == old(store.barbers)[outcome.value.0 := outcome.value.1])
  {
    var outcome := UpdateMeOutcome(store.users, store.barbers, auth, payload);
    if outcome.Err? {
      return Err(outcome.error);
    }
    var (bid, saved) := outcome.value;
    store.barbers := store.barbers[bid := saved];
    r := Ok(saved);
  }

  /** `POST /schedules`; a new window gets a fresh id. */
  method CreateSchedule(store: Store, auth: Option<Authentication>, s: Schedule) returns (r: Result<(Id, Schedule), Refusal>)
    requires store.Valid()
    modifies store`schedules, store`nextSeq
    ensures store.Valid()
    ensures r.Err? ==> r == CreateScheduleOutcome(old(store.users), auth, s, IdFor(old(store.nextSeq)))
    ensures r.Err? ==> store.schedules == old(store.schedules) && store.nextSeq == old(store.nextSeq)
    ensures r.Ok? ==> r == CreateScheduleOutcome(old(store.users), auth, s, r.value.0)
    ensures r.Ok? ==> r.value.0 !in old(store.schedules) && store.schedules == old(store.schedules)[r.value.0 := r.value.1]
  {
    var caller := Caller(store.users, auth);
    if caller.Err? {
      return Err(caller.error);
    }
    var id := store.NewId();
    var saved := s.(barberId := Some(caller.value));
    store.schedules := store.schedules[id := saved];
    r := Ok((id, saved));
  }

  /** `PUT /schedules/{id}` */
  method UpdateSchedule(store: Store, auth: Option<Authentication>, id: Id, s: Schedule) returns (r: Result<Schedule, Refusal>)
    requires store.Valid()
    modifies store`schedules
    ensures store.Valid()
    ensures r == UpdateScheduleOutcome(old(store.users), old(store.schedules), auth, id, s)
    ensures r.Err? ==> store.schedules == old(store.schedules)
    ensures r.Ok? ==> store.schedules == old(store.schedules)[id := r.value]
  {
    r := UpdateScheduleOutcome(store.users, store.schedules, auth, id, s);
    if r.Ok? {
      store.schedules := store.schedules[id := r.value];
    }
  }

  /** `DELETE /schedules/{id}` */
  method DeleteSchedule(store: Store, auth: Option<Authentication>, id: Id) returns (r: Result<(), Refusal>)
    requires store.Valid()
    modifies store`schedules
    ensures store.Valid()
    ensures r == DeleteScheduleOutcome(old(store.users), old(store.schedules), auth, id)
    ensures r.Err? ==> store.schedules == old(store.schedules)
    ensures r.Ok? ==> store.schedules == old(store.schedules) - {id}
  {
    r := DeleteScheduleOutcome(store.users, store.schedules, auth, id);
    if r.Ok? {
      store.schedules := store.schedules - {id};
    }
  }
}
