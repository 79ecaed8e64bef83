/**
 * The document store behind the repositories: one map per collection,
 * keyed by document id, and the derived finders of the repository
 * interfaces other than `BookingRepository`.
 */
module Store {
  import opened Text
  import opened Entities

  /** The id the store hands out for its n-th new document. */
  function IdFor(n: nat): Id {
    Decimal(n)
  }

  /** The unique index on `User.email`. */
  ghost predicate UniqueEmails(users: map<Id, User>) {
    forall a, b :: a in users && b in users && users[a].email == users[b].email ==> a == b
  }

  /** Result of a derived query declared to return at most one document. */
  datatype Lookup = NoMatch | Unique(id: Id) | Several

  /**
   * A single-result query over the matching ids: more than one match makes
   * the query fail rather than pick one.
   */
  function Single(ids: set<Id>): (r: Lookup)
    ensures r.NoMatch? <==> ids == {}
    ensures r.Unique? ==> ids == {r.id}
  {
    if |ids| == 0 then NoMatch
    else if |ids| > 1 then Several
    else
      SingletonMembers(ids);
      var id :| id in ids;
      Unique(id)
  }

  lemma SingletonMembers(ids: set<Id>)
    requires |ids| == 1
    ensures forall a, b :: a in ids && b in ids ==> a == b
    ensures forall a :: a in ids ==> ids == {a}
  {
    forall a | a in ids ensures ids == {a} {
      assert |ids - {a}| == 0;
    }
  }

  /** `ServiceItemRepository.findByNameAndActiveTrue(name)` */
  function FindActiveService(services: map<Id, ServiceItem>, name: string): (r: Lookup)
    ensures r.NoMatch? <==> forall id :: id in services ==> !(services[id].active && services[id].name == name)
    ensures r.Unique? ==> r.id in services && services[r.id].active && services[r.id].name == name
  {
    var ids := set id | id in services && services[id].active && services[id].name == name;
    var r := Single(ids);
    assert r.Unique? ==> r.id in ids;
    assert ids == {} <==> forall id :: id in services ==> !(services[id].active && services[id].name == name) by {
      if ids != {} { var x :| x in ids; }
      else { forall id | id in services ensures !(services[id].active && services[id].name == name) { assert id !in ids; } }
    }
    r
  }

  /** `BarberRepository.findByNameAndActiveTrue(name)` */
  function FindActiveBarber(barbers: map<Id, Barber>, name: string): (r: Lookup)
    ensures r.NoMatch? <==> forall id :: id in barbers ==> !(barbers[id].active && barbers[id].name == Some(name))
    ensures r.Unique? ==> r.id in barbers && barbers[r.id].active && barbers[r.id].name == Some(name)
  {
    var ids := set id | id in barbers && barbers[id].active && barbers[id].name == Some(name);
    var r := Single(ids);
    assert r.Unique? ==> r.id in ids;
    assert ids == {} <==> forall id :: id in barbers ==> !(barbers[id].active && barbers[id].name == Some(name)) by {
      if ids != {} { var x :| x in ids; }
      else { forall id | id in barbers ensures !(barbers[id].active && barbers[id].name == Some(name)) { assert id !in ids; } }
    }
    r
  }

  /** `ScheduleRepository.findByBarberIdAndDayOfWeek(barberId, day)` */
  function SchedulesOn(schedules: map<Id, Schedule>, barberId: Id, day: Weekday): (r: map<Id, Schedule>)
    ensures forall id :: id in r <==> id in schedules && schedules[id].barberId == Some(barberId) && schedules[id].dayOfWeek == day
    ensures forall id :: id in r ==> r[id] == schedules[id]
  {
    map id | id in schedules && schedules[id].barberId == Some(barberId) && schedules[id].dayOfWeek == day :: schedules[id]
  }

  /** `ScheduleRepository.findByBarberId(barberId)` */
  function SchedulesOf(schedules: map<Id, Schedule>, barberId: Id): (r: map<Id, Schedule>)
    ensures forall id :: id in r <==> id in schedules && schedules[id].barberId == Some(barberId)
    ensures forall id :: id in r ==> r[id] == schedules[id]
  {
    map id | id in schedules && schedules[id].barberId == Some(barberId) :: schedules[id]
  }

  /** `UserRepository.existsByEmail(email)` */
  predicate ExistsByEmail(users: map<Id, User>, email: string) {
    exists id :: id in users && users[id].email == email
  }

  /** `UserRepository.findByEmail(email)`, which the unique index makes unambiguous. */
  function FindUserByEmail(users: map<Id, User>, email: string): (r: Option<Id>)
    requires UniqueEmails(users)
    ensures r.Some? ==> r.value in users && users[r.value].email == email
    ensures r.None? <==> !ExistsByEmail(users, email)
  {
    if exists id :: id in users && users[id].email == email then
      var id :| id in users && users[id].email == email;
      Some(id)
    else
      None
  }

  /** Under the unique index, the user holding an email is the one `findByEmail` returns. */
  lemma FindUserByEmailIs(users: map<Id, User>, email: string, id: Id)
    requires UniqueEmails(users) && id in users && users[id].email == email
    ensures FindUserByEmail(users, email) == Some(id)
  {
    assert ExistsByEmail(users, email);
  }

  class Store {
    var users: map<Id, User>
    var barbers: map<Id, Barber>
    var services: map<Id, ServiceItem>
    var schedules: map<Id, Schedule>
    var bookings: map<Id, Booking>
    /** How many ids the store has handed out. */
    var nextSeq: nat

    ghost predicate Unused(id: Id)
      reads this
    {
      id !in users && id !in barbers && id !in services && id !in schedules && id !in bookings
    }

    ghost predicate Valid()
      reads this
    {
      && (forall n: nat :: n >= nextSeq ==> Unused(IdFor(n)))
      && UniqueEmails(users)
    }

    constructor ()
      ensures Valid()
      ensures users == map[] && barbers == map[] && services == map[]
      ensures schedules == map[] && bookings == map[]
    {
      users, barbers, services, schedules, bookings := map[], map[], map[], map[], map[];
      nextSeq := 0;
    }

    /** The id a `save` of a new document receives: never used before, and never handed out again. */
    method NewId() returns (id: Id)
      requires Valid()
      modifies this`nextSeq
      ensures Valid() && Unused(id)
      ensures forall n: nat :: n >= nextSeq ==> IdFor(n) != id
    {
      id := IdFor(nextSeq);
      forall n: nat | n >= nextSeq + 1 ensures IdFor(n) != id {
        if IdFor(n) == id { DecimalInjective(n, old(nextSeq)); }
      }
      nextSeq := nextSeq + 1;
    }
  }
}
