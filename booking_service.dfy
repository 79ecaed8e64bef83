/**
 * `BookingService`: the booking engine. Each operation's outcome is a
 * function of the collections it reads (`CreateOutcome`, `UpdateOutcome`,
 * `SetStatus`, `DeleteOutcome`); the methods perform the checks in the
 * source's order against the store and save the result.
 */
module BookingService {
  import opened Entities
  import opened Store
  import opened BookingRepository

  /** `BookingRequest`; `endTime` is carried but never read by the engine. */
  datatype BookingRequest = BookingRequest(
    clientName: string,
    barber: string,
    service: string,
    startTime: Option<Timestamp>,
    endTime: Option<Timestamp>)

  datatype BookingError =
    | MissingStart    // "La hora de inicio es obligatoria"
    | InvalidService  // "Servicio inválido o inactivo"
    | Conflict        // "Conflicto: el barbero ya tiene una reserva en ese horario"
    | InvalidBarber   // "Barbero inválido o inactivo"
    | OutOfSchedule   // "El horario solicitado no encaja en la disponibilidad del barbero"
    | NotFound        // "Reserva no encontrada"
    | DuplicateMatch  // a single-result finder matched several documents
    | UnguardedStart  // `update` dereferences a missing start time: a NullPointerException

  /** The collections the engine reads. */
  datatype Db = Db(
    services: map<Id, ServiceItem>,
    barbers: map<Id, Barber>,
    schedules: map<Id, Schedule>,
    bookings: map<Id, Booking>)

  function Snapshot(store: Store): Db
    reads store
  {
    Db(store.services, store.barbers, store.schedules, store.bookings)
  }

  /** The slot's clock times lie inside the window, both bounds inclusive. */
  predicate WindowHolds(w: Schedule, start: Timestamp, end: Timestamp) {
    w.startTime <= TimeOf(start) && TimeOf(end) <= w.endTime
  }

  /** Some window of the barber on the start's weekday holds the slot. */
  predicate Fits(schedules: map<Id, Schedule>, barberId: Id, start: Timestamp, end: Timestamp) {
    exists sid :: sid in SchedulesOn(schedules, barberId, DayOf(start)) && WindowHolds(schedules[sid], start, end)
  }

  /** Some booking other than `self` overlaps the slot. */
  predicate HasConflict(bookings: map<Id, Booking>, barber: string, start: Timestamp, end: Timestamp, self: Option<Id>) {
    exists id :: id in FindOverlapping(bookings, barber, end, start) && Some(id) != self
  }

  /**
   * The checks create and update share, in the source's order: service,
   * overlap (ignoring `self`), barber, schedule. On success, the service
   * that fixes the duration and the price.
   */
  function Checked(db: Db, req: BookingRequest, start: Timestamp, self: Option<Id>): Result<ServiceItem, BookingError> {
    match FindActiveService(db.services, req.service)
    case NoMatch => Err(InvalidService)
    case Several => Err(DuplicateMatch)
    case Unique(sid) =>
      var service := db.services[sid];
      var end := start + service.durationMinutes;
      if HasConflict(db.bookings, req.barber, start, end, self) then Err(Conflict)
      else
        match FindActiveBarber(db.barbers, req.barber)
        case NoMatch => Err(InvalidBarber)
        case Several => Err(DuplicateMatch)
        case Unique(bid) =>
          if Fits(db.schedules, bid, start, end) then Ok(service) else Err(OutOfSchedule)
  }

  /** The outcome of `create(req)`: the new booking, or the first failing check. */
  function CreateOutcome(db: Db, req: BookingRequest): Result<Booking, BookingError> {
    if req.startTime.None? then Err(MissingStart)
    else
      var start := req.startTime.value;
      match Checked(db, req, start, None)
      case Err(e) => Err(e)
      case Ok(service) =>
        Ok(Booking(req.clientName, req.barber, req.service, start, start + service.durationMinutes,
                   service.priceCents, Confirmed))
  }

  /**
   * The outcome of `update(id, req)`: the stored booking with its request
   * fields, times and price replaced, or the first failing check.
   */
  function UpdateOutcome(db: Db, id: Id, req: BookingRequest): Result<Booking, BookingError> {
    if id !in db.bookings then Err(NotFound)
    else if FindActiveService(db.services, req.service).NoMatch? then Err(InvalidService)
    else if FindActiveService(db.services, req.service).Several? then Err(DuplicateMatch)
    else if req.startTime.None? then Err(UnguardedStart)
    else
      var start := req.startTime.value;
      match Checked(db, req, start, Some(id))
      case Err(e) => Err(e)
      case Ok(service) =>
        Ok(db.bookings[id].(clientName := req.clientName, barber := req.barber, service := req.service,
                            startTime := start, endTime := start + service.durationMinutes,
                            priceCents := service.priceCents))
  }

  /** `cancel(id)` and `complete(id)`: overwrite the status, whatever it was. */
  function SetStatus(bookings: map<Id, Booking>, id: Id, s: Status): Result<map<Id, Booking>, BookingError> {
    if id !in bookings then Err(NotFound) else Ok(bookings[id := bookings[id].(status := s)])
  }

  /** `delete(id)` */
  function DeleteOutcome(bookings: map<Id, Booking>, id: Id): Result<map<Id, Booking>, BookingError> {
    if id !in bookings then Err(NotFound) else Ok(bookings - {id})
  }

  // ---------------------------------------------------------------------------
  // Properties of the outcomes
  // ---------------------------------------------------------------------------

  /** A missing start time is rejected before any collection is consulted. */
  lemma CreateRejectsMissingStartFirst(db: Db, req: BookingRequest)
    requires req.startTime.None?
    ensures CreateOutcome(db, req) == Err(MissingStart)
  {
  }

  /** The end time the caller sends plays no part in the outcome. */
  lemma CreateIgnoresRequestEnd(db: Db, req: BookingRequest, end: Option<Timestamp>)
    ensures CreateOutcome(db, req) == CreateOutcome(db, req.(endTime := end))
  {
  }

  /**
   * `create` succeeds exactly when the start is present, one active service
   * has the name, nothing overlaps, one active barber has the name and one
   * of the barber's windows holds the slot; the new booking is then
   * CONFIRMED, ends the service's duration after its start, carries the
   * service's price and copies client, barber and service from the request.
   */
  lemma CreateOkIff(db: Db, req: BookingRequest)
    ensures CreateOutcome(db, req).Ok? <==>
      && req.startTime.Some?
      && FindActiveService(db.services, req.service).Unique?
      && var service := db.services[FindActiveService(db.services, req.service).id];
         var start := req.startTime.value;
         var end := start + service.durationMinutes;
         && FindOverlapping(db.bookings, req.barber, end, start) == map[]
         && FindActiveBarber(db.barbers, req.barber).Unique?
         && Fits(db.schedules, FindActiveBarber(db.barbers, req.barber).id, start, end)
    ensures CreateOutcome(db, req).Ok? ==>
      var b := CreateOutcome(db, req).value;
      var service := db.services[FindActiveService(db.services, req.service).id];
      && service.active && service.name == req.service
      && b.status == Confirmed
      && b.startTime == req.startTime.value
      && b.endTime == b.startTime + service.durationMinutes
      && b.priceCents == service.priceCents
      && b.clientName == req.clientName && b.barber == req.barber && b.service == req.service
  {
    if req.startTime.Some? && FindActiveService(db.services, req.service).Unique? {
      var service := db.services[FindActiveService(db.services, req.service).id];
      var start := req.startTime.value;
      var end := start + service.durationMinutes;
      var conflicts := FindOverlapping(db.bookings, req.barber, end, start);
      assert HasConflict(db.bookings, req.barber, start, end, None) <==> conflicts != map[] by {
        if conflicts != map[] {
          var id :| id in conflicts;
          assert id in conflicts && Some(id) != None;
        }
      }
    }
  }

  /**
   * The overlap check runs before the barber is resolved: a request that
   * both overlaps and names no active barber fails with the conflict.
   */
  lemma ConflictBeforeBarber(db: Db, req: BookingRequest, other: Id)
    requires req.startTime.Some?
    requires FindActiveService(db.services, req.service).Unique?
    requires var start := req.startTime.value;
             var end := start + db.services[FindActiveService(db.services, req.service).id].durationMinutes;
             other in db.bookings && OverlapsWindow(db.bookings[other], req.barber, end, start)
    ensures CreateOutcome(db, req) == Err(Conflict)
  {
    var start := req.startTime.value;
    var end := start + db.services[FindActiveService(db.services, req.service).id].durationMinutes;
    assert other in FindOverlapping(db.bookings, req.barber, end, start);
  }

  /** No two distinct bookings of one barber share a minute. */
  ghost predicate NoDoubleBooking(bookings: map<Id, Booking>) {
    forall a, b :: a in bookings && b in bookings && a != b ==> !Clash(bookings[a], bookings[b])
  }

  /** A booking `create` accepts clashes with no stored booking, so it keeps the schedule free of double bookings. */
  lemma CreateKeepsNoDoubleBooking(db: Db, req: BookingRequest, id: Id)
    requires NoDoubleBooking(db.bookings) && id !in db.bookings
    requires CreateOutcome(db, req).Ok?
    ensures NoDoubleBooking(db.bookings[id := CreateOutcome(db, req).value])
  {
    var nb := CreateOutcome(db, req).value;
    var start := req.startTime.value;
    var end := nb.endTime;
    forall other | other in db.bookings ensures !Clash(db.bookings[other], nb) && !Clash(nb, db.bookings[other]) {
      assert !(other in FindOverlapping(db.bookings, req.barber, end, start) && Some(other) != None);
    }
  }

  /** An update is checked against every other booking, so it keeps the schedule free of double bookings. */
  lemma UpdateKeepsNoDoubleBooking(db: Db, id: Id, req: BookingRequest)
    requires NoDoubleBooking(db.bookings)
    requires UpdateOutcome(db, id, req).Ok?
    ensures NoDoubleBooking(db.bookings[id := UpdateOutcome(db, id, req).value])
  {
    var nb := UpdateOutcome(db, id, req).value;
    var start := req.startTime.value;
    var end := nb.endTime;
    var after := db.bookings[id := nb];
    forall other | other in db.bookings && other != id ensures !Clash(db.bookings[other], nb) && !Clash(nb, db.bookings[other]) {
      if Clash(db.bookings[other], nb) {
        assert other in FindOverlapping(db.bookings, req.barber, end, start);
        assert HasConflict(db.bookings, req.barber, start, end, Some(id));
      }
    }
    forall a, b | a in after && b in after && a != b ensures !Clash(after[a], after[b]) {
      if a != id && b != id {
        assert after[a] == db.bookings[a] && after[b] == db.bookings[b];
      }
    }
  }

  /**
   * An update that keeps the barber and the slot of a booking is never
   * refused as a conflict with itself, while the stored bookings are free of
   * double bookings.
   */
  lemma UpdateIgnoresOwnSlot(db: Db, id: Id, req: BookingRequest)
    requires req.startTime.Some? && id in db.bookings && NoDoubleBooking(db.bookings)
    requires FindActiveService(db.services, req.service).Unique?
    requires req.barber == db.bookings[id].barber && req.startTime.value == db.bookings[id].startTime
    requires db.bookings[id].startTime + db.services[FindActiveService(db.services, req.service).id].durationMinutes == db.bookings[id].endTime
    ensures UpdateOutcome(db, id, req) != Err(Conflict)
  {
    var b := db.bookings[id];
    if HasConflict(db.bookings, req.barber, b.startTime, b.endTime, Some(id)) {
      var other :| other in FindOverlapping(db.bookings, req.barber, b.endTime, b.startTime) && Some(other) != Some(id);
      assert Clash(db.bookings[other], b);
      assert false;
    }
  }

  /**
   * `update` reads the start time only after finding the booking and the
   * service, and then without a guard: a request without one fails there,
   * never succeeds, and earlier failures take precedence.
   */
  lemma UpdateMissingStart(db: Db, id: Id, req: BookingRequest)
    requires req.startTime.None?
    ensures UpdateOutcome(db, id, req).Err?
    ensures UpdateOutcome(db, id, req) == Err(UnguardedStart) <==>
      id in db.bookings && FindActiveService(db.services, req.service).Unique?
  {
  }

  /** A successful update keeps the booking's status and replaces everything else the request and the service determine. */
  lemma UpdateKeepsIdAndStatus(db: Db, id: Id, req: BookingRequest)
    requires UpdateOutcome(db, id, req).Ok?
    ensures id in db.bookings
    ensures var b := UpdateOutcome(db, id, req).value;
      var service := db.services[FindActiveService(db.services, req.service).id];
      && FindActiveService(db.services, req.service).Unique?
      && b.status == db.bookings[id].status
      && b.clientName == req.clientName && b.barber == req.barber && b.service == req.service
      && b.startTime == req.startTime.value && b.endTime == b.startTime + service.durationMinutes
      && b.priceCents == service.priceCents
  {
  }

  /** Cancelling or completing twice is the same as doing it once. */
  lemma SetStatusIdempotent(bookings: map<Id, Booking>, id: Id, s: Status)
    requires SetStatus(bookings, id, s).Ok?
    ensures SetStatus(SetStatus(bookings, id, s).value, id, s) == SetStatus(bookings, id, s)
  {
    var once := SetStatus(bookings, id, s).value;
    assert once[id := once[id].(status := s)] == once;
  }

  /**
   * Any status can be forced into either terminal status: cancelling and
   * then completing equals completing, and only the status of that booking
   * changes.
   */
  lemma SetStatusLastWins(bookings: map<Id, Booking>, id: Id, s: Status, t: Status)
    requires id in bookings
    ensures SetStatus(SetStatus(bookings, id, s).value, id, t) == SetStatus(bookings, id, t)
    ensures var after := SetStatus(bookings, id, t).value;
      && after.Keys == bookings.Keys
      && after[id] == bookings[id].(status := t)
      && forall other :: other in bookings && other != id ==> after[other] == bookings[other]
  {
    var first := SetStatus(bookings, id, s).value;
    assert first[id := first[id].(status := t)] == bookings[id := bookings[id].(status := t)];
  }

  /** Changing a status keeps the schedule free of double bookings: the intervals do not move. */
  lemma SetStatusKeepsNoDoubleBooking(bookings: map<Id, Booking>, id: Id, s: Status)
    requires NoDoubleBooking(bookings) && id in bookings
    ensures NoDoubleBooking(SetStatus(bookings, id, s).value)
  {
    var after := SetStatus(bookings, id, s).value;
    forall a, b | a in after && b in after && a != b ensures !Clash(after[a], after[b]) {
      assert !Clash(bookings[a], bookings[b]);
    }
  }

  /** `delete` removes exactly the named booking, or fails when there is none. */
  lemma DeleteRemovesExactly(bookings: map<Id, Booking>, id: Id)
    ensures DeleteOutcome(bookings, id).Err? <==> id !in bookings
    ensures DeleteOutcome(bookings, id).Ok? ==>
      var after := DeleteOutcome(bookings, id).value;
      && after.Keys == bookings.Keys - {id}
      && forall other :: other in after ==> after[other] == bookings[other]
  {
  }

  /**
   * The clock time of the end wraps at midnight, so a slot running past
   * midnight is checked against its next-day clock time: a 45-minute
   * booking at 23:30 fits a Monday 20:00-23:59 window.
   */
  lemma SlotAcrossMidnightFits(barberId: Id)
    ensures WindowHolds(Schedule(Some(barberId), 0, 1200, 1439), At(0, 0, 1410), At(0, 0, 1410) + 45)
    ensures DayOf(At(0, 0, 1410) + 45) != DayOf(At(0, 0, 1410))
  {
    AtReadsBack(0, 0, 1410);
    AtReadsBack(0, 1, 15);
    assert At(0, 0, 1410) + 45 == At(0, 1, 15);
  }

  /** One active service, one active barber and a Monday 09:00-18:00 window, as the development seed data creates them. */
  function SeedDb(): Db {
    Db(map["s1" := ServiceItem("Fade medio", 45, 2000, true)],
       map["b1" := Barber(Some("Barbero Demo"), None, None, None, None, true)],
       map["w1" := Schedule(Some("b1"), 0, 540, 1080)],
       map[])
  }

  function FadeAt(t: Timestamp): BookingRequest {
    BookingRequest("Luis", "Barbero Demo", "Fade medio", Some(t), None)
  }

  lemma SeedLookups(db: Db)
    requires db.services == SeedDb().services && db.barbers == SeedDb().barbers
    ensures FindActiveService(db.services, "Fade medio") == Unique("s1")
    ensures FindActiveBarber(db.barbers, "Barbero Demo") == Unique("b1")
  {
    var sids := set id | id in db.services && db.services[id].active && db.services[id].name == "Fade medio";
    assert sids == {"s1"};
    var bids := set id | id in db.barbers && db.barbers[id].active && db.barbers[id].name == Some("Barbero Demo");
    assert bids == {"b1"};
  }

  /**
   * On the seed data: a 45-minute booking at Monday 09:00 is accepted and
   * ends at 09:45 at the service's price; once it is stored, the same
   * request at 09:20 is a conflict; a booking at 17:30 would end at 18:15
   * and is outside the window; on Tuesday there is no window at all.
   */
  lemma SeedScenario()
    ensures CreateOutcome(SeedDb(), FadeAt(At(0, 0, 540)))
         == Ok(Booking("Luis", "Barbero Demo", "Fade medio", At(0, 0, 540), At(0, 0, 585), 2000, Confirmed))
    ensures CreateOutcome(SeedDb().(bookings := map["k1" := CreateOutcome(SeedDb(), FadeAt(At(0, 0, 540))).value]),
                          FadeAt(At(0, 0, 560))) == Err(Conflict)
    ensures CreateOutcome(SeedDb(), FadeAt(At(0, 0, 1050))) == Err(OutOfSchedule)
    ensures CreateOutcome(SeedDb(), FadeAt(At(0, 1, 600))) == Err(OutOfSchedule)
  {
    var db := SeedDb();
    SeedLookups(db);
    AtReadsBack(0, 0, 540);
    AtReadsBack(0, 0, 585);
    assert At(0, 0, 540) + 45 == At(0, 0, 585);
    assert SchedulesOn(db.schedules, "b1", 0) == db.schedules;
    assert WindowHolds(db.schedules["w1"], At(0, 0, 540), At(0, 0, 585));
    assert !HasConflict(db.bookings, "Barbero Demo", At(0, 0, 540), At(0, 0, 585), None);

    var first := Booking("Luis", "Barbero Demo", "Fade medio", At(0, 0, 540), At(0, 0, 585), 2000, Confirmed);
    var db2 := db.(bookings := map["k1" := first]);
    SeedLookups(db2);
    assert "k1" in FindOverlapping(db2.bookings, "Barbero Demo", At(0, 0, 560) + 45, At(0, 0, 560));

    AtReadsBack(0, 0, 1050);
    AtReadsBack(0, 0, 1095);
    assert At(0, 0, 1050) + 45 == At(0, 0, 1095);
    assert !WindowHolds(db.schedules["w1"], At(0, 0, 1050), At(0, 0, 1095));
    assert !HasConflict(db.bookings, "Barbero Demo", At(0, 0, 1050), At(0, 0, 1095), None);

    AtReadsBack(0, 1, 600);
    assert SchedulesOn(db.schedules, "b1", 1) == map[];
    assert !HasConflict(db.bookings, "Barbero Demo", At(0, 1, 600), At(0, 1, 600) + 45, None);
  }

  // ---------------------------------------------------------------------------
  // The service operations
  // ---------------------------------------------------------------------------

  datatype Saved = Saved(id: Id, booking: Booking)

  /** `create(req)` */
  method Create(store: Store, req: BookingRequest) returns (r: Result<Saved, BookingError>)
    requires store.Valid()
    modifies store`bookings, store`nextSeq
    ensures store.Valid()
    ensures var outcome := CreateOutcome(old(Snapshot(store)), req);
      && (r.Err? <==> outcome.Err?)
      && (r.Err? ==> r.error == outcome.error && store.bookings == old(store.bookings))
      && (r.Ok? ==> r.value.booking == outcome.value && r.value.id !in old(store.bookings)
                    && store.bookings == old(store.bookings)[r.value.id := r.value.booking])
  {
    if req.startTime.None? {
      return Err(MissingStart);
    }
    var serviceLookup := FindActiveService(store.services, req.service);
    if serviceLookup.NoMatch? {
      return Err(InvalidService);
    } else if serviceLookup.Several? {
      return Err(DuplicateMatch);
    }
    var service := store.services[serviceLookup.id];
    var startDateTime := req.startTime.value;
    var computedEnd := startDateTime + service.durationMinutes;

    var conflicts := FindOverlapping(store.bookings, req.barber, computedEnd, startDateTime);
    if conflicts != map[] {
      var other :| other in conflicts;
      assert HasConflict(store.bookings, req.barber, startDateTime, computedEnd, None) by {
        assert other in conflicts && Some(other) != None;
      }
      return Err(Conflict);
    }

    var barberLookup := FindActiveBarber(store.barbers, req.barber);
    if barberLookup.NoMatch? {
      return Err(InvalidBarber);
    } else if barberLookup.Several? {
      return Err(DuplicateMatch);
    }
    var fits := Fits(store.schedules, barberLookup.id, startDateTime, computedEnd);
    if !fits {
      return Err(OutOfSchedule);
    }

    var b := Booking(req.clientName, req.barber, req.service, startDateTime, computedEnd, service.priceCents, Confirmed);
    var id := store.NewId();
    store.bookings := store.bookings[id := b];
    r := Ok(Saved(id, b));
  }

  /** `update(id, req)`; the source dereferences the start time without a guard. */
  method Update(store: Store, id: Id, req: BookingRequest) returns (r: Result<Booking, BookingError>)
    requires store.Valid()
    modifies store`bookings
    ensures store.Valid()
    ensures r == UpdateOutcome(old(Snapshot(store)), id, req)
    ensures r.Err? ==> store.bookings == old(store.bookings)
    ensures r.Ok? ==> store.bookings == old(store.bookings)[id := r.value]
  {
    if id !in store.bookings {
      return Err(NotFound);
    }
    var existing := store.bookings[id];
    var serviceLookup := FindActiveService(store.services, req.service);
    if serviceLookup.NoMatch? {
      return Err(InvalidService);
    } else if serviceLookup.Several? {
      return Err(DuplicateMatch);
    }
    var service := store.services[serviceLookup.id];
    if req.startTime.None? {
      return Err(UnguardedStart);
    }
    var startDateTime := req.startTime.value;
    var computedEnd := startDateTime + service.durationMinutes;

    var hasConflict := HasConflict(store.bookings, req.barber, startDateTime, computedEnd, Some(id));
    if hasConflict {
      return Err(Conflict);
    }

    var barberLookup := FindActiveBarber(store.barbers, req.barber);
    if barberLookup.NoMatch? {
      return Err(InvalidBarber);
    } else if barberLookup.Several? {
      return Err(DuplicateMatch);
    }
    var fits := Fits(store.schedules, barberLookup.id, startDateTime, computedEnd);
    if !fits {
      return Err(OutOfSchedule);
    }

    existing := existing.(clientName := req.clientName, barber := req.barber, service := req.service,
                          startTime := startDateTime, endTime := computedEnd, priceCents := service.priceCents);
    store.bookings := store.bookings[id := existing];
    r := Ok(existing);
  }

  /** `cancel(id)` */
  method Cancel(store: Store, id: Id) returns (r: Result<Booking, BookingError>)
    requires store.Valid()
    modifies store`bookings
    ensures store.Valid()
    ensures r.Err? <==> id !in old(store.bookings)
    ensures r.Err? ==> r.error == NotFound && store.bookings == old(store.bookings)
    ensures r.Ok? ==> store.bookings == SetStatus(old(store.bookings), id, Cancelled).value && r.value == store.bookings[id]
  {
    if id !in store.bookings {
      return Err(NotFound);
    }
    var existing := store.bookings[id].(status := Cancelled);
    store.bookings := store.bookings[id := existing];
    r := Ok(existing);
  }

  /** `complete(id)` */
  method Complete(store: Store, id: Id) returns (r: Result<Booking, BookingError>)
    requires store.Valid()
    modifies store`bookings
    ensures store.Valid()
    ensures r.Err? <==> id !in old(store.bookings)
    ensures r.Err? ==> r.error == NotFound && store.bookings == old(store.bookings)
    ensures r.Ok? ==> store.bookings == SetStatus(old(store.bookings), id, Completed).value && r.value == store.bookings[id]
  {
    if id !in store.bookings {
      return Err(NotFound);
    }
    var existing := store.bookings[id].(status := Completed);
    store.bookings := store.bookings[id := existing];
    r := Ok(existing);
  }

  /** `delete(id)` */
  method Delete(store: Store, id: Id) returns (r: Result<(), BookingError>)
    requires store.Valid()
    modifies store`bookings
    ensures store.Valid()
    ensures r.Err? <==> id !in old(store.bookings)
    ensures r.Err? ==> r.error == NotFound && store.bookings == old(store.bookings)
    ensures r.Ok? ==> store.bookings == DeleteOutcome(old(store.bookings), id).value
  {
    if id !in store.bookings {
      return Err(NotFound);
    }
    store.bookings := store.bookings - {id};
    r := Ok(());
  }

  /** `listByClientName(clientName)`: the bookings whose client is exactly `clientName`. */
  method ListByClientName(store: Store, clientName: string) returns (r: map<Id, Booking>)
    ensures forall id :: id in r <==> id in store.bookings && store.bookings[id].clientName == clientName
    ensures forall id :: id in r ==> r[id] == store.bookings[id]
  {
    r := FindByClientName(store.bookings, clientName);
  }
}
