/**
 * The documents of the store (the `db/model` classes) as values, the
 * wrappers used for absent values and failures, and the `java.time`
 * arithmetic the booking engine needs.
 */
module Entities {

  datatype Option<+T> = None | Some(value: T) {
    function GetOr(default: T): T {
      match this
      case Some(v) => v
      case None => default
    }
  }

  datatype Result<+T, +E> = Ok(value: T) | Err(error: E)

  /** Document ids are strings, as the store issues them. */
  type Id = string

  const MinutesPerDay: int := 1440

  /**
   * A `LocalDateTime` at minute resolution: the number of minutes since
   * some Monday 00:00 (negative before it).
   */
  type Timestamp = int

  /** `DayOfWeek`: 0 is MONDAY, ..., 6 is SUNDAY. */
  type Weekday = d: int | 0 <= d < 7

  /** `LocalTime` at minute resolution: minutes since midnight. */
  type TimeOfDay = m: int | 0 <= m < 1440

  /** `t.getDayOfWeek()` */
  function DayOf(t: Timestamp): Weekday {
    (t / MinutesPerDay) % 7
  }

  /** `t.toLocalTime()`: the clock reading, which wraps at midnight. */
  function TimeOf(t: Timestamp): TimeOfDay {
    t % MinutesPerDay
  }

  /** The moment `day` (0 = Monday) of week `week` at `minute` past midnight. */
  function At(week: int, day: Weekday, minute: TimeOfDay): Timestamp {
    (week * 7 + day) * MinutesPerDay + minute
  }

  lemma AtReadsBack(week: int, day: Weekday, minute: TimeOfDay)
    ensures DayOf(At(week, day, minute)) == day
    ensures TimeOf(At(week, day, minute)) == minute
  {
    var t := At(week, day, minute);
    assert t / MinutesPerDay == week * 7 + day;
  }

  /** Booking status; the source stores it as a string. */
  datatype Status = Confirmed | Cancelled | Completed

  /** `Booking` without its id (the id is the key it is stored under). */
  datatype Booking = Booking(
    clientName: string,
    barber: string,         // the barber's NAME, not a reference
    service: string,        // the service's name
    startTime: Timestamp,
    endTime: Timestamp,
    priceCents: int,        // price snapshot taken at booking time
    status: Status)

  /** `ServiceItem` */
  datatype ServiceItem = ServiceItem(name: string, durationMinutes: int, priceCents: int, active: bool)

  /** `Barber`; every field except `active` may be null in a stored document. */
  datatype Barber = Barber(
    name: Option<string>,
    specialties: Option<seq<string>>,
    bio: Option<string>,
    experienceYears: Option<int>,
    cutTypes: Option<seq<string>>,
    active: bool)

  /** `Schedule`: one weekly availability window of a barber. */
  datatype Schedule = Schedule(barberId: Option<Id>, dayOfWeek: Weekday, startTime: TimeOfDay, endTime: TimeOfDay)

  datatype Role = USER | BARBER | ADMIN

  /** `Role.name()` */
  function RoleName(r: Role): string {
    match r
    case USER => "USER"
    case BARBER => "BARBER"
    case ADMIN => "ADMIN"
  }

  /** `User`; instants are milliseconds. */
  datatype User = User(
    email: string,
    passwordHash: string,
    role: Role,
    barberId: Option<Id>,
    name: Option<string>,
    avatarPath: Option<string>,
    createdAt: int,
    resetCode: Option<string>,
    resetExpiry: Option<int>)

  /** A subset is no larger than the set containing it. */
  lemma SubsetCard<T>(a: set<T>, b: set<T>)
    requires a <= b
    ensures |a| <= |b|
  {
    assert b == a + (b - a);
  }
}
