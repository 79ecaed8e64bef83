# freshCut back end — a verified Dafny model

freshCut is the back end of a barbershop booking application: clients book a
service with a barber, barbers maintain their weekly working windows, and
administrators manage the user accounts. There is also an AI assistant that
answers haircut questions and edits a photo's hair. This project models the core
of that back end in Dafny and proves what the code promises about it:

- **bookings** (`BookingService`, `BookingRepository`): creating, updating,
  cancelling, completing and deleting a booking. This covers the checks for the
  service, the overlap with other bookings, the barber and the weekly schedule,
  and the order of those checks.
- **the catalog** (`CatalogService`) and the TTL/LRU cache it reads through
  (`LruCache`).
- **security**: how the JWT filter finds the token (header, then cookie) and
  what it puts in the security context (`JwtAuthFilter`); the ordered access
  rules (`SecurityConfig`).
- **accounts** (`AuthService`): registration with role resolution and the barber
  profile link, login, and the password-reset code with its 15-minute window.
- **the barber's own area** (`BarberController`) and **the admin user area**
  (`AdminUserController`).
- **the AI assistant's decisions** (`DefaultTextRelevanceStrategy`,
  `GeminiService`): which texts count as haircut talk, when the chat answers
  with the standard reply, how one section is read from a reply, and how the
  image-edit prompt is put together.

## Layout

- `text.dfy` (`Text`): the Java `String` operations the core uses. These are
  `indexOf`, `contains`, `toLowerCase`, `trim`, `replace`, `equalsIgnoreCase`,
  `isBlank` and decimal formatting. The case operations cover the characters
  listed under "Left out"; every other character is its own upper and lower case.
- `entities.dfy` (`Entities`): the stored documents (user, barber, service,
  schedule, booking) as datatypes. Time is a count of minutes from a Monday
  00:00, so day of week and time of day are derived from it.
- `store.dfy` (`Store`): the MongoDB collections. The class `Store.Store`
  holds one `map` per collection plus an id counter. This module also holds
  the repository finders the controllers use.
- `booking_repository.dfy`, `booking_service.dfy`, `lru_cache.dfy`,
  `catalog_service.dfy`, `jwt_auth_filter.dfy`, `security_config.dfy`,
  `auth_service.dfy`, `barber_controller.dfy`, `admin_user_controller.dfy`,
  `text_relevance.dfy`, `gemini_service.dfy`: one module per source class.

Operations that change stored data are methods on `Store` (or on the cache
class). Each one has a `modifies` frame, and its `ensures` ties the new
collection to a pure "outcome" function of the old one. The properties are
proved as lemmas about those outcome functions.

## Model

| member | source | states |
|---|---|---|
| Text.IndexOf | src/main/java/com/freshcut/service/GeminiService.java:443-446 | `indexOf` from a position: -1 exactly when the text does not occur from there, otherwise the first position where it occurs |
| Text.ContainsIff | src/main/java/com/freshcut/service/GeminiService.java:303 | `contains` holds exactly when the keyword occurs at some position |
| Text.ContainsTransitive | src/main/java/com/freshcut/service/strategy/DefaultTextRelevanceStrategy.java:27-29 | a text containing a keyword also contains every keyword occurring inside it |
| Text.ToLower | src/main/java/com/freshcut/controller/AdminUserController.java:53 | lower-casing keeps the length and maps each character on its own |
| Text.ToLowerIdempotent | src/main/java/com/freshcut/controller/AdminUserController.java:83 | lower-casing twice equals lower-casing once |
| Text.ToLowerNoAsciiCapital | src/main/java/com/freshcut/controller/AdminUserController.java:53 | a lower-cased text holds no ASCII capital |
| Text.EqualsIgnoreCaseSymmetric | src/main/java/com/freshcut/controller/AdminUserController.java:80 | `equalsIgnoreCase` gives the same answer with its arguments swapped |
| Text.LowerEqualsIgnoreCase | src/main/java/com/freshcut/controller/AdminUserController.java:80 | a text equals its lower-cased form ignoring case |
| Text.LowerCharMatches | src/main/java/com/freshcut/controller/AdminUserController.java:80 | each character matches its lower case under the per-character rule of `equalsIgnoreCase` |
| Text.TrimStart | src/main/java/com/freshcut/service/strategy/DefaultTextRelevanceStrategy.java:11 | drops exactly the leading characters up to U+0020: the result is a suffix that starts with a character above U+0020 |
| Text.TrimEnd | src/main/java/com/freshcut/service/strategy/DefaultTextRelevanceStrategy.java:11 | drops exactly the trailing characters up to U+0020: the result is a prefix that ends with a character above U+0020 |
| Text.TrimIsSlice | src/main/java/com/freshcut/service/GeminiService.java:448 | `trim` returns a contiguous slice of its input |
| Text.TrimLeavesNoPadding | src/main/java/com/freshcut/service/GeminiService.java:448 | a trimmed text neither starts nor ends with a character up to U+0020 |
| Text.TrimChars | src/main/java/com/freshcut/service/GeminiService.java:294 | every character of the trimmed text comes from the input |
| Text.ReplaceAbsent | src/main/java/com/freshcut/controller/AuthController.java:82 | `replace` leaves a text unchanged when the target does not occur in it |
| Text.Decimal | src/main/java/com/freshcut/service/AuthService.java:84 | the decimal form of a number is a non-empty digit string with no leading zero |
| Text.DecimalRoundTrip | src/main/java/com/freshcut/service/AuthService.java:84 | reading back a decimal form gives the number |
| Text.DecimalInjective | src/main/java/com/freshcut/service/AuthService.java:84 | different numbers have different decimal forms, so generated ids never collide |
| Text.DecimalLength | src/main/java/com/freshcut/service/AuthService.java:84 | a number below 10^k has at most k digits |
| Text.LeadingZeros | src/main/java/com/freshcut/service/AuthService.java:84 | zero padding keeps a digit string's value |
| Entities.AtReadsBack | src/main/java/com/freshcut/service/BookingService.java:58-60 | the day of week and time of day of an instant built from them read back unchanged |
| Store.Single | src/main/java/com/freshcut/db/repository/ServiceItemRepository.java:9 | a single-result finder answers none exactly when nothing matches, and a unique id only when it is the only match |
| Store.FindActiveService | src/main/java/com/freshcut/db/repository/ServiceItemRepository.java:9 | `findByNameAndActiveTrue` for services: none exactly when no active service has that name; a unique hit is active and has that name |
| Store.FindActiveBarber | src/main/java/com/freshcut/db/repository/BarberRepository.java:9 | the same lookup for barbers |
| Store.SchedulesOn | src/main/java/com/freshcut/db/repository/ScheduleRepository.java:11 | exactly the windows of that barber on that day of week, unchanged |
| Store.SchedulesOf | src/main/java/com/freshcut/db/repository/ScheduleRepository.java:12 | exactly the windows of that barber, unchanged |
| Store.FindUserByEmail | src/main/java/com/freshcut/db/repository/UserRepository.java:10 | `findByEmail`: the user whose email is the query, and none exactly when no user has it |
| Store.FindUserByEmailIs | src/main/java/com/freshcut/db/repository/UserRepository.java:10 | with unique emails, the lookup returns the user who holds the email |
| Store.Store.NewId | src/main/java/com/freshcut/db/model/Schedule.java:11-12 | a fresh id: unused in every collection and never produced again |
| BookingRepository.FindOverlapping | src/main/java/com/freshcut/db/repository/BookingRepository.java:13-14 | exactly the stored bookings of that barber that start before the new end and end after the new start |
| BookingRepository.FindByBarber | src/main/java/com/freshcut/db/repository/BookingRepository.java:16 | exactly the bookings of that barber |
| BookingRepository.FindByClientName | src/main/java/com/freshcut/db/repository/BookingRepository.java:19 | exactly the bookings of that client |
| BookingRepository.QueryFindsClashes | src/main/java/com/freshcut/db/repository/BookingRepository.java:13-14 | the overlap query finds a stored booking exactly when it and the candidate share the barber and their intervals intersect |
| BookingRepository.ClashSymmetric | src/main/java/com/freshcut/db/repository/BookingRepository.java:13-14 | overlap is symmetric |
| BookingRepository.BackToBackDoNotClash | src/main/java/com/freshcut/db/repository/BookingRepository.java:13-14 | a booking that ends exactly when the next begins does not clash with it |
| BookingRepository.StatusIgnored | src/main/java/com/freshcut/db/repository/BookingRepository.java:13-14 | the overlap query ignores status: a cancelled booking still blocks its slot |
| BookingService.CreateRejectsMissingStartFirst | src/main/java/com/freshcut/service/BookingService.java:40-42 | a request without a start time fails with that error before any other check |
| BookingService.CreateIgnoresRequestEnd | src/main/java/com/freshcut/service/BookingService.java:47-48 | the client's end time has no effect; the end is start plus the service duration |
| BookingService.CreateOkIff | src/main/java/com/freshcut/service/BookingService.java:39-70 | creation succeeds exactly when: the start is given; the active service is unique; nothing overlaps; the active barber is unique; and a window of that weekday holds the slot. The booking is then CONFIRMED with the service's price and duration |
| BookingService.ConflictBeforeBarber | src/main/java/com/freshcut/service/BookingService.java:51-58 | an overlap is reported as a conflict even when the barber is unknown, because it is checked first |
| BookingService.CreateKeepsNoDoubleBooking | src/main/java/com/freshcut/service/BookingService.java:51-54 | saving a created booking keeps every barber free of overlapping bookings |
| BookingService.UpdateKeepsNoDoubleBooking | src/main/java/com/freshcut/service/BookingService.java:97 | an update that succeeds keeps every barber free of overlapping bookings |
| BookingService.UpdateMissingStart | src/main/java/com/freshcut/service/BookingService.java:85-93 | a request without a start time never updates; it fails at the unguarded dereference exactly when the booking and the service were both found |
| BookingService.UpdateIgnoresOwnSlot | src/main/java/com/freshcut/service/BookingService.java:97 | re-saving a booking on its own slot never conflicts with itself |
| BookingService.UpdateKeepsIdAndStatus | src/main/java/com/freshcut/service/BookingService.java:114-119 | an update keeps the booking's status and takes client, barber, service, start, end and price from the request and the service |
| BookingService.SetStatusIdempotent | src/main/java/com/freshcut/service/BookingService.java:123-127 | cancelling (or completing) twice is the same as once |
| BookingService.SetStatusLastWins | src/main/java/com/freshcut/service/BookingService.java:130-134 | the last status set wins, and only that booking's status changes |
| BookingService.SetStatusKeepsNoDoubleBooking | src/main/java/com/freshcut/service/BookingService.java:123-134 | changing a status keeps every barber free of overlapping bookings |
| BookingService.DeleteRemovesExactly | src/main/java/com/freshcut/service/BookingService.java:136-141 | deleting fails exactly for an unknown id, and otherwise removes that booking and nothing else |
| BookingService.SlotAcrossMidnightFits | src/main/java/com/freshcut/service/BookingService.java:59-66 | the fit check compares times of day only, so a slot running past midnight can fit a window on its start day |
| BookingService.SeedLookups | src/main/java/com/freshcut/service/BookingService.java:44-58 | in the sample data, "Fade medio" and "Barbero Demo" each resolve to one document |
| BookingService.SeedScenario | src/main/java/com/freshcut/service/BookingService.java:39-70 | with the sample data: a 9:00 booking succeeds and ends at 9:45; 9:20 then conflicts; 17:30 and a Tuesday slot fall outside the schedule |
| BookingService.Create | src/main/java/com/freshcut/service/BookingService.java:39-70 | the result and the saved booking are the outcome of the checks on the old store; a failure saves nothing |
| BookingService.Update | src/main/java/com/freshcut/service/BookingService.java:85-121 | the result is the update outcome; only that booking is rewritten, and only on success |
| BookingService.Cancel | src/main/java/com/freshcut/service/BookingService.java:123-127 | fails exactly for an unknown id; otherwise sets CANCELLED and returns the stored booking |
| BookingService.Complete | src/main/java/com/freshcut/service/BookingService.java:130-134 | fails exactly for an unknown id; otherwise sets COMPLETED and returns the stored booking |
| BookingService.Delete | src/main/java/com/freshcut/service/BookingService.java:136-141 | fails exactly for an unknown id; otherwise removes exactly that booking |
| BookingService.ListByClientName | src/main/java/com/freshcut/service/BookingService.java:77-79 | exactly the bookings of that client |
| Cache.Remove | src/main/java/com/freshcut/util/LruCache.java:27-30 | removes exactly that key from the access order and keeps the keys distinct |
| Cache.Touch | src/main/java/com/freshcut/util/LruCache.java:21 | access order: the touched key moves to the most recent end |
| Cache.DistinctCard | src/main/java/com/freshcut/util/LruCache.java:36-42 | a distinct access order has as many keys as positions |
| Cache.SizeIsOrderLength | src/main/java/com/freshcut/util/LruCache.java:36-42 | the map's size equals the access order's length |
| Cache.GetKeepsWellFormed | src/main/java/com/freshcut/util/LruCache.java:24-32 | a read keeps the entries and the access order in step, and never grows the cache |
| Cache.PutKeepsBound | src/main/java/com/freshcut/util/LruCache.java:34-43 | after a put, the cache never holds more than its maximum size |
| Cache.PutEvictsEldestOnly | src/main/java/com/freshcut/util/LruCache.java:34-43 | a put stores the value as most recent, evicts only the least recently used key and only when a new key overflows, and leaves the other entries alone |
| Cache.PutThenGet | src/main/java/com/freshcut/util/LruCache.java:24-43 | a value just put is read back while younger than the TTL |
| Cache.RemoveAt | src/main/java/com/freshcut/util/LruCache.java:30 | removing a key from a distinct access order closes its gap and keeps the other keys in order |
| Cache.HitPromotes | src/main/java/com/freshcut/util/LruCache.java:24-32 | a live hit returns the stored value, leaves the entries alone, and moves the key from its position to the most recent end with the others in order |
| Cache.AgeEqualToTtlHits | src/main/java/com/freshcut/util/LruCache.java:27 | an entry whose age equals the TTL is still served |
| Cache.ZeroTtlNeverExpires | src/main/java/com/freshcut/util/LruCache.java:27 | a TTL of 0 disables expiry |
| Cache.ExpiredIsRemoved | src/main/java/com/freshcut/util/LruCache.java:27-30 | an expired entry is a miss and is removed from the cache, the other keys keeping their order |
| Cache.AbsentMissUnchanged | src/main/java/com/freshcut/util/LruCache.java:25-26 | a missing key is a miss that changes nothing |
| Cache.LruCache.constructor | src/main/java/com/freshcut/util/LruCache.java:18-22 | the size is clamped to at least 1 and the TTL to at least 0; the cache starts empty |
| Cache.LruCache.Get | src/main/java/com/freshcut/util/LruCache.java:24-32 | result and new state are those of the read outcome |
| Cache.LruCache.Put | src/main/java/com/freshcut/util/LruCache.java:34-43 | the new state is that of the put outcome |
| Cache.LruCache.Clear | src/main/java/com/freshcut/util/LruCache.java:45 | the cache is empty |
| CatalogService.ActiveOnly | src/main/java/com/freshcut/service/CatalogService.java:26-40 | exactly the active barbers (or services) of the repository's list |
| CatalogService.ActiveOnlyInOrder | src/main/java/com/freshcut/service/CatalogService.java:26-40 | the active barbers (or services) keep the repository's order |
| CatalogService.ReadThroughNeverEvicts | src/main/java/com/freshcut/service/CatalogService.java:18-19 | a cache used for one key holds exactly that key and the value just served |
| CatalogService.HitIgnoresRepository | src/main/java/com/freshcut/service/CatalogService.java:27-28 | within the TTL the cached list is served whatever the repository now holds |
| CatalogService.MissThenHit | src/main/java/com/freshcut/service/CatalogService.java:26-32 | a miss serves the fresh list, and a read within the TTL then serves that same list |
| CatalogService.ClearedRecomputes | src/main/java/com/freshcut/service/CatalogService.java:42-45 | after invalidation the next read serves the repository's list |
| CatalogService.CatalogService.constructor | src/main/java/com/freshcut/service/CatalogService.java:18-19 | two empty caches |
| CatalogService.CatalogService.ListActiveBarbers | src/main/java/com/freshcut/service/CatalogService.java:26-32 | the read-through outcome on the barber cache; the service cache is untouched |
| CatalogService.CatalogService.ListActiveServices | src/main/java/com/freshcut/service/CatalogService.java:34-40 | the read-through outcome on the service cache; the barber cache is untouched |
| CatalogService.CatalogService.Invalidate | src/main/java/com/freshcut/service/CatalogService.java:42-45 | both caches are empty |
| JwtAuthFilter.FirstCookie | src/main/java/com/freshcut/security/JwtAuthFilter.java:34-40 | the value of the first cookie with that name, and none exactly when no cookie has it |
| JwtAuthFilter.HeaderWins | src/main/java/com/freshcut/security/JwtAuthFilter.java:30-33 | a `Bearer ` header gives the rest of the header as the token, whatever the cookies |
| JwtAuthFilter.CookieFallback | src/main/java/com/freshcut/security/JwtAuthFilter.java:34-40 | without a `Bearer ` header the token is the first `AUTH_TOKEN` cookie |
| JwtAuthFilter.BlankBearerNoFallback | src/main/java/com/freshcut/security/JwtAuthFilter.java:41 | a blank bearer token leaves the context as it was and does not fall back to the cookie |
| JwtAuthFilter.FailureClears | src/main/java/com/freshcut/security/JwtAuthFilter.java:49-51 | a token that fails to parse, or has a role that is not a string, clears the context |
| JwtAuthFilter.SuccessAuthorities | src/main/java/com/freshcut/security/JwtAuthFilter.java:42-48 | a valid token authenticates its subject with `ROLE_` plus the role, or no authority without a role |
| JwtAuthFilter.RoleRoundTrip | src/main/java/com/freshcut/controller/AuthController.java:82 | `/me` strips the `ROLE_` prefix back to the role the token carried |
| JwtAuthFilter.IssuedRolesRoundTrip | src/main/java/com/freshcut/controller/AuthController.java:82 | for every role the service issues, `/me` reports that role |
| JwtAuthFilter.FilterChain.DoFilter | src/main/java/com/freshcut/security/JwtAuthFilter.java:53 | the rest of the chain runs once |
| JwtAuthFilter.FindToken | src/main/java/com/freshcut/security/JwtAuthFilter.java:30-40 | the loop over the cookies finds the header token or the first `AUTH_TOKEN` cookie |
| JwtAuthFilter.DoFilterInternal | src/main/java/com/freshcut/security/JwtAuthFilter.java:28-54 | the context afterwards is the authentication decided from the resolved token; the chain always continues once |
| SecurityConfig.FirstMatch | src/main/java/com/freshcut/config/SecurityConfig.java:35-44 | the first rule that matches: every earlier rule misses, and none exactly when no rule matches |
| SecurityConfig.MatchTable | src/main/java/com/freshcut/config/SecurityConfig.java:36-43 | which requests each of the eight rules matches |
| SecurityConfig.SomeRuleDecides | src/main/java/com/freshcut/config/SecurityConfig.java:43 | the final `anyRequest` rule means every request is decided |
| SecurityConfig.DecidedBy | src/main/java/com/freshcut/config/SecurityConfig.java:35-44 | the first matching rule alone decides |
| SecurityConfig.PreflightAlwaysAllowed | src/main/java/com/freshcut/config/SecurityConfig.java:36 | every OPTIONS request is allowed |
| SecurityConfig.AuthAndAiArePublic | src/main/java/com/freshcut/config/SecurityConfig.java:37-38 | everything under `/api/auth` and `/api/ai` is allowed |
| SecurityConfig.CatalogPublicForGet | src/main/java/com/freshcut/config/SecurityConfig.java:40 | anyone may GET `/api/barbers` and `/api/services` |
| SecurityConfig.OutsideGatedTrees | src/main/java/com/freshcut/config/SecurityConfig.java:37-42 | the catalog, avatar and booking paths fall in none of the auth, ai, barber and admin trees |
| SecurityConfig.CatalogWritesNeedAuthentication | src/main/java/com/freshcut/config/SecurityConfig.java:40-43 | non-GET catalog requests are allowed exactly when authenticated |
| SecurityConfig.AvatarsPublicForGetOnly | src/main/java/com/freshcut/config/SecurityConfig.java:39 | avatar files are public for GET and need authentication otherwise |
| SecurityConfig.BarberAreaNeedsBarberRole | src/main/java/com/freshcut/config/SecurityConfig.java:41 | `/api/barber/**` is allowed exactly with ROLE_BARBER; an admin is refused |
| SecurityConfig.AdminAreaNeedsAdminRole | src/main/java/com/freshcut/config/SecurityConfig.java:42 | `/api/admin/**` is allowed exactly with ROLE_ADMIN |
| SecurityConfig.AnonymousAdminSchedulesForbidden | src/test/java/com/freshcut/SecurityUnauthorizedTest.java:20-22 | an anonymous GET of `/api/admin/schedules` is refused |
| SecurityConfig.BarbersListingIsNotBarberArea | src/main/java/com/freshcut/config/SecurityConfig.java:40-41 | `/api/barbers` is not inside `/api/barber/**`, so its listing stays public |
| SecurityConfig.BookingsNeedAuthentication | src/main/java/com/freshcut/config/SecurityConfig.java:43 | booking requests are allowed exactly when authenticated |
| AuthService.ResolveRoleCases | src/main/java/com/freshcut/service/AuthService.java:44-45 | ADMIN exactly for the five letters a-d-m-i-n each in either case, where the i may also be dotless ı or dotted İ; BARBER exactly for b-a-r-b-e-r each in either case; anything else, or nothing, gives USER |
| AuthService.RegisterPlanCases | src/main/java/com/freshcut/service/AuthService.java:40-65 | a taken email is refused. Only a barber gets a profile link: to the given id, else to a new profile named after the request, and without either the registration is refused |
| AuthService.RegisterThenLogin | src/main/java/com/freshcut/service/AuthService.java:40-79 | a registered user can log in with the same email and password and gets the same role back |
| AuthService.LoginUniformFailure | src/main/java/com/freshcut/service/AuthService.java:71-79 | an unknown email and a wrong password give the same error; login succeeds exactly when some user with that email matches the password |
| AuthService.PadCodeShape | src/main/java/com/freshcut/service/AuthService.java:84 | the reset code is six digits whose value is the drawn number |
| AuthService.PadCodeInjective | src/main/java/com/freshcut/service/AuthService.java:84 | different draws give different codes |
| AuthService.ResetRequestedTouchesOnlyCode | src/main/java/com/freshcut/service/AuthService.java:82-92 | a reset request sets only the code and its expiry 15 minutes on, only for that email; an unknown email changes nothing |
| AuthService.ResetWithinWindow | src/main/java/com/freshcut/service/AuthService.java:95-111 | the issued code resets the password exactly until the expiry, and afterwards reports it expired; success clears code and expiry |
| AuthService.ResetIsSingleUse | src/main/java/com/freshcut/service/AuthService.java:107-110 | a code that has been used cannot be used again |
| AuthService.ResetCheckOrder | src/main/java/com/freshcut/service/AuthService.java:96-106 | each outcome exactly: unknown email; no code or expiry stored; code expired; live code but a different one; success exactly when the stored live code is given, and then the user gets the encoded new password and the code and expiry are cleared |
| AuthService.Register | src/main/java/com/freshcut/service/AuthService.java:40-69 | stores the user and, when needed, the new barber profile linked to it, with fresh ids; a refusal stores nothing |
| AuthService.RequestPasswordReset | src/main/java/com/freshcut/service/AuthService.java:82-92 | the users become the reset-request outcome |
| AuthService.ResetPassword | src/main/java/com/freshcut/service/AuthService.java:95-111 | the users become the reset outcome; a refusal changes nothing |
| BarberController.CurrentUser | src/main/java/com/freshcut/controller/BarberController.java:36-41 | not authenticated exactly without a principal; user not found exactly when no user has that email; otherwise that user |
| BarberController.UnlinkedCallerNotFound | src/main/java/com/freshcut/controller/BarberController.java:43-116 | a caller without a barber link gets 404 from every endpoint |
| BarberController.CallerIsLinkedBarber | src/main/java/com/freshcut/controller/BarberController.java:36-41 | the caller's barber is the user's non-blank barber link |
| BarberController.CurrentUserFailsFirst | src/main/java/com/freshcut/controller/BarberController.java:36-41 | a missing principal or user fails before any schedule is looked at |
| BarberController.MergeFullPayload | src/main/java/com/freshcut/controller/BarberController.java:58-63 | a payload that sets every field replaces the stored profile entirely |
| BarberController.MergeComposes | src/main/java/com/freshcut/controller/BarberController.java:58-63 | two successive profile updates equal one update with the second payload's fields over the first's |
| BarberController.MergeOnlyActive | src/main/java/com/freshcut/controller/BarberController.java:58-63 | an empty payload changes only `active` |
| BarberController.MergeIdempotent | src/main/java/com/freshcut/controller/BarberController.java:58-63 | applying the same profile update twice equals applying it once |
| BarberController.MyBookingsByName | src/main/java/com/freshcut/controller/BarberController.java:68-75 | the barber's bookings are exactly those stored under the barber's name |
| BarberController.CreatedWindowIsOwn | src/main/java/com/freshcut/controller/BarberController.java:84-91 | a created window gets a new id and belongs to the caller |
| BarberController.UpdateScheduleGuards | src/main/java/com/freshcut/controller/BarberController.java:93-104 | 404 exactly for an unknown window, 403 exactly for another barber's window, otherwise the caller's window with the new day and times |
| BarberController.DeleteScheduleGuards | src/main/java/com/freshcut/controller/BarberController.java:106-116 | deletion has the same 404 and 403 guards as update |
| BarberController.OthersUntouchedByWrite | src/main/java/com/freshcut/controller/BarberController.java:99-101 | writing one's own window leaves every other barber's windows as they were |
| BarberController.OthersUntouchedByRemove | src/main/java/com/freshcut/controller/BarberController.java:113-114 | removing one's own window leaves every other barber's windows as they were |
| BarberController.ScheduleWritesStayOwn | src/main/java/com/freshcut/controller/BarberController.java:84-116 | create, update and delete never change another barber's windows |
| BarberController.CreateScheduleAsWrittenTakesOver | src/main/java/com/freshcut/controller/BarberController.java:84-91 | as written, a create that carries an existing window's id takes that window over, which update refuses |
| BarberController.UpdateMe | src/main/java/com/freshcut/controller/BarberController.java:52-66 | the profile becomes the merge of the stored profile and the payload; a refusal changes nothing |
| BarberController.CreateSchedule | src/main/java/com/freshcut/controller/BarberController.java:84-91 | stores the caller's new window under a fresh id; a refusal stores nothing |
| BarberController.UpdateSchedule | src/main/java/com/freshcut/controller/BarberController.java:93-104 | the result is the guarded update outcome; only that window is rewritten, and only on success |
| BarberController.DeleteSchedule | src/main/java/com/freshcut/controller/BarberController.java:106-116 | the result is the guarded delete outcome; only that window is removed, and only on success |
| AdminUserController.DtoHidesSecrets | src/main/java/com/freshcut/controller/AdminUserController.java:35-41 | the user view copies id, email, role, name, barber link and creation time, and does not depend on the password hash, the avatar or the reset code |
| AdminUserController.ListCoversUsers | src/main/java/com/freshcut/controller/AdminUserController.java:45-48 | the listing has as many entries as users, each carries its own id, and it shows exactly the stored emails |
| AdminUserController.CapitalisedEmailUnreachable | src/main/java/com/freshcut/controller/AdminUserController.java:51-56 | a stored email with an ASCII capital is never found or deleted by email, since the query is lower-cased |
| AdminUserController.LowerCaseEmailFound | src/main/java/com/freshcut/controller/AdminUserController.java:51-56 | a lower-case email is found whatever case the query uses |
| AdminUserController.DeleteRefusesSelf | src/main/java/com/freshcut/controller/AdminUserController.java:58-66 | deleting one's own id is a 400 |
| AdminUserController.DeleteOthers | src/main/java/com/freshcut/controller/AdminUserController.java:58-72 | any other id is a 404 exactly when unknown, and is removed otherwise |
| AdminUserController.DeleteByEmailRefusesSelf | src/main/java/com/freshcut/controller/AdminUserController.java:74-87 | deletion by email never removes the caller's own account, under the case mappings of Text.ToLower (in Java a stored "i\u0307" queried as U+0130 slips past the guard) |
| AdminUserController.DeleteByEmailTarget | src/main/java/com/freshcut/controller/AdminUserController.java:74-87 | otherwise it 404s exactly when no user has the lower-cased email, and removes that user |
| AdminUserController.RemoveKeepsUnique | src/main/java/com/freshcut/controller/AdminUserController.java:68-69 | removing a user keeps emails unique and the other users unchanged |
| AdminUserController.Delete | src/main/java/com/freshcut/controller/AdminUserController.java:58-72 | removes exactly the outcome's id, or nothing on a refusal |
| AdminUserController.DeleteByEmail | src/main/java/com/freshcut/controller/AdminUserController.java:74-87 | removes exactly the outcome's user, or nothing on a refusal |
| TextRelevance.Hits | src/main/java/com/freshcut/service/strategy/DefaultTextRelevanceStrategy.java:27-29 | a keyword count never exceeds the number of keywords |
| TextRelevance.IsRelevantText | src/main/java/com/freshcut/service/strategy/DefaultTextRelevanceStrategy.java:10-31 | a non-empty normalized text whose domain hits minus off-topic hits is at least 2 |
| TextRelevance.CountHits | src/main/java/com/freshcut/service/strategy/DefaultTextRelevanceStrategy.java:28-29 | the counting loop gives the keyword count |
| TextRelevance.HitsCountsPresent | src/main/java/com/freshcut/service/strategy/DefaultTextRelevanceStrategy.java:28-29 | the count is the number of keywords present, each counted once however often it occurs |
| TextRelevance.HitsPresenceOnly | src/main/java/com/freshcut/service/strategy/DefaultTextRelevanceStrategy.java:28-29 | texts with the same keywords present score the same |
| TextRelevance.HitsAtLeastTwo | src/main/java/com/freshcut/service/strategy/DefaultTextRelevanceStrategy.java:28 | two different keywords present count at least two |
| TextRelevance.HitsAtLeastOne | src/main/java/com/freshcut/service/strategy/DefaultTextRelevanceStrategy.java:28 | a keyword present counts |
| TextRelevance.HitsNone | src/main/java/com/freshcut/service/strategy/DefaultTextRelevanceStrategy.java:28 | no keyword present, no count |
| TextRelevance.KeywordsAreWords | src/main/java/com/freshcut/service/strategy/DefaultTextRelevanceStrategy.java:13-26 | every keyword starts with a lower-case letter |
| TextRelevance.NormalizeBlank | src/main/java/com/freshcut/service/strategy/DefaultTextRelevanceStrategy.java:11 | a null or blank text normalizes to a blank text |
| TextRelevance.TrimKeepsBlank | src/main/java/com/freshcut/service/strategy/DefaultTextRelevanceStrategy.java:11 | trimming keeps a blank text blank |
| TextRelevance.BlankHitsNone | src/main/java/com/freshcut/service/strategy/DefaultTextRelevanceStrategy.java:28-29 | a blank text hits no keyword |
| TextRelevance.BlankNotRelevant | src/main/java/com/freshcut/service/strategy/DefaultTextRelevanceStrategy.java:12 | null, empty and whitespace-only texts are not relevant |
| TextRelevance.IgnoresCase | src/main/java/com/freshcut/service/strategy/DefaultTextRelevanceStrategy.java:11 | texts with the same lower-cased form are judged alike |
| TextRelevance.NestedKeywordsCount | src/main/java/com/freshcut/service/strategy/DefaultTextRelevanceStrategy.java:25-28 | "cambiar corte" alone gives two domain hits, so it is relevant unless an off-topic word occurs |
| TextRelevance.VideojuegoCostsTwo | src/main/java/com/freshcut/service/strategy/DefaultTextRelevanceStrategy.java:26-29 | "videojuego" also contains "juego" and costs at least two points |
| GeminiService.IsRelevantText | src/main/java/com/freshcut/service/GeminiService.java:293-310 | the chat relevance rule: the domain count minus twice the off-topic count is positive, and an intent word occurs |
| GeminiService.FindIntent | src/main/java/com/freshcut/service/GeminiService.java:308 | the loop that stops at the first intent word finds one exactly when one occurs |
| GeminiService.CorteIsEnough | src/main/java/com/freshcut/service/GeminiService.java:296-309 | "corte" with no off-topic word is relevant on its own, being both a domain word and an intent |
| GeminiService.IntentRequired | src/main/java/com/freshcut/service/GeminiService.java:307-309 | without an intent word no text is relevant, whatever its score |
| GeminiService.OffTopicCountsDouble | src/main/java/com/freshcut/service/GeminiService.java:303-305 | a relevant text has more than twice as many domain hits as off-topic hits |
| GeminiService.BlankNotChatRelevant | src/main/java/com/freshcut/service/GeminiService.java:294-295 | null and blank texts are not relevant |
| GeminiService.ChatGate | src/main/java/com/freshcut/service/GeminiService.java:57-62 | a standard step always carries the standard reply |
| GeminiService.Chat | src/main/java/com/freshcut/service/GeminiService.java:49-87 | the step is the outcome of the gates on the gathered text, failing for a missing message list that passes them |
| GeminiService.ChatOutcomeCases | src/main/java/com/freshcut/service/GeminiService.java:49-87 | the provider is asked exactly for a present message list with a relevant text and a non-blank key; a missing list that passes the gates fails; everything else gets the standard reply |
| GeminiService.FaceOnlyChatFails | src/main/java/com/freshcut/service/GeminiService.java:51-87 | a face description asking for a cut, no message list and a key make `chat` fail at the unguarded message loop |
| GeminiService.GatherText | src/main/java/com/freshcut/service/GeminiService.java:50-56 | the gathering loop builds the description and each non-null message, each followed by a space |
| GeminiService.JoinContentsAppend | src/main/java/com/freshcut/service/GeminiService.java:52-55 | joining messages distributes over concatenation |
| GeminiService.ChatTextHoldsEachContent | src/main/java/com/freshcut/service/GeminiService.java:50-56 | every non-null message occurs in the gathered text |
| GeminiService.ChatGates | src/main/java/com/freshcut/service/GeminiService.java:57-62 | the provider is asked exactly when the text is relevant and the key is not blank |
| GeminiService.EmptyChatStandard | src/main/java/com/freshcut/service/GeminiService.java:50-59 | a chat with no description and no messages gets the standard reply, before the missing list could fail |
| GeminiService.LineAfterIsOneLine | src/main/java/com/freshcut/service/GeminiService.java:442-447 | there is no line exactly when the marker is absent, and the line holds no newline |
| GeminiService.ExtractSectionIsOneLine | src/main/java/com/freshcut/service/GeminiService.java:442-449 | an absent marker gives "", and a section never spans lines |
| GeminiService.ExtractSectionReadsLine | src/main/java/com/freshcut/service/GeminiService.java:442-449 | the section of the first marker is its line trimmed |
| GeminiService.ExtractSectionReadsLastLine | src/main/java/com/freshcut/service/GeminiService.java:446-448 | on the last line the section runs to the end of the text |
| GeminiService.Strength | src/main/java/com/freshcut/service/GeminiService.java:455 | the strength is always between 0 and 100 |
| GeminiService.StrengthClamps | src/main/java/com/freshcut/service/GeminiService.java:455 | the default is 70, values in range are kept, others clamp to 0 or 100, and clamping twice changes nothing |
| GeminiService.StrengthMonotone | src/main/java/com/freshcut/service/GeminiService.java:455 | clamping keeps the order of strengths |
| GeminiService.BuildPrompt | src/main/java/com/freshcut/service/GeminiService.java:451-485 | the step-by-step builder produces the prompt of the sentence list |
| GeminiService.BaldKeywordsListed | src/main/java/com/freshcut/service/GeminiService.java:461 | the bald keyword list is exactly the four words tested |
| GeminiService.ExactlyOneIntensity | src/main/java/com/freshcut/service/GeminiService.java:471-477 | the prompt has exactly one intensity sentence: marked from 80, moderate from 50, subtle below |
| GeminiService.StrengthStated | src/main/java/com/freshcut/service/GeminiService.java:455-456 | the prompt states the clamped strength |
| GeminiService.StyleSelection | src/main/java/com/freshcut/service/GeminiService.java:458-469 | a bald keyword in any case selects a bald head, another non-blank style is used as given, and no style lets the model choose |
| GeminiService.BaldIgnoresCase | src/main/java/com/freshcut/service/GeminiService.java:460-461 | styles with the same lower-cased form select baldness alike |
| GeminiService.NotesOnlyWhenGiven | src/main/java/com/freshcut/service/GeminiService.java:480-482 | face notes appear exactly when a non-blank description is given |
| GeminiService.EditHairGate | src/main/java/com/freshcut/service/GeminiService.java:132-137 | without a key the original image is returned; with one the same image is sent for editing |

## Left out

- BookingService.Update: a missing start time makes the source throw a NullPointerException (a 500). The model returns it as the error value `UnguardedStart`.
- The finders return maps keyed by id rather than lists, so MongoDB's result order is not modelled. The catalog listings keep their order and are modelled as sequences.
- Text.ToLower: lower-cases ASCII and Latin-1 capitals and the capitals U+0178, U+039C, U+1E9E, U+212A and U+212B only. Other Unicode case mappings are not modelled. U+0130 is left unchanged, because Java lower-cases it to two characters.
- Text.EqualsIgnoreCase: applies Java's per-character rule (equal, equal upper cases, or equal lower cases of the upper cases) over the case mappings of the characters listed for Text.ToLower, plus the lower-case letters that have them as upper case (including ı, ſ and µ). Other Unicode case pairs compare as different.
- BarberController.CreateSchedule: models the corrected create, which always stores a fresh id owned by the caller. The source's reuse of an id carried in the request body is modelled by CreateScheduleAsWritten (see Findings).
- BookingService.Create: the request's client name, service and barber are modelled as strings that are always present. In the source `POST /api/bookings` has no `@Valid` (BookingController.java:52), so the `@NotBlank` constraints (BookingRequest.java:9-14) are not enforced and a null field reaches `create`: a null client name is saved as null, and a null service or barber name is used as a null query value.
- Timestamps are whole minutes, so seconds and nanoseconds are not modelled. Reset instants are milliseconds.
- Null fields of a schedule (day, start, end) are not modelled. Barber.active is a primitive `boolean` and is modelled as always present.
- `synchronized` in the LRU cache and all concurrency are not modelled.
- JWT signing and parsing, BCrypt hashing and matching, and token issuing are parameters: functions the model does not look into. The same holds for the random draw of the reset code and the clock.
- The provider HTTP calls, face detection, the rule-based fallback reply and AiService are not modelled. GeminiService stops at the decision to call the provider.
- CORS configuration, `/reset-simple`, ProfileController and AiController are not part of this model.
- CatalogService.Invalidate: nothing in the source calls it, so a catalog change is served stale until the TTL runs out. The model shows this in HitIgnoresRepository.
- Java's 32-bit and 64-bit overflow of durations, prices and keyword scores is not modelled. Integers are unbounded.
- Spring MVC's path normalisation (trailing slashes, `..`) is not modelled. Paths are matched as given.
- JwtAuthFilter.FilterChain.DoFilter: the rest of the filter chain is modelled as a counter of invocations.
- AuthService.Login: modelled as a function, since it only reads the store.
- BarberController.CurrentUser: the source throws (a 500) when the principal or the user is missing. The model returns those failures as values.
- `findByBarber(null)` is modelled as finding nothing.
- Null elements of the chat's message list are not modelled; null message contents are.
- GeminiService.Chat: a missing message list that passes both gates makes the source throw a NullPointerException at GeminiService.java:87 (a 500). The model returns it as the step `MissingMessages`.
- GeminiService.BuildPrompt: the prompt is built from a list of sentences, each mapped to the source's exact wording.
- TextRelevance.NestedKeywordsCount: proves at least two domain hits rather than the exact score of one concrete text.
- TextRelevance.VideojuegoCostsTwo: proves at least two off-topic hits rather than the exact score of one concrete text.

## Findings

| source | as written | input that shows it | evidently intended | confidence | as-written member | corrected member |
|---|---|---|---|---|---|---|
| src/main/java/com/freshcut/controller/BarberController.java:84-91 | `createSchedule` saves the request body after setting only its barber id. The body's `id` is bound from JSON (Schedule.java:12,19), so saving it overwrites any stored window with that id. That is another barber's window, which `updateSchedule` and `deleteSchedule` refuse to touch (lines 98, 113) | barber b2 posts `{"id": "w1", ...}` while window w1 belongs to barber b1 | a create always adds a new window owned by the caller | medium, not executed | BarberController.CreateScheduleAsWrittenTakesOver | BarberController.ScheduleWritesStayOwn |
