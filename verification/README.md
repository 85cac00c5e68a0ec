# Movie-Booking core in Dafny

This project models the core of a movie-booking system:

- the back-end routes that book seats, cancel bookings and serve the movie list through a locked cache-aside;
- the worker that confirms bookings taken from a message queue;
- the client-side seat selection, seat-map layout and poster/duration helpers.

Each database transaction is one atomic step on an in-memory store value (`BookingStore.Db`): seats, bookings and booking–seat associations.
The HTTP handlers are methods of `Routes.Backend`, a class that holds:

- that store;
- the movie catalogue;
- the key/value cache;
- the booking queue.

Each handler is proved to leave exactly the state its transaction function describes. It is also proved to keep the store invariant `BookingStore.Consistent`. The one case where it does not is re-cancelling an already-Cancelled booking (see Findings). The invariant says three things:

- every association names an existing booking and seat;
- no seat is held by two live (non-Cancelled) bookings;
- each seat's `is_booked` flag agrees with what the availability view `GET /screenings/:id/seats` shows, namely `BookingStore.ShownBooked`.

The worker is the class `Worker.ConfirmationWorker`, with a main queue, a dead-letter queue and the bookings map.
The React components are classes whose fields are the component state. Each handler is a method that updates those fields.

Modules:

| file | module | what it holds |
|---|---|---|
| wrappers.dfy | Wrappers | `Option`, `Result` |
| text.dfy | Text | decimal numerals, substring search |
| sequences.dfy | Sequences | duplicate-free sequences, `Distinct`, `Without` |
| backoff.dfy | Backoff | doubling delays |
| validation.dfy | BookingValidation | `validateBookingInput` |
| store.dfy | BookingStore | the tables, `POST /bookings`, cancellation |
| store_invariant.dfy | StoreInvariant | the store invariant under each transaction, and the re-cancel counterexample |
| movie_cache.dfy | MovieCache | `getMoviesWithCache` as a recursive function |
| routes.dfy | Routes | `POST /book`, replies, cache keys, the `Backend` class |
| worker.dfy | Worker | `processBooking`, broker configuration, the consume callback |
| seat_layout.dfy | SeatLayout | the seat map's row grouping and sorting |
| booking_form.dfy | BookingForm | the booking form component |
| seat_map.dfy | SeatMap | the grid seat picker component |
| movie_card.dfy | MovieCard | the poster file name and the duration label |

The model follows the code as written, including where it behaves in ways a reader might not expect:

- **Worker re-delivery.** A re-delivered confirmation of an already-Confirmed booking is not an idempotent success. The conditional update matches no row, so the worker retries, throws and dead-letters the message (`Worker.RedeliveredConfirmedIsRejected`).
- **Cache hits and the lock.** A cache hit does touch the lock. The `finally` deletes `movies_lock` on every exit, hits included, even when another client set it (`MovieCache.HitReleasesForeignLock`).
- **The retry is not awaited.** `return getMoviesWithCache(retries - 1, delay * 2)` sits inside `try … finally` without `await`. The waiting frame's `finally` therefore deletes `movies_lock` as soon as the retry has sent its first command. The retry then finds the lock free and queries, even though the client holding the lock is still querying (see Findings). `MovieCache.GetMovies` and `Backend.GetMoviesWithCache` model this order; `MovieCache.GetMoviesAwaited` is the awaited variant.
- **Cancelling twice.** Cancelling an already-Cancelled booking is not a no-op. It runs the cancellation again and can release a seat another booking now holds (see Findings). `BookingStore.Cancel` and `Backend.CancelBooking` model the code as written. `BookingStore.CancelOnce` is the corrected behaviour, proved to keep the store invariant.

## Model

| member | source | states |
|---|---|---|
| BookingValidation.ValidateBookingInput | backend/routes.js:55-71 | The four checks in order. Each error is returned exactly when the earlier checks pass and its own check fails (missing/falsy field, non-string field, name longer than 100, movie id not all digits). No error exactly for well-formed input. |
| BookingValidation.NameLengthBoundary | backend/routes.js:64-66 | A 100-character name is accepted; a 101-character name is rejected as too long. |
| BookingValidation.MessagesLackNotFound | backend/routes.js:55-71 | No validation message contains "not found", so none can be answered with 404. |
| MovieCache.GetMovies | backend/routes.js:13-49 | On every exit the lock key is absent. Every error carries "Failed to fetch movies with cache". Attempts are waits + 1 and at most retries + 1. The store is queried at most once. A success without a query means the cache seen by the last attempt held rows. A retry sees the cache after the wait without the lock, which its caller's `finally` has deleted, unless another client took the lock again. |
| MovieCache.HitReturnsCached | backend/routes.js:15-19 | A cache hit returns the cached rows with no query and no wait; the cache is left as it was minus the lock. |
| MovieCache.MissStoresRows | backend/routes.js:21-42 | A miss with the lock free queries once, stores the rows under `movies` with a 60 s TTL, returns them and leaves no lock. |
| MovieCache.ContentionExhausts | backend/routes.js:26-48 | The call runs out of retries only when another client takes the lock again in every wait and the cache stays empty. It then waits delay·2^k for k < retries, makes retries + 1 attempts and no query, and fails with the fixed message. |
| MovieCache.DefaultContention | backend/routes.js:13-48 | With the defaults and the lock taken again in each of three waits: 4 attempts, waits 100, 200, 400, no query, failure. |
| MovieCache.NoQueryOnlyDropsLock | backend/routes.js:46-48 | A call that never queried leaves the last cache it saw, minus the lock, even when another client set that lock. |
| MovieCache.HitReleasesForeignLock | backend/routes.js:16-48 | A concrete hit while another client holds the lock deletes that client's lock. |
| MovieCache.FilledDuringWait | backend/routes.js:15-33 | If another client fills the cache during the first wait, the retry returns those rows after one wait, without querying. |
| MovieCache.WaiterTakesHeldLock | backend/routes.js:26-48 | Even when the lock is still held at the end of the wait and the cache is still empty, the retry takes the lock and queries after one wait: its caller's `finally` has already deleted the lock. |
| MovieCache.DefaultUncontended | backend/routes.js:13-48 | With the defaults, a held lock and no other client acting, the call queries after a single 100 ms wait and fills the cache. |
| MovieCache.GetMoviesAwaited | backend/routes.js:26-48 | The variant with the retry awaited keeps the same guarantees: the lock is absent on exit, every error has the fixed message, attempts are waits + 1, at most one query. |
| MovieCache.AwaitedWaitsForHolder | backend/routes.js:26-48 | With the retry awaited, a caller that finds the lock held and keeps finding it held with an empty cache never queries: it waits delay·2^k and fails. |
| Backoff.DelaysAt | backend/routes.js:32-33 | The k-th wait of a doubling backoff is delay·2^k. |
| Backoff.DelaysDouble | worker/index.js:67-68 | Each wait is twice the previous one. |
| Routes.SeatMapKey | backend/routes.js:295 | The key is `screening:` + id + `:seats` (with `null` for a missing screening). |
| Routes.SeatMapKeyInjective | backend/routes.js:295 | Distinct screenings give distinct keys (the same key is cleared again at line 356). No seat-map key is `movies` or `movies_lock`. |
| Routes.BookTx | backend/routes.js:114-150 | Validation errors exactly for ill-formed input, with the validator's reason. "Movie not found" exactly for well-formed input naming no catalogue movie. Otherwise exactly one Pending booking with that movie and name under the fresh id, nothing else changed. Every failure leaves the store unchanged. |
| Routes.BookReplyByCause | backend/routes.js:151-168 | An unknown movie is answered 404 "Movie not found"; every validation failure is answered 400 "Failed to create booking". |
| Routes.RetryStep | backend/routes.js:26-48 | A retried attempt reports its recursive call's result, cache and query count, with one more wait. The retry starts from the cache after the wait, minus the lock deleted by the waiting frame's `finally`; the lock is there only if another client took it again. |
| Routes.FinalStep | backend/routes.js:15-48 | The attempt that ends the call returns the cached rows, gives up for want of the lock, or takes the lock, queries and fills the cache. In each case the lock is deleted at the end. |
| Routes.Backend.LastAttempt | backend/routes.js:15-42 | The final attempt, run on the fields, gives what `GetMovies` gives with no wait; no store table or queue changes. |
| Routes.Backend.GetMoviesWithCache | backend/routes.js:13-49 | The loop returns the result, waits and cache of `GetMovies` with the defaults, deleting the lock on each pass once the retry is under way. Store and queue are untouched. |
| Routes.Backend.Book | backend/routes.js:114-172 | The store becomes `BookTx`'s. The reply is its status mapping. The id is enqueued only on success with a channel. `movies` is dropped only on success. The store invariant is kept. |
| Routes.Backend.CreateBooking | backend/routes.js:233-312 | The store becomes `Reserve`'s, including the rollback of an empty request. The reply is 200 with the booking and seat count, or 400 with the message. The screening's seat-map key is dropped only on success. The invariant is kept. |
| Routes.Backend.ReserveSeats | backend/routes.js:243-300 | The transaction run on the fields: the three tables become `Reserve`'s and the result is `Reserve`'s result, the rollback of an empty request included. |
| Routes.Backend.CancelBooking | backend/routes.js:315-365 | The store becomes `Cancel`'s: any existing booking, whatever its status, is cancelled again and its seats released. The reply is success or 400 "Booking not found". The booking's seat-map key is dropped on success. The invariant is kept unless the booking was already Cancelled. |
| BookingStore.FreeSeats | backend/routes.js:255-262 | The free seats of the screening among those requested. All requested seats are free exactly when none is missing. |
| BookingStore.Reserve | backend/routes.js:243-300 | Non-array input gives NotAnArray. Duplicates give DuplicateSeatIds. A duplicate-free request with any seat not free gives "<requested − free> seats are already booked", and only then. An empty array, and only that, reaches the empty insert and is rolled back. Any failure leaves the store unchanged. On success: one new Confirmed booking, the requested seats (and only they) flagged booked, one association per seat appended, and `booked_seats` equal to the request size. |
| BookingStore.ReserveSucceedsIff | backend/routes.js:243-292 | A reservation succeeds exactly when the input is a non-empty, duplicate-free array of free seats of the screening. |
| BookingStore.LinkedSeats | backend/routes.js:339-344 | The seats associated with a booking. |
| BookingStore.Cancel | backend/routes.js:319-353 | An unknown id gives "Booking not found" and no change. Otherwise, whatever the booking's status: it becomes Cancelled and every associated seat has its flag cleared, with all its other fields kept. Associations and all other seats are kept. The result is the booking's screening. |
| BookingStore.CancelTwice | backend/routes.js:319-353 | Cancelling twice in a row gives the same state and result as cancelling once. |
| StoreInvariant.ReservedLiveness | backend/routes.js:270-290 | Existing associations keep their liveness after a reservation; the new ones are live. |
| StoreInvariant.RequestedSeatsUnheld | backend/routes.js:255-268 | In a consistent store, a seat that passed the availability check is held by no live association. |
| StoreInvariant.ReservedNoOversell | backend/routes.js:270-290 | Adding the new booking's associations keeps every seat held at most once. |
| StoreInvariant.ReservedFlags | backend/routes.js:278-290 | After a reservation every seat flag agrees with the availability view. |
| StoreInvariant.ReservedConsistent | backend/routes.js:270-292 | The store a successful reservation commits is consistent. |
| StoreInvariant.ReservePreservesConsistency | backend/routes.js:233-312 | `POST /bookings` keeps the store consistent, whatever its outcome. |
| StoreInvariant.CancelLivePreservesConsistency | backend/routes.js:315-365 | Cancelling a live booking keeps the store consistent. |
| StoreInvariant.CancelOncePreservesConsistency | backend/routes.js:315-365 | The corrected cancellation keeps the store consistent for every booking. |
| StoreInvariant.AddBookingPreservesConsistency | backend/routes.js:130-134 | Inserting a booking under a fresh id keeps the store consistent. |
| StoreInvariant.LiveStatusChangePreservesConsistency | worker/index.js:44-51 | Moving a booking between live statuses (Pending to Confirmed) keeps the store consistent. |
| StoreInvariant.ReachRebooked | backend/routes.js:233-365 | Reserve b1, cancel b1, reserve b2 on the same seat reaches the state `Rebooked`. |
| StoreInvariant.RecancelOversells | backend/routes.js:319-353 | From `Rebooked` (consistent), cancelling b1 again succeeds and breaks consistency. A third reservation then books the seat held by the Confirmed b2. |
| StoreInvariant.RecancelOnceKeepsSeat | backend/routes.js:319-353 | With the corrected cancellation, the third reservation is refused with "1 seats are already booked". |
| Worker.Process | worker/index.js:39-75 | It never returns false. A true result means the booking was Pending and is now Confirmed, nothing else changed. A throw leaves the bookings unchanged. Attempts are waits + 1 and at most retries + 1. A lost connection, or a ROLLBACK that fails after a failed statement or a missed update, throws at once, without a retry. |
| Worker.NotPendingThrows | worker/index.js:39-71 | A missing, Confirmed or Cancelled booking fails every attempt and the call throws with no change. If no attempt loses its connection or its ROLLBACK, the waits are delay·2^k, there are retries + 1 attempts, and the last attempt's error is thrown. |
| Worker.DefaultNotPending | worker/index.js:39-71 | With the defaults: 4 attempts, waits 1000, 2000, 4000, then a throw. |
| Worker.PendingConfirmedIff | worker/index.js:39-75 | A Pending booking is confirmed exactly when some attempt within the budget commits and every attempt before it failed in a statement and rolled back. |
| Worker.ProcessWaitsDouble | worker/index.js:65-68 | However the call ends, its waits are delay, 2·delay, 4·delay, … |
| Worker.LostConnectionIsNotRetried | worker/index.js:39-75 | A connection lost in the first attempt is thrown at once, with no wait, although a retry would have confirmed the Pending booking. |
| Worker.FailedRollbackIsNotRetried | worker/index.js:63-64 | A statement that fails and a ROLLBACK that fails after it throw at once, with no wait, leaving a Pending booking unchanged. |
| Worker.ProcessKeepsConsistency | worker/index.js:44-62 | The worker's update keeps the store invariant. |
| Worker.Route | worker/index.js:101 | A direct exchange delivers to exactly the queues bound with the message's key. |
| Worker.RejectedReachDeadLetterQueue | worker/index.js:88-101 | With the declared configuration a rejected message reaches `booking_queue.dlq` and only it. |
| Worker.ConfirmationWorker.ProcessBooking | worker/index.js:39-75 | The loop gives `Process`'s outcome, bookings and waits with the defaults. The queues are untouched. |
| Worker.ConfirmationWorker.Deliver | worker/index.js:109-126 | The oldest message is taken off `booking_queue`. It is acked when processing returns true; otherwise it is rejected and lands in the DLQ. Never requeued. The multiset of all messages is preserved. |
| Worker.ConfirmationWorker.Settle | worker/index.js:115-125 | A true result acknowledges the message; anything else rejects it without requeue, which lands it in `booking_queue.dlq`. The bookings and the main queue are untouched. |
| Worker.RedeliveredConfirmedIsRejected | worker/index.js:39-125 | Re-delivering an already-Confirmed booking leaves it Confirmed and throws, so the message is dead-lettered. Without a lost connection or failed ROLLBACK this happens after 4 attempts. |
| BookingForm.Toggle | frontend/src/components/BookingForm.jsx:52-56 | The seat's membership flips and every other seat's is kept. An absent seat is appended at the end. A present seat loses every copy while every other seat keeps its count. |
| Sequences.WithoutCounts | frontend/src/components/BookingForm.jsx:54 | `filter(id => id !== seatId)` drops every copy of the seat and keeps every other id as often as it occurs. |
| Sequences.WithoutAppend | frontend/src/components/BookingForm.jsx:54 | The filter works element by element: filtering a concatenation concatenates the filtered parts, so the kept ids stay in order. |
| BookingForm.ToggleTwiceAbsent | frontend/src/components/BookingForm.jsx:52-58 | Toggling an absent seat twice restores the selection exactly. |
| BookingForm.ToggleTwicePresent | frontend/src/components/BookingForm.jsx:52-58 | Toggling a present seat twice removes its copies and appends it once. |
| BookingForm.ToggleNoDup | frontend/src/components/BookingForm.jsx:52-58 | A duplicate-free selection stays duplicate-free. |
| BookingForm.Form.LoadSeats | frontend/src/components/BookingForm.jsx:37-49 | Loaded seats replace the old ones and the selection is reset to empty. A failed load sets "Failed to load seats" and keeps both. Loading ends false. |
| BookingForm.Form.ChooseScreening | frontend/src/components/BookingForm.jsx:105-108 | Records the screening, then behaves as `LoadSeats`. |
| BookingForm.Form.ToggleSeat | frontend/src/components/BookingForm.jsx:52-58 | The selection becomes `Toggle` of the old one; nothing else changes; no duplicates appear. |
| BookingForm.Form.ClickSeat | frontend/src/components/BookingForm.jsx:149 | A booked seat leaves the selection unchanged; any other seat toggles it. |
| BookingForm.Form.HandleBookSeats | frontend/src/components/BookingForm.jsx:61-85 | An empty selection sets "Please select at least one seat" and posts nothing. Otherwise it posts the selection for user 1. Success alerts the count and navigates to `/bookings`. Failure shows the server's error or "Booking failed". |
| SeatLayout.StrLeTotal | frontend/src/components/BookingForm.jsx:136 | The default string order is total. |
| SeatLayout.StrLeTransitive | frontend/src/components/BookingForm.jsx:136 | The default string order is transitive. |
| SeatLayout.StrLeAntisymmetric | frontend/src/components/BookingForm.jsx:136 | The default string order is antisymmetric. |
| SeatLayout.SortStrings | frontend/src/components/BookingForm.jsx:136 | The sorted rows are ordered and a permutation of the input. |
| SeatLayout.SortByNumber | frontend/src/components/BookingForm.jsx:142 | A row's seats end up ascending by number and are a permutation of the row. |
| SeatLayout.InRow | frontend/src/components/BookingForm.jsx:141 | Exactly the seats of the given row. |
| SeatLayout.LayoutRows | frontend/src/components/BookingForm.jsx:136 | The map's rows are the distinct seat rows, each once, strictly increasing. |
| SeatLayout.GroupsContents | frontend/src/components/BookingForm.jsx:140-143 | Each group is ascending by number and holds exactly its row's seats, with multiplicity. |
| SeatLayout.LayoutCoversEachSeatOnce | frontend/src/components/BookingForm.jsx:136-143 | The flattened map is a permutation of the seat list: every seat appears as often as in the list, under its own row. |
| SeatMap.IdSet.Add | frontend/src/components/SeatMap.jsx:21 | `add` appends an absent id and keeps the set duplicate-free. |
| SeatMap.IdSet.Delete | frontend/src/components/SeatMap.jsx:21 | `delete` removes the id, keeping the others' order and the set duplicate-free. |
| SeatMap.HandleSeatClick | frontend/src/components/SeatMap.jsx:17-24 | A booked seat returns the same set. Otherwise a fresh set equal to `Toggle` of the old one; the old set is not modified. |
| SeatMap.TwoClicksRestoreAbsent | frontend/src/components/SeatMap.jsx:19-23 | Two clicks on an unselected seat restore the selection exactly. |
| SeatMap.TwoClicksRestorePresent | frontend/src/components/SeatMap.jsx:19-23 | Two clicks on a selected seat restore the same set of seats, now with that seat last. |
| SeatMap.PostedIdsPassDuplicateCheck | frontend/src/components/SeatMap.jsx:36 | Ids taken from a set never trip the server's duplicate check. |
| SeatMap.Picker.ClickSeat | frontend/src/components/SeatMap.jsx:17-24 | The picker's selection becomes what `HandleSeatClick` returns; the previous set object is unchanged. |
| SeatMap.Picker.BookSeats | frontend/src/components/SeatMap.jsx:26-45 | An empty selection alerts "Pick at least one seat first!" and posts nothing. Otherwise it posts the set's elements, duplicate-free, and alerts success or "❌ Booking failed: " plus the error. |
| MovieCard.KeepAllowedCounts | frontend/src/components/MovieCard.jsx:22 | The filter keeps every ASCII letter, digit, `-`, `.` and `_` as often as it occurs, and drops every other character. |
| MovieCard.KeepAllowedAppend | frontend/src/components/MovieCard.jsx:22 | The filter works character by character: filtering a concatenation concatenates the filtered parts, so the kept characters stay in order. |
| MovieCard.Sanitize | frontend/src/components/MovieCard.jsx:21-24 | The sanitised name holds only `a-z`, `0-9`, `-`, `.`, `_`, and no white space. |
| MovieCard.WhitespaceStepIsNoOp | frontend/src/components/MovieCard.jsx:22-23 | After the filter no white space remains, so the white-space replacement never changes anything. |
| MovieCard.SanitizeFixedPoints | frontend/src/components/MovieCard.jsx:21-24 | A name is left unchanged exactly when it consists of sanitised characters. |
| MovieCard.SanitizeIdempotent | frontend/src/components/MovieCard.jsx:21-24 | Sanitising twice equals sanitising once. |
| MovieCard.Extension | frontend/src/components/MovieCard.jsx:28 | A dot-free suffix of the name, preceded by a `.` unless it is the whole name. |
| MovieCard.PosterPath | frontend/src/components/MovieCard.jsx:16-35 | A missing or empty URL is refused. A path exists exactly when the sanitised name's extension is jpg, jpeg, png or webp. The path is base + sanitised name. |
| MovieCard.PosterSrc | frontend/src/components/MovieCard.jsx:16-49 | The placeholder for a missing URL, a bad extension or a failed load. Anything else is base + sanitised name; a whitelisted name that loads is shown. |
| MovieCard.Poster.LoadImage | frontend/src/components/MovieCard.jsx:13-56 | The image source becomes `PosterSrc`, and the image is marked loaded on every path. |
| MovieCard.JsRemainder | frontend/src/components/MovieCard.jsx:106 | JavaScript's `%`: the result has the sign of the dividend, its magnitude is below the divisor's, and the dividend minus it is a multiple of the divisor. |
| MovieCard.DurationLabel | frontend/src/components/MovieCard.jsx:101-106 | Nothing for a missing duration, a bare 0 for 0. For d > 0, h and m with 60·h + m = d and 0 ≤ m < 60. For a negative non-whole-hour d the label is one hour short. |
| Text.NatToStringRoundTrip | backend/routes.js:267 | The decimal numeral of a count reads back as that count. |
| Sequences.DistinctLength | backend/routes.js:247-248 | `[...new Set(s)]` has the length of `s` exactly when `s` has no duplicates, and then equals `s`. |

## Left out

- Concurrency is not modelled: interleaved requests, `FOR UPDATE` row locks and the worker's `prefetch(5)`. Each transaction is one atomic step.
- TTL expiry is not modelled. `EX: 10` and `EX: 60` are recorded with the entry but never expire, and waits are returned as numbers, never slept.
- Clients, I/O and randomness become inputs:
  - the result of the movie query (`rows`);
  - what other clients leave in the cache during a wait, and whether one of them takes the lock between the waiting frame's DEL and the retry's SET NX (`later`);
  - store faults in the worker (`faults`): for each attempt, a lost connection, a failed statement, a failed ROLLBACK, or a failed statement followed by a failed ROLLBACK;
  - the server's answer to the client's post;
  - whether the browser loads the poster image.
- `generateId` and the database-assigned booking id are a fresh id supplied by the caller.
- JSON encoding and decoding are taken as lossless, so cached rows are stored and returned as a value.
- `ORDER BY title` is not modelled: the movie rows are taken in catalogue order.
- Store, Redis and broker failures in the route handlers, before or after COMMIT, are not modelled. The model has every such call succeed. A failed enqueue in `POST /book` is one example; a COMMIT that fails after the id was enqueued is another.
- The text of a store failure's message is not modelled.
- `POST /bookings` reads `user_id` from authentication; here it is an input.
- The queue `Backend.Book` sends to and the queue `ConfirmationWorker` consumes are separate objects. Linking the two processes is not modelled.
- `GET /screenings/:id/seats` appears as `BookingStore.ShownBooked` (which seats show as booked). Its duplicate rows for a seat associated with several bookings are not modelled, and neither is its row ordering.
- `connectRabbitMQ`, `startConsumer`, `shutdown`, the health endpoints and the read-only listing routes are not part of this model.
- In SeatMap.jsx the initial seat fetch, its error message and the `onBooked` callback are not part of this model.
- In BookingForm.jsx the screenings fetch and the rendering are not part of this model.
- MovieCard.Poster.LoadImage: the `onError` fallback of the rendered image and the card's hover state are not modelled.
- `user_name.length` counts UTF-16 code units. The model counts characters; they differ only outside the Basic Multilingual Plane.
- Numeric movie ids are unbounded naturals. PostgreSQL's integer range is not modelled.
- SeatLayout.SortByNumber: stability is not stated. Seats with equal numbers in one row keep some order.
- BookingStore.Reserve: the message of the rolled-back empty insert is the store's syntax error, modelled as a fixed string.
- MovieCache.GetMovies: Redis command failures are not modelled: a failed GET, SET NX or SET of `movies`, and a failed DEL that leaves the lock behind. Every Redis command succeeds. The failing movie query (`rows` = `None`) is modelled.
- Worker.Process: a failing `client.release()` is not modelled.
- SeatLayout.StrLe: JavaScript's default sort compares UTF-16 code units. The model compares characters by code point; the orders differ only for characters outside the Basic Multilingual Plane.
- Seat ids (`BookingStore.SeatId`) are integers. A request mixing numbers and numeric strings such as `[1, "1"]` passes the `new Set` duplicate check in the source; the model cannot express it.

## Findings

| source | as written | input that shows it | evidently intended | confidence | as-written member | corrected member |
|---|---|---|---|---|---|---|
| backend/routes.js:26-48 | The retry is returned without `await` inside `try … finally`. The waiting frame's `finally` deletes `movies_lock` while the client that took it is still querying, so the retry takes the lock and queries too. | Client A holds the lock and is querying. Client B misses the cache, waits 100 ms, and the cache is still empty with A's lock still set. B's retry finds the lock gone, takes it and queries the store. | `return await`: a caller waits while another client holds the lock, and queries only once the lock is released. | not executed | MovieCache.WaiterTakesHeldLock | MovieCache.AwaitedWaitsForHolder |
| backend/routes.js:319-353 | Cancelling a booking that is already Cancelled runs again. It clears `is_booked` on every seat the booking was ever associated with, even a seat another live booking now holds. | Seat 1 free. Book b1 = [1], cancel b1, book b2 = [1], cancel b1 again. Seat 1 is now shown free while b2 (Confirmed) holds it, and booking b3 = [1] succeeds: two live bookings on one seat. | Re-cancelling is a no-op success that touches no seat. | not executed | StoreInvariant.RecancelOversells | StoreInvariant.CancelOncePreservesConsistency |
