# Check-in validation service: a Dafny model

This project models the core of an event check-in validation service. The
service issues tickets bound to an NFT token id, validates them on demand
with a per-ticket attempt limit, and records one check-in per ticket. Two
in-memory lists hold all of its state: the ticket registry and the check-in
ledger.

- `models.dfy` (module `Models`) gives the record shapes `Ticket`, `CheckIn`
  and `ValidationResult` as datatypes. Optional fields become `Option`.
- `array_ops.dfy` (module `ArrayOps`) models the two JavaScript array
  queries the service is built on. `Find` returns the first match and
  `Filter` keeps the matches in order. Their lemmas cover order under
  append, multiplicity and length as a count of matching positions.
- `checkin_service.dfy` (module `CheckinService`) holds the rest:
  - the lookups and `GetEventStatistics` as functions over the two sequences;
  - the store invariant `Consistent`;
  - one lemma per operation proving that the operation keeps the invariant;
  - the class `CheckInService`, whose fields `tickets` and `checkIns` are the
    two lists. `RegisterTicket`, `ValidateTicket` and `PerformCheckIn` change
    them in place.
- `scenarios.dfy` (module `Scenarios`) has client call sequences, most of them on a fresh store. They
  are the behaviours the test suite exercises and consequences of the code,
  proved from the operations' contracts alone.

`Consistent` states that:

- ticket ids and check-in ids are unique;
- a ticket is used exactly when the ledger holds a record for its id;
- every record refers to a registered ticket;
- no ticket has two records;
- a ticket has `usedAt` exactly when it is used;
- a ticket has `lastValidationAttempt` exactly when it has been validated;
- the attempt counter never passes 11;
- every record has status `valid` and a 32-character QR code.

`TicketsEvolve` states what no operation undoes:

- identifying fields and expiry never change;
- `isUsed` never goes back to false, and `usedAt` never changes once set;
- the attempt counter never decreases.

Three details of the code are kept as written:

- `performCheckIn` does not look at the attempt counter.
- `performCheckIn` does not compare the request's `nftTokenId` or `eventId`
  with the ticket's. The record copies the arguments.
- Expiry is `expiresAt < now`, so a ticket expiring at this very instant is
  still valid.

`CheckInUnderAnotherEvent` shows a consequence of the second point. A
check-in that names another event is counted in that event's statistics,
which then report a check-in with no ticket.

`validationAttempts` counts successful validations only. The four rejection
checks return before the increment (src/services/checkinService.ts:37-55), so
a rejected call changes nothing.

## Model

| member | source | states |
|---|---|---|
| ArrayOps.FindIndex | src/services/checkinService.ts:27-33 | the position returned matches and no earlier position does; no position matches when nothing is returned |
| ArrayOps.Find | src/services/checkinService.ts:27-33 | `find` returns nothing exactly when no element matches, otherwise the element at the first matching position |
| ArrayOps.Filter | src/services/checkinService.ts:109-115 | `filter` returns only matching elements of the input, every matching element appears, and it is never longer than the input |
| ArrayOps.FilterConcat | src/services/checkinService.ts:109-115 | filtering a concatenation is the concatenation of the filtered parts, so insertion order is kept |
| ArrayOps.FilterAppend | src/services/checkinService.ts:101-115 | appending one element extends the filtered list by that element exactly when it matches |
| ArrayOps.FilterMultiplicity | src/services/checkinService.ts:109-115 | a matching element is kept as many times as it occurs, and a non-matching one is dropped |
| ArrayOps.FilterFilter | src/services/checkinService.ts:137-143 | filtering the filtered list by a second predicate is filtering by both |
| ArrayOps.MatchingIndicesAppend | src/services/checkinService.ts:137-143 | appending an element adds one matching position exactly when it matches |
| ArrayOps.FilterLengthCountsMatches | src/services/checkinService.ts:140-143 | the length of a filter equals the number of positions whose element matches |
| CheckinService.TicketIndex | src/services/checkinService.ts:27-29 | the position of the first ticket with the id, or nothing when no ticket has it |
| CheckinService.GetTicket | src/services/checkinService.ts:27-29 | nothing exactly when no ticket has the id, otherwise the first ticket with that id |
| CheckinService.GetTicketByNFTToken | src/services/checkinService.ts:31-33 | nothing exactly when no ticket has the token, otherwise the first ticket with that token |
| CheckinService.GetCheckIn | src/services/checkinService.ts:105-107 | nothing exactly when no record has the id, otherwise the first record with that id |
| CheckinService.GetCheckInByTicket | src/services/checkinService.ts:117-119 | nothing exactly when no record names the ticket, otherwise the first record that does |
| CheckinService.GetUserCheckIns | src/services/checkinService.ts:109-111 | exactly the records of that user, as many as there are positions holding one |
| CheckinService.GetEventCheckIns | src/services/checkinService.ts:113-115 | exactly the records of that event, as many as there are positions holding one |
| CheckinService.UserCheckInsCount | src/services/checkinService.ts:109-111 | the user's list is as long as the number of ledger positions with that user |
| CheckinService.EventCheckInsCount | src/services/checkinService.ts:113-115 | the event's list is as long as the number of ledger positions with that event |
| CheckinService.UserCheckInsAfterAppend | src/services/checkinService.ts:101-111 | a new record goes to the end of its own user's list and leaves every other user's list unchanged |
| CheckinService.EventCheckInsAfterAppend | src/services/checkinService.ts:101-115 | a new record goes to the end of its own event's list and leaves every other event's list unchanged |
| CheckinService.QRCodeData | src/services/checkinService.ts:121-125 | the QR code is 32 characters long and is a prefix of the hexadecimal digest |
| CheckinService.EventTicketsCount | src/services/checkinService.ts:137-140 | the event's ticket list is as long as the number of registry positions with that event |
| CheckinService.UnusedEventTicketsCount | src/services/checkinService.ts:137-143 | the unused tickets of the event number as many as registry positions with that event and not used |
| CheckinService.GetEventStatistics | src/services/checkinService.ts:135-145 | total, unused and checked-in are the counts of matching tickets, unused matching tickets and matching records; unused never exceeds total; the rate is 0 with no tickets, else checked-in over total times 100 |
| CheckinService.UpdateEvolves | src/services/checkinService.ts:54-55 | an in-place change that keeps identity, does not clear a use and does not lower the counter is an evolution of the registry |
| CheckinService.TicketIndexAfterUpdate | src/services/checkinService.ts:54-55 | changing a ticket without changing its id leaves every lookup by id at the same position |
| CheckinService.GetTicketAtIndex | src/services/checkinService.ts:27-29 | `getTicket` returns the ticket at the first matching position, and nothing when there is none |
| CheckinService.GetTicketOfMember | src/services/checkinService.ts:15-29 | with unique ids, looking up a stored ticket's id finds exactly that ticket at its position |
| CheckinService.HasRecordIffFound | src/services/checkinService.ts:117-119 | the invariant's "the ledger holds a record for this ticket" holds exactly when `getCheckInByTicket` finds one |
| CheckinService.HasTicketIffFound | src/services/checkinService.ts:27-29 | the invariant's "a ticket with this id is registered" holds exactly when `getTicket` finds one |
| CheckinService.UsedTicketHasRecord | src/services/checkinService.ts:81-119 | in a consistent store, `getCheckInByTicket` finds a record for a ticket exactly when the ticket is used |
| CheckinService.RecordIsOnlyOneForItsTicket | src/services/checkinService.ts:74-102 | in a consistent store, each record is the one found for its ticket, and that ticket exists and is used |
| CheckinService.RegisterKeepsConsistent | src/services/checkinService.ts:8-25 | appending a fresh unused, unvalidated ticket keeps the store invariant |
| CheckinService.UpdateKeepsConsistent | src/services/checkinService.ts:50-55 | changing a ticket in place without touching its id or use flag keeps the store invariant |
| CheckinService.CheckInKeepsReferences | src/services/checkinService.ts:85-101 | after a check-in, every record, the new one included, refers to a registered ticket |
| CheckinService.CheckInKeepsUseRecorded | src/services/checkinService.ts:81-101 | after marking the ticket used and appending its record, a ticket is used exactly when it has a record |
| CheckinService.CheckInKeepsConsistent | src/services/checkinService.ts:74-102 | marking an unused ticket used and appending its record keeps the invariant; the new record is the one found for the ticket and the ticket is the one found for its id |
| CheckinService.CheckInService.constructor | src/services/checkinService.ts:5-6 | the service starts with both lists empty and consistent |
| CheckinService.CheckInService.RegisterTicket | src/services/checkinService.ts:8-25 | exactly one ticket is appended, with the given fields, unused, zero attempts and no times; earlier tickets and the ledger are unchanged; the invariant is kept |
| CheckinService.CheckInService.ValidateTicket | src/services/checkinService.ts:35-63 | the rules apply in order, first match wins: not found, used, expired (`expiresAt < now`), more than 10 attempts. Each rejection returns its message and changes nothing. Success returns the ticket's id and event, adds exactly 1 to that ticket's counter, stamps `now`, and changes nothing else. The state changes exactly when the result is valid |
| CheckinService.CheckInService.PerformCheckIn | src/services/checkinService.ts:65-103 | the call succeeds exactly when the ticket exists, is unused and is not expired; otherwise nothing changes. On success only that ticket changes (used, `usedAt = now`), and exactly one record is appended and returned: status valid, fields copied from the arguments. It becomes the record found for the ticket; lookups by id do not move; the invariant is kept |
| Scenarios.CheckInOnlyOnce | tests/checkin.test.ts:94-108 | a ticket valid for a day validates, checks in once with a valid 32-character record, and a second check-in is refused |
| Scenarios.ExpiredTicketIsRejected | tests/checkin.test.ts:57-64 | a ticket that expired a second ago fails validation with the expiry message, cannot be checked in and stays unused |
| Scenarios.ExpiryInstantIsStillValid | src/services/checkinService.ts:46-48 | a ticket expiring exactly now still validates |
| Scenarios.HalfCheckedIn | tests/checkin.test.ts:152-154 | the test's set-up run on a fresh store (two tickets for an event, one checked in) gives total 2, checked in 1, rate 50, unused 1 |
| Scenarios.TwoTicketsOneIn | src/services/checkinService.ts:135-145 | the statistics of two tickets of one event, one used, with one record for it, are 2, 1, 50, 1 |
| Scenarios.CheckInUnderAnotherEvent | src/services/checkinService.ts:86-90 | a check-in naming another event counts there with no ticket (rate 0) and not for the ticket's own event |
| Scenarios.OneTicketCheckedInElsewhere | src/services/checkinService.ts:135-145 | the statistics for one used ticket whose record names another event: that event shows 0, 1, 0, 0 and the ticket's own event shows 1, 0, 0, 0 |
| Scenarios.ThrottledTicketStillChecksIn | src/services/checkinService.ts:50-78 | eleven validations succeed, the twelfth is refused for too many attempts, and a check-in still succeeds |
| Scenarios.CheckInTwice | src/services/checkinService.ts:74-82 | from any consistent store, once a check-in of a ticket succeeds, a second one for it is refused at any instant; if the first was refused, so is a second at the same instant or later |

## Left out

- The Express layer is not part of this model. That covers
  src/controllers/checkinController.ts, src/routes/checkin.ts, src/app.ts
  and src/index.ts: field-presence checks, mapping results to HTTP status
  codes, CORS, the health endpoint and `listen`. It is I/O plumbing around
  the core.
- `uuidv4()` is replaced by identifiers the caller supplies. `RegisterTicket`
  and `PerformCheckIn` require their id to be unused in the registry or the
  ledger, which is the uniqueness a UUID provides.
- `Date.now()` is an argument `now`. The source reads the clock several
  times in one call (lines 46 and 55; lines 78, 82, 93, 97, 98 and 123). The
  model uses one instant for all of them.
- The SHA-256 digest (src/services/checkinService.ts:121-125) is a foreign
  call. `PerformCheckIn` takes the 64-character hexadecimal digest as an
  argument, and `QRCodeData` cuts its first 32 characters. The hashed
  message is not modelled.
- CheckinService.GetEventStatistics: `checkInRate` is an exact `real`. The
  JavaScript floating-point division and its rounding are not modelled.
- Object aliasing is not modelled. `registerTicket` and `getTicket` hand
  out the stored objects themselves, so a caller's reference sees later
  changes. The model returns values.
- `getAllTickets` and `getAllCheckIns`, which expose the lists by
  reference, are not modelled. Neither is the unused `QRCodeData`
  interface.
- JavaScript numbers are unbounded integers here. Fractional timestamps,
  NaN and the precision limit of a double are not modelled.
- Concurrency is not modelled. The service is synchronous and
  single-threaded, so a sequential model covers the mark-used-and-append
  pair.
