/** The ticket registry, the check-in ledger and the validation engine that
    moves a ticket from unused to used.

    The clock, the identifier generator and the SHA-256 digest are outside
    the model: every operation that reads the clock takes the instant `now`,
    every operation that creates a record takes its fresh identifier, and a
    check-in takes the hexadecimal digest from which its QR code is cut. */
module CheckinService {
  import opened Models
  import opened ArrayOps

  const MsgNotFound := "Ticket not found"
  const MsgAlreadyUsed := "Ticket already used for check-in"
  const MsgExpired := "Ticket has expired"
  const MsgTooManyAttempts := "Too many validation attempts"
  const MsgValid := "Ticket is valid"

  /** Validation is refused once a ticket's attempt counter exceeds this. */
  const AttemptLimit := 10

  /** Length of the QR code cut from the digest. */
  const QRCodeLength := 32

  /* ---------------------------------------------------------------------
     The predicates handed to `find` and `filter`
     --------------------------------------------------------------------- */

  function TicketWithId(ticketId: string): Ticket -> bool { (t: Ticket) => t.id == ticketId }
  function TicketWithToken(nftTokenId: string): Ticket -> bool { (t: Ticket) => t.nftTokenId == nftTokenId }
  function TicketForEvent(eventId: string): Ticket -> bool { (t: Ticket) => t.eventId == eventId }
  function TicketUnused(): Ticket -> bool { (t: Ticket) => !t.isUsed }
  function CheckInWithId(checkInId: string): CheckIn -> bool { (c: CheckIn) => c.id == checkInId }
  function CheckInForUser(userId: string): CheckIn -> bool { (c: CheckIn) => c.userId == userId }
  function CheckInForEvent(eventId: string): CheckIn -> bool { (c: CheckIn) => c.eventId == eventId }
  function CheckInForTicket(ticketId: string): CheckIn -> bool { (c: CheckIn) => c.ticketId == ticketId }

  /* ---------------------------------------------------------------------
     Registry and ledger queries
     --------------------------------------------------------------------- */

  /** Position of the first ticket with the given id: the object `getTicket` hands out. */
  function TicketIndex(ts: seq<Ticket>, ticketId: string): (r: Option<nat>)
    ensures r.Some? ==> r.value < |ts| && ts[r.value].id == ticketId
    ensures r.Some? ==> forall k :: 0 <= k < r.value ==> ts[k].id != ticketId
    ensures r.None? <==> forall k :: 0 <= k < |ts| ==> ts[k].id != ticketId
  {
    FindIndex(ts, TicketWithId(ticketId))
  }

  function GetTicket(ts: seq<Ticket>, ticketId: string): (r: Option<Ticket>)
    ensures r.None? <==> forall k :: 0 <= k < |ts| ==> ts[k].id != ticketId
    ensures r.Some? ==> exists i :: 0 <= i < |ts| && ts[i] == r.value && r.value.id == ticketId
                                    && forall k :: 0 <= k < i ==> ts[k].id != ticketId
  {
    Find(ts, TicketWithId(ticketId))
  }

  function GetTicketByNFTToken(ts: seq<Ticket>, nftTokenId: string): (r: Option<Ticket>)
    ensures r.None? <==> forall k :: 0 <= k < |ts| ==> ts[k].nftTokenId != nftTokenId
    ensures r.Some? ==> exists i :: 0 <= i < |ts| && ts[i] == r.value && r.value.nftTokenId == nftTokenId
                                    && forall k :: 0 <= k < i ==> ts[k].nftTokenId != nftTokenId
  {
    Find(ts, TicketWithToken(nftTokenId))
  }

  function GetCheckIn(cs: seq<CheckIn>, checkInId: string): (r: Option<CheckIn>)
    ensures r.None? <==> forall k :: 0 <= k < |cs| ==> cs[k].id != checkInId
    ensures r.Some? ==> exists i :: 0 <= i < |cs| && cs[i] == r.value && r.value.id == checkInId
                                    && forall k :: 0 <= k < i ==> cs[k].id != checkInId
  {
    Find(cs, CheckInWithId(checkInId))
  }

  function GetCheckInByTicket(cs: seq<CheckIn>, ticketId: string): (r: Option<CheckIn>)
    ensures r.None? <==> forall k :: 0 <= k < |cs| ==> cs[k].ticketId != ticketId
    ensures r.Some? ==> exists i :: 0 <= i < |cs| && cs[i] == r.value && r.value.ticketId == ticketId
                                    && forall k :: 0 <= k < i ==> cs[k].ticketId != ticketId
  {
    Find(cs, CheckInForTicket(ticketId))
  }

  function GetUserCheckIns(cs: seq<CheckIn>, userId: string): (r: seq<CheckIn>)
    ensures forall k :: 0 <= k < |r| ==> r[k] in cs && r[k].userId == userId
    ensures forall k :: 0 <= k < |cs| && cs[k].userId == userId ==> cs[k] in r
    ensures |r| == |set k | 0 <= k < |cs| && cs[k].userId == userId|
  {
    UserCheckInsCount(cs, userId);
    Filter(cs, CheckInForUser(userId))
  }

  function GetEventCheckIns(cs: seq<CheckIn>, eventId: string): (r: seq<CheckIn>)
    ensures forall k :: 0 <= k < |r| ==> r[k] in cs && r[k].eventId == eventId
    ensures forall k :: 0 <= k < |cs| && cs[k].eventId == eventId ==> cs[k] in r
    ensures |r| == |set k | 0 <= k < |cs| && cs[k].eventId == eventId|
  {
    EventCheckInsCount(cs, eventId);
    Filter(cs, CheckInForEvent(eventId))
  }

  lemma UserCheckInsCount(cs: seq<CheckIn>, userId: string)
    ensures |Filter(cs, CheckInForUser(userId))| == |set k | 0 <= k < |cs| && cs[k].userId == userId|
  {
    FilterLengthCountsMatches(cs, CheckInForUser(userId));
    assert MatchingIndices(cs, CheckInForUser(userId)) == set k | 0 <= k < |cs| && cs[k].userId == userId;
  }

  lemma EventCheckInsCount(cs: seq<CheckIn>, eventId: string)
    ensures |Filter(cs, CheckInForEvent(eventId))| == |set k | 0 <= k < |cs| && cs[k].eventId == eventId|
  {
    FilterLengthCountsMatches(cs, CheckInForEvent(eventId));
    assert MatchingIndices(cs, CheckInForEvent(eventId)) == set k | 0 <= k < |cs| && cs[k].eventId == eventId;
  }

  /** A new record joins the end of its user's list and of no other user's. */
  lemma UserCheckInsAfterAppend(cs: seq<CheckIn>, c: CheckIn, userId: string)
    ensures GetUserCheckIns(cs + [c], userId) == GetUserCheckIns(cs, userId) + (if c.userId == userId then [c] else [])
  {
    FilterAppend(cs, c, CheckInForUser(userId));
  }

  /** A new record joins the end of its event's list and of no other event's. */
  lemma EventCheckInsAfterAppend(cs: seq<CheckIn>, c: CheckIn, eventId: string)
    ensures GetEventCheckIns(cs + [c], eventId) == GetEventCheckIns(cs, eventId) + (if c.eventId == eventId then [c] else [])
  {
    FilterAppend(cs, c, CheckInForEvent(eventId));
  }

  /** The QR code: the first 32 hexadecimal characters of the SHA-256 digest
      of the ticket id, the token id and the current time. */
  function QRCodeData(digestHex: string): (r: string)
    requires |digestHex| == 64
    ensures |r| == QRCodeLength && r <= digestHex
  {
    digestHex[..QRCodeLength]
  }

  /* ---------------------------------------------------------------------
     Statistics
     --------------------------------------------------------------------- */

  datatype EventStats = EventStats(totalTickets: nat, checkedInCount: nat, checkInRate: real, unusedTickets: nat)

  lemma EventTicketsCount(ts: seq<Ticket>, eventId: string)
    ensures |Filter(ts, TicketForEvent(eventId))| == |set i | 0 <= i < |ts| && ts[i].eventId == eventId|
  {
    FilterLengthCountsMatches(ts, TicketForEvent(eventId));
    assert MatchingIndices(ts, TicketForEvent(eventId)) == set i | 0 <= i < |ts| && ts[i].eventId == eventId;
  }

  lemma UnusedEventTicketsCount(ts: seq<Ticket>, eventId: string)
    ensures |Filter(Filter(ts, TicketForEvent(eventId)), TicketUnused())|
         == |set i | 0 <= i < |ts| && ts[i].eventId == eventId && !ts[i].isUsed|
  {
    var both := Both(TicketForEvent(eventId), TicketUnused());
    FilterFilter(ts, TicketForEvent(eventId), TicketUnused());
    FilterLengthCountsMatches(ts, both);
    assert MatchingIndices(ts, both) == set i | 0 <= i < |ts| && ts[i].eventId == eventId && !ts[i].isUsed;
  }

  function GetEventStatistics(ts: seq<Ticket>, cs: seq<CheckIn>, eventId: string): (s: EventStats)
    ensures s.totalTickets == |set i | 0 <= i < |ts| && ts[i].eventId == eventId|
    ensures s.unusedTickets == |set i | 0 <= i < |ts| && ts[i].eventId == eventId && !ts[i].isUsed|
    ensures s.checkedInCount == |set j | 0 <= j < |cs| && cs[j].eventId == eventId|
    ensures s.unusedTickets <= s.totalTickets
    ensures s.totalTickets == 0 ==> s.checkInRate == 0.0
    ensures s.totalTickets > 0 ==> s.checkInRate == s.checkedInCount as real / s.totalTickets as real * 100.0
  {
    var eventCheckIns := GetEventCheckIns(cs, eventId);
    var eventTickets := Filter(ts, TicketForEvent(eventId));
    var unused := Filter(eventTickets, TicketUnused());
    EventTicketsCount(ts, eventId);
    UnusedEventTicketsCount(ts, eventId);
    EventStats(
      |eventTickets|,
      |eventCheckIns|,
      if |eventTickets| > 0 then |eventCheckIns| as real / |eventTickets| as real * 100.0 else 0.0,
      |unused|)
  }

  /* ---------------------------------------------------------------------
     The store invariant
     --------------------------------------------------------------------- */

  /** A ticket is used exactly when it carries a use time; it has been
      validated exactly when it carries a validation time; validation alone
      never takes the counter past one more than the bound. */
  ghost predicate TicketWellFormed(t: Ticket)
  {
    && (t.isUsed <==> t.usedAt.Some?)
    && (t.validationAttempts == 0 <==> t.lastValidationAttempt.None?)
    && t.validationAttempts <= AttemptLimit + 1
  }

  /** Every stored record is a successful check-in with a full-length QR code. */
  ghost predicate RecordWellFormed(c: CheckIn)
  {
    c.status == Valid && |c.qrCode| == QRCodeLength && c.checkInTime.Some?
  }

  /** The ledger holds a record for the ticket with this id: the same fact as
      `GetCheckInByTicket(cs, ticketId).Some?` (`HasRecordIffFound`),
      stated without the lookup so that the invariant's quantifiers have
      cheap index triggers. */
  ghost predicate HasRecord(cs: seq<CheckIn>, ticketId: string)
  {
    exists j :: 0 <= j < |cs| && cs[j].ticketId == ticketId
  }

  /** The registry holds a ticket with this id: the same fact as
      `GetTicket(ts, ticketId).Some?` (`HasTicketIffFound`), stated without the
      lookup for the same reason. */
  ghost predicate HasTicket(ts: seq<Ticket>, ticketId: string)
  {
    exists i :: 0 <= i < |ts| && ts[i].id == ticketId
  }

  ghost predicate UniqueTicketIds(ts: seq<Ticket>)
  {
    forall i, j :: 0 <= i < j < |ts| ==> ts[i].id != ts[j].id
  }

  ghost predicate UniqueCheckInIds(cs: seq<CheckIn>)
  {
    forall i, j :: 0 <= i < j < |cs| ==> cs[i].id != cs[j].id
  }

  ghost predicate OneRecordPerTicket(cs: seq<CheckIn>)
  {
    forall i, j :: 0 <= i < j < |cs| ==> cs[i].ticketId != cs[j].ticketId
  }

  ghost predicate UsedExactlyWhenRecorded(ts: seq<Ticket>, cs: seq<CheckIn>)
  {
    forall i :: 0 <= i < |ts| ==> (ts[i].isUsed <==> HasRecord(cs, ts[i].id))
  }

  ghost predicate RecordsReferToTickets(ts: seq<Ticket>, cs: seq<CheckIn>)
  {
    forall j :: 0 <= j < |cs| ==> HasTicket(ts, cs[j].ticketId)
  }

  /** What every operation keeps true of the two lists: identifiers are
      unique, a ticket is used exactly when the ledger holds a record for
      it, every record refers to a registered ticket, and no ticket has two
      records. */
  ghost predicate Consistent(ts: seq<Ticket>, cs: seq<CheckIn>)
  {
    && UniqueTicketIds(ts)
    && UniqueCheckInIds(cs)
    && OneRecordPerTicket(cs)
    && (forall i :: 0 <= i < |ts| ==> TicketWellFormed(ts[i]))
    && (forall j :: 0 <= j < |cs| ==> RecordWellFormed(cs[j]))
    && UsedExactlyWhenRecorded(ts, cs)
    && RecordsReferToTickets(ts, cs)
  }

  /** What the operations never undo: no ticket disappears, identifying
      fields and expiry never change, a used ticket stays used with the same
      use time, and the attempt counter never decreases. */
  ghost predicate TicketsEvolve(before: seq<Ticket>, after: seq<Ticket>)
  {
    && |before| <= |after|
    && forall k :: 0 <= k < |before| ==>
         && after[k].id == before[k].id
         && after[k].eventId == before[k].eventId
         && after[k].nftTokenId == before[k].nftTokenId
         && after[k].ticketType == before[k].ticketType
         && after[k].expiresAt == before[k].expiresAt
         && (before[k].isUsed ==> after[k].isUsed && after[k].usedAt == before[k].usedAt)
         && before[k].validationAttempts <= after[k].validationAttempts
  }

  /** An in-place change that keeps a ticket's identity, does not clear its
      use and does not lower its counter is an evolution of the registry. */
  lemma UpdateEvolves(ts: seq<Ticket>, i: nat, u: Ticket)
    requires i < |ts|
    requires u.id == ts[i].id && u.eventId == ts[i].eventId && u.nftTokenId == ts[i].nftTokenId
    requires u.ticketType == ts[i].ticketType && u.expiresAt == ts[i].expiresAt
    requires ts[i].isUsed ==> u.isUsed && u.usedAt == ts[i].usedAt
    requires ts[i].validationAttempts <= u.validationAttempts
    ensures TicketsEvolve(ts, ts[i := u])
  {
  }

  /** Changing a ticket without touching its id leaves every lookup by id where it was. */
  lemma {:induction false} TicketIndexAfterUpdate(ts: seq<Ticket>, i: nat, u: Ticket, ticketId: string)
    requires i < |ts| && u.id == ts[i].id
    ensures TicketIndex(ts[i := u], ticketId) == TicketIndex(ts, ticketId)
  {
    var ts' := ts[i := u];
    match TicketIndex(ts, ticketId)
    case None =>
      assert forall k :: 0 <= k < |ts'| ==> ts'[k].id == ts[k].id;
    case Some(j) =>
      assert forall k :: 0 <= k < |ts'| ==> ts'[k].id == ts[k].id;
      var r := TicketIndex(ts', ticketId);
      assert r.Some?;
      assert !(r.value < j) && !(j < r.value);
  }

  /** `getTicket` returns the ticket at `TicketIndex`. */
  lemma GetTicketAtIndex(ts: seq<Ticket>, ticketId: string)
    ensures TicketIndex(ts, ticketId).Some? ==> GetTicket(ts, ticketId) == Some(ts[TicketIndex(ts, ticketId).value])
    ensures TicketIndex(ts, ticketId).None? ==> GetTicket(ts, ticketId).None?
  {
  }

  /** With unique ids the ticket at a position is the one `getTicket` finds for its id. */
  lemma GetTicketOfMember(ts: seq<Ticket>, i: nat)
    requires UniqueTicketIds(ts) && i < |ts|
    ensures TicketIndex(ts, ts[i].id) == Some(i)
    ensures GetTicket(ts, ts[i].id) == Some(ts[i])
  {
  }

  /** `HasRecord` is exactly what `getCheckInByTicket` reports. */
  lemma HasRecordIffFound(cs: seq<CheckIn>, ticketId: string)
    ensures HasRecord(cs, ticketId) <==> GetCheckInByTicket(cs, ticketId).Some?
  {
  }

  /** `HasTicket` is exactly what `getTicket` reports. */
  lemma HasTicketIffFound(ts: seq<Ticket>, ticketId: string)
    ensures HasTicket(ts, ticketId) <==> GetTicket(ts, ticketId).Some?
  {
  }

  /** In a consistent store `getCheckInByTicket` finds a record for every used ticket and for no other. */
  lemma UsedTicketHasRecord(ts: seq<Ticket>, cs: seq<CheckIn>, i: nat)
    requires Consistent(ts, cs) && i < |ts|
    ensures ts[i].isUsed <==> GetCheckInByTicket(cs, ts[i].id).Some?
  {
  }

  /** In a consistent store every record is the only one for its ticket, and that ticket is used. */
  lemma RecordIsOnlyOneForItsTicket(ts: seq<Ticket>, cs: seq<CheckIn>, j: nat)
    requires Consistent(ts, cs) && j < |cs|
    ensures GetCheckInByTicket(cs, cs[j].ticketId) == Some(cs[j])
    ensures GetTicket(ts, cs[j].ticketId).Some? && GetTicket(ts, cs[j].ticketId).value.isUsed
  {
  }

  /** Registering a ticket under a fresh id keeps the store consistent. */
  lemma RegisterKeepsConsistent(ts: seq<Ticket>, cs: seq<CheckIn>, t: Ticket)
    requires Consistent(ts, cs)
    requires GetTicket(ts, t.id).None?
    requires !t.isUsed && t.usedAt.None? && t.validationAttempts == 0 && t.lastValidationAttempt.None?
    ensures Consistent(ts + [t], cs)
  {
    var ts' := ts + [t];
    forall j | 0 <= j < |cs| ensures HasTicket(ts', cs[j].ticketId) {
      var i :| 0 <= i < |ts| && ts[i].id == cs[j].ticketId;
      assert ts'[i].id == cs[j].ticketId;
    }
    forall i | 0 <= i < |ts| ensures ts'[i] == ts[i] {
    }
  }

  /** Changing a ticket in place without touching its id or its use flag keeps the store consistent. */
  lemma UpdateKeepsConsistent(ts: seq<Ticket>, cs: seq<CheckIn>, i: nat, u: Ticket)
    requires Consistent(ts, cs) && i < |ts|
    requires u.id == ts[i].id && u.isUsed == ts[i].isUsed && TicketWellFormed(u)
    ensures Consistent(ts[i := u], cs)
  {
    var ts' := ts[i := u];
    forall j | 0 <= j < |cs| ensures HasTicket(ts', cs[j].ticketId) {
      var k :| 0 <= k < |ts| && ts[k].id == cs[j].ticketId;
      assert ts'[k].id == cs[j].ticketId;
    }
  }

  /** After a check-in every record, the new one included, still refers to a registered ticket. */
  lemma CheckInKeepsReferences(ts: seq<Ticket>, cs: seq<CheckIn>, i: nat, u: Ticket, c: CheckIn)
    requires RecordsReferToTickets(ts, cs) && i < |ts|
    requires u.id == ts[i].id && c.ticketId == ts[i].id
    ensures RecordsReferToTickets(ts[i := u], cs + [c])
  {
    var ts', cs' := ts[i := u], cs + [c];
    forall j | 0 <= j < |cs'| ensures HasTicket(ts', cs'[j].ticketId) {
      if j < |cs| {
        assert HasTicket(ts, cs[j].ticketId);
        var k :| 0 <= k < |ts| && ts[k].id == cs[j].ticketId;
        assert ts'[k].id == cs'[j].ticketId;
      } else {
        assert ts'[i].id == cs'[j].ticketId;
      }
    }
  }

  /** After a check-in of a ticket that had no record, a ticket is still used exactly when it has one. */
  lemma CheckInKeepsUseRecorded(ts: seq<Ticket>, cs: seq<CheckIn>, i: nat, u: Ticket, c: CheckIn)
    requires UsedExactlyWhenRecorded(ts, cs) && UniqueTicketIds(ts) && i < |ts|
    requires u.id == ts[i].id && u.isUsed && c.ticketId == ts[i].id
    ensures UsedExactlyWhenRecorded(ts[i := u], cs + [c])
  {
    var ts', cs' := ts[i := u], cs + [c];
    forall k | 0 <= k < |ts'| ensures ts'[k].isUsed <==> HasRecord(cs', ts'[k].id) {
      if k != i {
        assert ts'[k] == ts[k] && ts[k].id != c.ticketId;
        if HasRecord(cs', ts'[k].id) {
          var j :| 0 <= j < |cs'| && cs'[j].ticketId == ts'[k].id;
          assert j < |cs| && cs[j].ticketId == ts[k].id;
        }
        if HasRecord(cs, ts[k].id) {
          var j :| 0 <= j < |cs| && cs[j].ticketId == ts[k].id;
          assert cs'[j].ticketId == ts[k].id;
        }
      } else {
        assert cs'[|cs|].ticketId == ts'[k].id;
      }
    }
  }

  /** Marking an unused ticket used while appending its one record keeps the
      store consistent, and the new record is the one found for the ticket. */
  lemma CheckInKeepsConsistent(ts: seq<Ticket>, cs: seq<CheckIn>, i: nat, u: Ticket, c: CheckIn)
    requires Consistent(ts, cs) && i < |ts| && !ts[i].isUsed
    requires u.id == ts[i].id && u.isUsed && TicketWellFormed(u)
    requires c.ticketId == ts[i].id && RecordWellFormed(c)
    requires GetCheckIn(cs, c.id).None?
    ensures Consistent(ts[i := u], cs + [c])
    ensures GetCheckInByTicket(cs + [c], c.ticketId) == Some(c)
    ensures GetTicket(ts[i := u], u.id) == Some(u)
  {
    var ts', cs' := ts[i := u], cs + [c];
    assert !HasRecord(cs, c.ticketId);
    CheckInKeepsReferences(ts, cs, i, u, c);
    CheckInKeepsUseRecorded(ts, cs, i, u, c);
    assert UniqueTicketIds(ts');
    GetTicketOfMember(ts', i);
  }

  /* ---------------------------------------------------------------------
     The service: the two lists and the operations that change them
     --------------------------------------------------------------------- */

  function Rejection(message: string): ValidationResult
  {
    ValidationResult(false, message, None, None, None)
  }

  class CheckInService {
    var tickets: seq<Ticket>
    var checkIns: seq<CheckIn>

    ghost predicate Valid()
      reads this
    {
      Consistent(tickets, checkIns)
    }

    /** The service starts with an empty registry and an empty ledger. */
    constructor ()
      ensures Valid()
      ensures tickets == [] && checkIns == []
    {
      tickets := [];
      checkIns := [];
    }

    /** Stores and returns a new unused, never validated ticket under the
        fresh identifier `id`. */
    method RegisterTicket(eventId: string, nftTokenId: string, ticketType: string, expiresAt: int, id: string)
      returns (ticket: Ticket)
      requires Valid()
      requires GetTicket(tickets, id).None?
      modifies this
      ensures Valid()
      ensures ticket == Ticket(id, eventId, nftTokenId, ticketType, false, None, expiresAt, 0, None)
      ensures tickets == old(tickets) + [ticket] && checkIns == old(checkIns)
      ensures TicketsEvolve(old(tickets), tickets)
    {
      ticket := Ticket(id, eventId, nftTokenId, ticketType, false, None, expiresAt, 0, None);
      RegisterKeepsConsistent(tickets, checkIns, ticket);
      tickets := tickets + [ticket];
    }

    /** Applies the four rejection rules in order; only a ticket that passes
        all of them has its attempt counter bumped and its validation time set. */
    method ValidateTicket(ticketId: string, now: int) returns (r: ValidationResult)
      requires Valid()
      modifies this
      ensures Valid()
      ensures checkIns == old(checkIns)
      ensures old(TicketIndex(tickets, ticketId)).None? ==> r == Rejection(MsgNotFound) && tickets == old(tickets)
      ensures old(TicketIndex(tickets, ticketId)).Some? ==>
        var i := old(TicketIndex(tickets, ticketId)).value;
        var t := old(tickets)[i];
        if t.isUsed then r == Rejection(MsgAlreadyUsed) && tickets == old(tickets)
        else if t.expiresAt < now then r == Rejection(MsgExpired) && tickets == old(tickets)
        else if t.validationAttempts > AttemptLimit then r == Rejection(MsgTooManyAttempts) && tickets == old(tickets)
        else
          && r == ValidationResult(true, MsgValid, Some(t.id), None, Some(t.eventId))
          && tickets == old(tickets)[i := t.(validationAttempts := t.validationAttempts + 1, lastValidationAttempt := Some(now))]
      ensures r.valid <==> tickets != old(tickets)
      ensures TicketIndex(tickets, ticketId) == old(TicketIndex(tickets, ticketId))
      ensures TicketsEvolve(old(tickets), tickets)
    {
      var found := TicketIndex(tickets, ticketId);
      if found.None? {
        return Rejection(MsgNotFound);
      }
      var i := found.value;
      var ticket := tickets[i];
      if ticket.isUsed {
        return Rejection(MsgAlreadyUsed);
      }
      if ticket.expiresAt < now {
        return Rejection(MsgExpired);
      }
      if ticket.validationAttempts > AttemptLimit {
        return Rejection(MsgTooManyAttempts);
      }
      ticket := ticket.(validationAttempts := ticket.validationAttempts + 1, lastValidationAttempt := Some(now));
      UpdateKeepsConsistent(tickets, checkIns, i, ticket);
      UpdateEvolves(tickets, i, ticket);
      TicketIndexAfterUpdate(tickets, i, ticket, ticketId);
      tickets := tickets[i := ticket];
      r := ValidationResult(true, MsgValid, Some(ticket.id), None, Some(ticket.eventId));
    }

    /** Applies the three rejection rules in order; a ticket that passes them
        is marked used and exactly one record, built from the arguments, is
        appended and returned. Neither the attempt counter nor the token and
        event supplied by the caller are checked against the ticket. */
    method PerformCheckIn(
      ticketId: string, userId: string, nftTokenId: string, eventId: string,
      validationMethod: ValidationMethod, location: Option<string>, scannedBy: Option<string>,
      checkInId: string, digestHex: string, now: int)
      returns (r: Option<CheckIn>)
      requires Valid()
      requires GetCheckIn(checkIns, checkInId).None?
      requires |digestHex| == 64
      modifies this
      ensures Valid()
      ensures var found := old(TicketIndex(tickets, ticketId));
        r.Some? <==> found.Some? && !old(tickets)[found.value].isUsed && !(old(tickets)[found.value].expiresAt < now)
      ensures r.None? ==> tickets == old(tickets) && checkIns == old(checkIns)
      ensures r.Some? ==>
        var i := old(TicketIndex(tickets, ticketId)).value;
        && tickets == old(tickets)[i := old(tickets)[i].(isUsed := true, usedAt := Some(now))]
        && r.value == CheckIn(checkInId, ticketId, nftTokenId, userId, eventId, QRCodeData(digestHex),
                              CheckInStatus.Valid, Some(now), validationMethod, location, scannedBy, now, now)
        && checkIns == old(checkIns) + [r.value]
      ensures r.Some? ==> GetCheckInByTicket(checkIns, ticketId) == r
      ensures TicketIndex(tickets, ticketId) == old(TicketIndex(tickets, ticketId))
      ensures TicketsEvolve(old(tickets), tickets) && old(checkIns) <= checkIns
    {
      var found := TicketIndex(tickets, ticketId);
      if found.None? || tickets[found.value].isUsed || tickets[found.value].expiresAt < now {
        r := None;
      } else {
        var i := found.value;
        var ticket := tickets[i].(isUsed := true, usedAt := Some(now));
        var record := CheckIn(checkInId, ticketId, nftTokenId, userId, eventId, QRCodeData(digestHex),
                              CheckInStatus.Valid, Some(now), validationMethod, location, scannedBy, now, now);
        CheckInKeepsConsistent(tickets, checkIns, i, ticket, record);
        UpdateEvolves(tickets, i, ticket);
        TicketIndexAfterUpdate(tickets, i, ticket, ticketId);
        tickets := tickets[i := ticket];
        checkIns := checkIns + [record];
        r := Some(record);
      }
    }
  }
}
