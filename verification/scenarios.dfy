/** Client call sequences on the service, most of them on a fresh store: the behaviours its test
    suite exercises and consequences of the code, derived from the operations'
    contracts alone. */
module Scenarios {
  import opened Models
  import opened CheckinService

  /** A stand-in SHA-256 digest in hexadecimal. */
  const Digest := "9f86d081884c7d659a2feaa0c55ad015a3bf4f1b2b0b822cd15d6c15b0f00a08"

  const Day := 86400000

  /** A ticket valid for a day validates, checks in once with a full QR
      code, and is refused a second check-in. */
  method CheckInOnlyOnce(now: int) returns (v: ValidationResult, first: Option<CheckIn>, second: Option<CheckIn>)
    ensures v.valid && v.message == MsgValid && v.ticketId == Some("ticket-1") && v.eventId == Some("event-123")
    ensures first.Some? && first.value.status == CheckInStatus.Valid && |first.value.qrCode| == QRCodeLength
    ensures first.Some? && first.value.ticketId == "ticket-1" && first.value.userId == "user-789"
    ensures second.None?
  {
    var service := new CheckInService();
    var ticket := service.RegisterTicket("event-123", "nft-token-001", "VIP", now + Day, "ticket-1");
    v := service.ValidateTicket(ticket.id, now);
    first := service.PerformCheckIn(ticket.id, "user-789", "nft-token-001", "event-123", Qr,
                                    Some("Main Entrance"), Some("scanner-01"), "check-in-1", Digest, now);
    second := service.PerformCheckIn(ticket.id, "user-789", "nft-token-001", "event-123", Qr,
                                     None, None, "check-in-2", Digest, now);
  }

  /** A ticket that expired a second ago fails validation as expired and
      cannot be checked in; it stays unused. */
  method ExpiredTicketIsRejected(now: int) returns (v: ValidationResult, attempt: Option<CheckIn>, after: Ticket)
    ensures !v.valid && v.message == MsgExpired
    ensures attempt.None?
    ensures !after.isUsed && after.validationAttempts == 0
  {
    var service := new CheckInService();
    var ticket := service.RegisterTicket("event-123", "nft-token-001", "VIP", now - 1000, "ticket-1");
    v := service.ValidateTicket(ticket.id, now);
    attempt := service.PerformCheckIn(ticket.id, "user-789", "nft-token-001", "event-123", Qr,
                                      None, None, "check-in-1", Digest, now);
    after := service.tickets[0];
  }

  /** A ticket expiring at this very instant is not yet expired. */
  method ExpiryInstantIsStillValid(now: int) returns (v: ValidationResult)
    ensures v.valid
  {
    var service := new CheckInService();
    var ticket := service.RegisterTicket("event-123", "nft-token-001", "VIP", now, "ticket-1");
    v := service.ValidateTicket(ticket.id, now);
  }

  /** Two tickets for one event, one checked in: half the tickets are in. */
  method HalfCheckedIn(now: int) returns (stats: EventStats)
    ensures stats == EventStats(2, 1, 50.0, 1)
  {
    var service := new CheckInService();
    var t1 := service.RegisterTicket("event-123", "nft-s1", "VIP", now + Day, "ticket-1");
    var t2 := service.RegisterTicket("event-123", "nft-s2", "Standard", now + Day, "ticket-2");
    assert TicketIndex(service.tickets, t1.id) == Some(0);
    var c := service.PerformCheckIn(t1.id, "user-789", "nft-s1", "event-123", Qr, None, None, "check-in-1", Digest, now);
    var ts, cs := service.tickets, service.checkIns;
    assert ts == [t1.(isUsed := true, usedAt := Some(now)), t2] && |cs| == 1 && cs[0].eventId == "event-123";
    TwoTicketsOneIn(ts, cs, "event-123");
    stats := GetEventStatistics(ts, cs, "event-123");
  }

  lemma TwoTicketsOneIn(ts: seq<Ticket>, cs: seq<CheckIn>, eventId: string)
    requires |ts| == 2 && ts[0].eventId == eventId && ts[1].eventId == eventId && ts[0].isUsed && !ts[1].isUsed
    requires |cs| == 1 && cs[0].eventId == eventId
    ensures GetEventStatistics(ts, cs, eventId) == EventStats(2, 1, 50.0, 1)
  {
  }

  /** The event named in the check-in request is not compared with the
      ticket's: the record lands in another event's statistics, which then
      count a check-in without any ticket. */
  method CheckInUnderAnotherEvent(now: int) returns (claimed: EventStats, actual: EventStats)
    ensures claimed.totalTickets == 0 && claimed.checkedInCount == 1 && claimed.checkInRate == 0.0
    ensures actual.totalTickets == 1 && actual.unusedTickets == 0 && actual.checkedInCount == 0
  {
    var service := new CheckInService();
    var ticket := service.RegisterTicket("event-A", "nft-a", "VIP", now + Day, "ticket-1");
    var c := service.PerformCheckIn(ticket.id, "user-789", "nft-b", "event-B", Manual, None, None, "check-in-1", Digest, now);
    var ts, cs := service.tickets, service.checkIns;
    OneTicketCheckedInElsewhere(ts, cs, "event-A", "event-B");
    claimed := GetEventStatistics(ts, cs, "event-B");
    actual := GetEventStatistics(ts, cs, "event-A");
  }

  lemma OneTicketCheckedInElsewhere(ts: seq<Ticket>, cs: seq<CheckIn>, ticketEvent: string, recordEvent: string)
    requires ticketEvent != recordEvent
    requires |ts| == 1 && ts[0].eventId == ticketEvent && ts[0].isUsed
    requires |cs| == 1 && cs[0].eventId == recordEvent
    ensures GetEventStatistics(ts, cs, recordEvent) == EventStats(0, 1, 0.0, 0)
    ensures GetEventStatistics(ts, cs, ticketEvent) == EventStats(1, 0, 0.0, 0)
  {
  }

  /** Eleven validations succeed and the twelfth is refused for too many
      attempts; check-in ignores the counter and still succeeds. */
  method ThrottledTicketStillChecksIn(now: int) returns (eleventh: ValidationResult, twelfth: ValidationResult, c: Option<CheckIn>)
    ensures eleventh.valid
    ensures !twelfth.valid && twelfth.message == MsgTooManyAttempts
    ensures c.Some?
  {
    var service := new CheckInService();
    var ticket := service.RegisterTicket("event-123", "nft-token-001", "VIP", now + Day, "ticket-1");
    eleventh := service.ValidateTicket(ticket.id, now);
    var k := 1;
    while k < AttemptLimit + 1
      invariant 1 <= k <= AttemptLimit + 1
      invariant service.Valid() && service.checkIns == []
      invariant service.tickets == [ticket.(validationAttempts := k, lastValidationAttempt := Some(now))]
      invariant eleventh.valid
    {
      eleventh := service.ValidateTicket(ticket.id, now);
      k := k + 1;
    }
    twelfth := service.ValidateTicket(ticket.id, now);
    c := service.PerformCheckIn(ticket.id, "user-789", "nft-token-001", "event-123", Qr, None, None, "check-in-1", Digest, now);
  }

  /** Whatever the store holds, a ticket is checked in at most once: after a
      success the repeat is refused at any instant, and after a refusal a
      repeat at the same instant or later is refused too. */
  method CheckInTwice(
    service: CheckInService, ticketId: string, userId: string, nftTokenId: string, eventId: string,
    firstId: string, secondId: string, now: int, later: int)
    returns (first: Option<CheckIn>, second: Option<CheckIn>)
    requires service.Valid()
    requires firstId != secondId
    requires GetCheckIn(service.checkIns, firstId).None? && GetCheckIn(service.checkIns, secondId).None?
    modifies service
    ensures service.Valid()
    ensures first.Some? ==> second.None?
    ensures now <= later ==> second.None?
    ensures first.Some? ==> service.checkIns == old(service.checkIns) + [first.value]
  {
    first := service.PerformCheckIn(ticketId, userId, nftTokenId, eventId, Qr, None, None, firstId, Digest, now);
    second := service.PerformCheckIn(ticketId, userId, nftTokenId, eventId, Qr, None, None, secondId, Digest, later);
  }
}
