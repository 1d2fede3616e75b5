/** The record shapes the check-in service stores and returns: tickets,
    check-in records and validation results. JavaScript numbers used as
    millisecond timestamps and counters are unbounded integers here. */
module Models {

  datatype Option<T> = None | Some(value: T)

  /** How the ticket was presented at the door. */
  datatype ValidationMethod = Qr | Manual

  /** The status a check-in record may carry; the service only ever writes Valid. */
  datatype CheckInStatus = Valid | Invalid | AlreadyUsed | Expired

  /** An admission right bound to one token. `usedAt` and
      `lastValidationAttempt` are the optional fields of the record. */
  datatype Ticket = Ticket(
    id: string,
    eventId: string,
    nftTokenId: string,
    ticketType: string,
    isUsed: bool,
    usedAt: Option<int>,
    expiresAt: int,
    validationAttempts: nat,
    lastValidationAttempt: Option<int>)

  /** One completed admission. */
  datatype CheckIn = CheckIn(
    id: string,
    ticketId: string,
    nftTokenId: string,
    userId: string,
    eventId: string,
    qrCode: string,
    status: CheckInStatus,
    checkInTime: Option<int>,
    validationMethod: ValidationMethod,
    location: Option<string>,
    scannedBy: Option<string>,
    createdAt: int,
    updatedAt: int)

  /** The answer to a validation request. */
  datatype ValidationResult = ValidationResult(
    valid: bool,
    message: string,
    ticketId: Option<string>,
    userId: Option<string>,
    eventId: Option<string>)
}
