/** The records of the booking workflow: bookings, receipts, user profiles,
    the public booking form and calendar events, with their status and role
    enumerations. Timestamps and dates are opaque strings set by the store or
    typed by the client. */
module Types {

  datatype Option<+T> = None | Some(value: T)

  /** Store-generated row identifier (a UUID string in the store). */
  type Id = string

  /** A booking moves inquiry -> confirmed -> cleared. */
  datatype BookingStatus = Inquiry | Confirmed | Cleared

  datatype Role = Admin | SuperAdmin

  datatype ProfileStatus = PendingAdmin | Active | Revoked

  /** A stored booking. `assignedAdminId` is null (None) until a super-admin
      assigns the inquiry. */
  datatype Booking = Booking(
    id: Id,
    clientName: string,
    clientEmail: string,
    eventType: string,
    eventDate: string,
    message: string,
    status: BookingStatus,
    assignedAdminId: Option<Id>,
    createdAt: string,
    updatedAt: string)

  /** Declared in the schema; no operation of the workflow reads or writes it. */
  datatype Receipt = Receipt(
    id: Id,
    bookingId: Id,
    fileUrl: string,
    amount: real,
    description: string,
    uploadedBy: Id,
    createdAt: string)

  /** A stored user profile; `id` is the id of the auth identity. */
  datatype UserProfile = UserProfile(
    id: Id,
    email: string,
    role: Role,
    status: ProfileStatus,
    createdAt: string,
    updatedAt: string)

  /** What the public form collects: the five client fields and nothing else. */
  datatype BookingFormData = BookingFormData(
    clientName: string,
    clientEmail: string,
    eventType: string,
    eventDate: string,
    message: string)

  datatype EventResource = EventResource(status: BookingStatus, assignedAdmin: Option<Id>)

  /** A calendar entry; the dates are the booking's date string, unparsed. */
  datatype CalendarEvent = CalendarEvent(
    id: Id,
    title: string,
    start: string,
    end: string,
    resource: Option<EventResource>)

  /** The string the store and the views use for a booking status. */
  function StatusName(s: BookingStatus): string
  {
    match s
    case Inquiry => "inquiry"
    case Confirmed => "confirmed"
    case Cleared => "cleared"
  }

  /** Reads a status string back; anything outside the three names is not a status. */
  function ParseStatus(name: string): (r: Option<BookingStatus>)
    ensures r.Some? <==> name == "inquiry" || name == "confirmed" || name == "cleared"
  {
    if name == "inquiry" then Some(Inquiry)
    else if name == "confirmed" then Some(Confirmed)
    else if name == "cleared" then Some(Cleared)
    else None
  }

  /** The three status names are a faithful encoding: parsing undoes naming, and
      every string that parses is the name of what it parses to. */
  lemma StatusNameRoundTrip(s: BookingStatus, name: string)
    ensures ParseStatus(StatusName(s)) == Some(s)
    ensures ParseStatus(name) == Some(s) ==> StatusName(s) == name
  {
  }

  /** The client fields of a booking, as the form submitted them. */
  function FormOf(b: Booking): (d: BookingFormData)
    ensures d.clientName == b.clientName && d.clientEmail == b.clientEmail
    ensures d.eventType == b.eventType && d.eventDate == b.eventDate && d.message == b.message
  {
    BookingFormData(b.clientName, b.clientEmail, b.eventType, b.eventDate, b.message)
  }
}
