/** The interest calendar: one calendar event per booking, and the colour each
    event is drawn in. Dates stay the booking's date string (the calendar
    widget parses them). */
module Calendar {
  import opened Types

  /** The event drawn for one booking. */
  function ToEvent(b: Booking): (e: CalendarEvent)
    ensures e.id == b.id
    ensures e.title == b.eventType + " - " + b.clientName
    ensures e.start == b.eventDate && e.end == b.eventDate
    ensures e.resource == Some(EventResource(b.status, b.assignedAdminId))
  {
    CalendarEvent(
      b.id,
      b.eventType + " - " + b.clientName,
      b.eventDate,
      b.eventDate,
      Some(EventResource(b.status, b.assignedAdminId)))
  }

  /** `bookings.map(...)`: one event per booking, in the same order. */
  function Events(bs: seq<Booking>): (es: seq<CalendarEvent>)
    ensures |es| == |bs|
    ensures forall i :: 0 <= i < |bs| ==> es[i].id == bs[i].id && es[i] == ToEvent(bs[i])
  {
    seq(|bs|, i requires 0 <= i < |bs| => ToEvent(bs[i]))
  }

  const Amber := "#F59E0B"
  const Green := "#059669"
  const Purple := "#7C3AED"
  const DefaultBlue := "#3B82F6"

  /** The colour of a status, as the pie chart uses it too; never the default. */
  function StatusColour(s: BookingStatus): (c: string)
    ensures c != DefaultBlue
    ensures c in {Amber, Green, Purple}
  {
    match s
    case Inquiry => Amber
    case Confirmed => Green
    case Cleared => Purple
  }

  /** The style getter's background: by the resource's status, blue when the
      event carries no resource. */
  function EventColour(e: CalendarEvent): (c: string)
    ensures c == DefaultBlue <==> e.resource.None?
    ensures e.resource.Some? ==> c == StatusColour(e.resource.value.status)
  {
    match e.resource
    case None => DefaultBlue
    case Some(r) => StatusColour(r.status)
  }

  /** Each status has its own colour, and a booking's event is always drawn in
      its status colour, never the default. */
  lemma BookingColours(b: Booking, s: BookingStatus, t: BookingStatus)
    ensures StatusColour(s) == StatusColour(t) <==> s == t
    ensures EventColour(ToEvent(b)) == StatusColour(b.status) != DefaultBlue
  {
  }
}
