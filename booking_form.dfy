/** The public booking form: the five field rules that must all hold before
    the form calls the store's create, what the form shows afterwards, and the
    fixed list of event types it offers. Whether a string is a well-formed
    e-mail address is decided by the validation library; it is the parameter
    `isEmail` here. */
module BookingForm {
  import opened Types
  import opened Seqs
  import opened Workflow

  datatype Field = ClientName | ClientEmail | EventType | EventDate | Message

  datatype FieldError = FieldError(field: Field, message: string)

  /** A string's JavaScript `length`: the number of UTF-16 code units, one
      per character up to U+FFFF and two (a surrogate pair) above. */
  function Utf16Len(s: string): (n: nat)
    ensures |s| <= n <= 2 * |s|
    ensures (forall i :: 0 <= i < |s| ==> s[i] as int <= 0xFFFF) ==> n == |s|
  {
    if s == [] then 0
    else (if s[0] as int > 0xFFFF then 2 else 1) + Utf16Len(s[1..])
  }

  /** The rule for one field, the minimum lengths counted as JavaScript
      counts them. */
  predicate FieldOk(d: BookingFormData, f: Field, isEmail: string -> bool)
  {
    match f
    case ClientName => Utf16Len(d.clientName) >= 2
    case ClientEmail => isEmail(d.clientEmail)
    case EventType => Utf16Len(d.eventType) >= 1
    case EventDate => Utf16Len(d.eventDate) >= 1
    case Message => Utf16Len(d.message) >= 10
  }

  /** A single character outside the basic plane is a valid name, and five of
      them a valid message, though each string holds fewer characters than
      the minimum. */
  lemma AstralCharactersCountTwice(isEmail: string -> bool)
    ensures var name := "\U{1F600}";
            |name| == 1 && FieldOk(BookingFormData(name, "", "", "", ""), ClientName, isEmail)
    ensures var message := "\U{1F600}\U{1F600}\U{1F600}\U{1F600}\U{1F600}";
            |message| == 5 && FieldOk(BookingFormData("", "", "", "", message), Message, isEmail)
  {
    var name := "\U{1F600}";
    assert Utf16Len(name) == 2 + Utf16Len(name[1..]);
    var message := "\U{1F600}\U{1F600}\U{1F600}\U{1F600}\U{1F600}";
    assert Utf16Len(message[4..]) == 2 + Utf16Len(message[5..]);
    assert Utf16Len(message[3..]) == 2 + Utf16Len(message[4..]);
    assert Utf16Len(message[2..]) == 2 + Utf16Len(message[3..]);
    assert Utf16Len(message[1..]) == 2 + Utf16Len(message[2..]);
    assert Utf16Len(message) == 2 + Utf16Len(message[1..]);
  }

  /** The message shown when a field's rule fails. */
  function ErrorMessage(f: Field): string
  {
    match f
    case ClientName => "Name must be at least 2 characters"
    case ClientEmail => "Please enter a valid email address"
    case EventType => "Please select an event type"
    case EventDate => "Please select an event date"
    case Message => "Message must be at least 10 characters"
  }

  const Fields: seq<Field> := [ClientName, ClientEmail, EventType, EventDate, Message]

  lemma AllFieldsListed()
    ensures forall f: Field :: f in Fields
  {
    forall f: Field
      ensures f in Fields
    {
      match f
      case ClientName => assert Fields[0] == f;
      case ClientEmail => assert Fields[1] == f;
      case EventType => assert Fields[2] == f;
      case EventDate => assert Fields[3] == f;
      case Message => assert Fields[4] == f;
    }
  }

  /** The fields whose rule fails, in field order. */
  function FailingFields(d: BookingFormData, isEmail: string -> bool): (fs: seq<Field>)
    ensures forall f :: f in fs <==> !FieldOk(d, f, isEmail)
  {
    AllFieldsListed();
    Filter(Fields, (f: Field) => !FieldOk(d, f, isEmail))
  }

  /** One error per field, each with that field's message. */
  function ErrorsFor(fs: seq<Field>): (errors: seq<FieldError>)
    ensures |errors| == |fs|
    ensures forall e :: e in errors <==> e.field in fs && e.message == ErrorMessage(e.field)
  {
    if fs == [] then []
    else [FieldError(fs[0], ErrorMessage(fs[0]))] + ErrorsFor(fs[1..])
  }

  /** The schema's verdict: one error per failing field, in field order, each
      with that field's message; none exactly when all five rules hold. */
  function Validate(d: BookingFormData, isEmail: string -> bool): (errors: seq<FieldError>)
    ensures forall e :: e in errors <==> !FieldOk(d, e.field, isEmail) && e.message == ErrorMessage(e.field)
    ensures errors == [] <==>
              Utf16Len(d.clientName) >= 2 && isEmail(d.clientEmail) && d.eventType != [] &&
              d.eventDate != [] && Utf16Len(d.message) >= 10
  {
    var failing := FailingFields(d, isEmail);
    var errors := ErrorsFor(failing);
    if failing != [] then
      assert failing[0] in failing;
      errors
    else
      assert FieldOk(d, ClientName, isEmail) && FieldOk(d, ClientEmail, isEmail) && FieldOk(d, EventType, isEmail);
      assert FieldOk(d, EventDate, isEmail) && FieldOk(d, Message, isEmail);
      errors
  }

  /** The event types the select offers, after an empty placeholder. */
  const EventTypes: seq<string> :=
    ["Wedding", "Corporate Event", "Birthday Party", "Anniversary", "Conference", "Workshop", "Other"]

  /** Every listed event type passes the event-type rule; the placeholder fails it. */
  lemma EventTypeChoices(d: BookingFormData, isEmail: string -> bool)
    ensures |EventTypes| == 7
    ensures d.eventType in EventTypes ==> FieldOk(d, EventType, isEmail)
    ensures d.eventType == "" ==> !FieldOk(d, EventType, isEmail)
  {
  }

  /** The form after `reset()`: every field empty again. */
  const EmptyForm := BookingFormData("", "", "", "", "")

  /** A reset form cannot be submitted as it is: every rule but the e-mail
      format fails on it. */
  lemma EmptyFormRejected(isEmail: string -> bool)
    ensures forall f :: f != ClientEmail ==> FieldError(f, ErrorMessage(f)) in Validate(EmptyForm, isEmail)
    ensures Validate(EmptyForm, isEmail) != []
  {
    assert !FieldOk(EmptyForm, ClientName, isEmail);
  }

  datatype SubmitOutcome = Invalid(errors: seq<FieldError>) | Created(id: Id) | CreateFailed

  /** Submitting the form: validation first; only a valid form reaches the
      store's create (`createSucceeds` is the store's answer), after which the
      form is reset; after a failure the input stays in the form. */
  method Submit(store: Store, input: BookingFormData, isEmail: string -> bool,
                newId: Id, stamp: string, createSucceeds: bool)
    returns (outcome: SubmitOutcome, form: BookingFormData)
    requires store.Valid() && newId !in store.bookings
    modifies store
    ensures store.Valid()
    ensures outcome.Invalid? <==> Validate(input, isEmail) != []
    ensures outcome.Invalid? ==> outcome.errors == Validate(input, isEmail)
    ensures outcome.Created? <==> Validate(input, isEmail) == [] && createSucceeds
    ensures outcome.Created? ==> outcome.id == newId
    ensures store.bookings ==
              if outcome.Created? then old(store.bookings)[newId := NewBooking(newId, input, stamp)]
              else old(store.bookings)
    ensures store.profiles == old(store.profiles)
    ensures form == if outcome.Created? then EmptyForm else input
  {
    var errors := Validate(input, isEmail);
    if errors != [] {
      return Invalid(errors), input;
    }
    var ok := store.CreateBooking(input, newId, stamp, createSucceeds);
    if ok {
      outcome, form := Created(newId), EmptyForm;
    }
    else {
      outcome, form := CreateFailed, input;
    }
  }
}
