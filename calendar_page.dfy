/**
 * client/src/pages/Calendar.jsx: the new-appointment form. The input
 * handlers are functions from the old page state to the new one; the
 * submit handler, which works through its checks step by step and may
 * create a contact on the way, is a method.
 */
module CalendarPage {
  import opened Options
  import opened TextRules
  import opened JsValues
  import opened JsArrays
  import opened ContactSearch
  import JsonDb
  import ApiServer

  datatype AppointmentForm = AppointmentForm(
    contactId: string, contactName: string, contactPhone: string,
    time: string, service: string, amount: string, paymentType: string,
    isNewContact: bool)

  /** The form as a click on a day resets it. */
  const BlankForm := AppointmentForm("", "", "", "09:00", "", "", "cash", false)

  /** The form, the text in the customer search box and whether its result list is open. */
  datatype CalendarState = CalendarState(form: AppointmentForm, searchTerm: string, showResults: bool)

  /** A click on a day: a blank form and an empty search box. */
  function DateClick(state: CalendarState): (s: CalendarState)
    ensures s.form == BlankForm && s.searchTerm == "" && s.showResults == state.showResults
  {
    state.(form := BlankForm, searchTerm := "")
  }

  /**
   * Typing in the customer box: text with a digit is ignored; any other text
   * becomes the search term and the name of a new customer, drops the
   * selected contact and opens the result list.
   */
  function SearchChange(state: CalendarState, value: string): (s: CalendarState)
    ensures ContainsDigit(value) ==> s == state
    ensures !ContainsDigit(value) ==>
      && s.searchTerm == value && s.showResults
      && s.form == state.form.(contactName := value, contactId := "", isNewContact := true)
  {
    if ContainsDigit(value) then state
    else CalendarState(state.form.(contactName := value, contactId := "", isNewContact := true), value, true)
  }

  /** Typing in the phone box of a new customer: kept only when the phone filter accepts it. */
  function PhoneChange(state: CalendarState, value: string): (s: CalendarState)
    ensures s.form.contactPhone == value <==> AcceptsPhoneInput(value) || value == state.form.contactPhone
    ensures s == state.(form := state.form.(contactPhone := s.form.contactPhone))
    ensures !AcceptsPhoneInput(value) ==> s == state
  {
    if AcceptsPhoneInput(value) then state.(form := state.form.(contactPhone := value)) else state
  }

  /** Picking a contact from the result list. */
  function SelectContact(state: CalendarState, c: Contact): (s: CalendarState)
    ensures s.form.contactId == c.id && s.form.contactName == c.name && s.form.contactPhone == c.phone
    ensures !s.form.isNewContact && !s.showResults && s.searchTerm == c.name
    ensures s.form == state.form.(contactId := c.id, contactName := c.name, contactPhone := c.phone, isNewContact := false)
  {
    CalendarState(state.form.(contactId := c.id, contactName := c.name, contactPhone := c.phone, isNewContact := false),
                  c.name, false)
  }

  /** Focus on the search box opens the result list; a click outside it closes the list. */
  function SetResultsOpen(state: CalendarState, open: bool): (s: CalendarState)
    ensures s.showResults == open && s.form == state.form && s.searchTerm == state.searchTerm
  {
    state.(showResults := open)
  }

  /** The result list under the search box: absent unless it is open and the term is not empty. */
  function ContactResults(state: CalendarState, contacts: seq<Contact>): (r: Option<seq<Contact>>)
    ensures r.Some? <==> state.showResults && state.searchTerm != ""
    ensures r.Some? ==> forall c :: c in r.value <==> c in contacts && SearchMatches(c, state.searchTerm)
  {
    if state.showResults && state.searchTerm != "" then Some(FilterContacts(contacts, state.searchTerm)) else None
  }

  /** A form that says "new customer" has no selected contact. */
  predicate Consistent(state: CalendarState) {
    state.form.isNewContact ==> state.form.contactId == ""
  }

  /** Every handler keeps the form consistent, starting from a click on a day. */
  lemma HandlersKeepConsistent(state: CalendarState, value: string, c: Contact, open: bool)
    ensures Consistent(DateClick(state))
    ensures Consistent(state) ==> Consistent(SearchChange(state, value))
    ensures Consistent(state) ==> Consistent(PhoneChange(state, value))
    ensures Consistent(SelectContact(state, c))
    ensures Consistent(state) ==> Consistent(SetResultsOpen(state, open))
  {
  }

  // ------------------------------------------------------------ the date

  /** A calendar day of the proleptic Gregorian calendar. */
  datatype Day = Day(year: nat, month: nat, day: nat)

  predicate IsLeapYear(y: nat) {
    (y % 4 == 0 && y % 100 != 0) || y % 400 == 0
  }

  function DaysInMonth(y: nat, m: nat): nat
    requires 1 <= m <= 12
  {
    if m == 2 then (if IsLeapYear(y) then 29 else 28)
    else if m in {4, 6, 9, 11} then 30
    else 31
  }

  predicate ValidDay(d: Day) {
    1 <= d.month <= 12 && 1 <= d.day <= DaysInMonth(d.year, d.month)
  }

  /** `format(day, 'yyyy-MM-dd')`: year padded to four digits, month and day to two. */
  function FormatDay(d: Day): string {
    PadDigits(d.year, 4) + "-" + PadDigits(d.month, 2) + "-" + PadDigits(d.day, 2)
  }

  /** The `date` of an appointment: the day, `T`, the time of day, and `:00`. */
  function DateTime(d: Day, time: string): string {
    FormatDay(d) + "T" + time + ":00"
  }

  /** For a four-digit year the day string has the fixed layout and reads back as the day. */
  lemma FormatDayLayout(d: Day)
    requires ValidDay(d) && d.year < 10000
    ensures var s := FormatDay(d);
      && |s| == 10 && s[4] == '-' && s[7] == '-'
      && AllDigits(s[..4]) && AllDigits(s[5..7]) && AllDigits(s[8..])
      && ParseDigits(s[..4]) == d.year && ParseDigits(s[5..7]) == d.month && ParseDigits(s[8..]) == d.day
  {
    assert Pow10(4) == 10000 && Pow10(2) == 100;
    PadWidth(d.year, 4);
    PadWidth(d.month, 2);
    PadWidth(d.day, 2);
    PadRoundTrip(d.year, 4);
    PadRoundTrip(d.month, 2);
    PadRoundTrip(d.day, 2);
    var s := FormatDay(d);
    assert s[..4] == PadDigits(d.year, 4);
    assert s[5..7] == PadDigits(d.month, 2);
    assert s[8..] == PadDigits(d.day, 2);
  }

  /** Different days give different strings, and the time of day is read back from the date. */
  lemma DateTimeRoundTrip(d1: Day, t1: string, d2: Day, t2: string)
    requires ValidDay(d1) && d1.year < 10000 && ValidDay(d2) && d2.year < 10000
    ensures var s := DateTime(d1, t1);
      && |s| == 14 + |t1| && s[..10] == FormatDay(d1) && s[10] == 'T' && s[11..|s| - 3] == t1
    ensures DateTime(d1, t1) == DateTime(d2, t2) <==> d1 == d2 && t1 == t2
  {
    FormatDayLayout(d1);
    FormatDayLayout(d2);
    var s1, s2 := DateTime(d1, t1), DateTime(d2, t2);
    assert s1[..10] == FormatDay(d1) && s1[11..|s1| - 3] == t1;
    assert s2[..10] == FormatDay(d2) && s2[11..|s2| - 3] == t2;
    if s1 == s2 {
      var f1, f2 := FormatDay(d1), FormatDay(d2);
      assert f1 == f2;
      assert f1[..4] == f2[..4] && f1[5..7] == f2[5..7] && f1[8..] == f2[8..];
    }
  }

  // ------------------------------------------------------------ submit

  /** The appointment the page sends to POST /api/appointments. */
  datatype Appointment = Appointment(
    contactId: string, contactName: string, contactPhone: string,
    time: string, service: string, amount: string, paymentType: string, date: string)

  /** The appointment as a request body. */
  function AppointmentRecord(a: Appointment): (r: Record)
    ensures IsJson(r) && "id" !in r
    ensures r.Keys == {"contactId", "contactName", "contactPhone", "time", "service", "amount", "paymentType", "date"}
    ensures Get(r, "contactId") == Str(a.contactId)
    ensures Get(r, "contactPhone") == Str(a.contactPhone) && Get(r, "contactName") == Str(a.contactName)
    ensures Get(r, "time") == Str(a.time) && Get(r, "service") == Str(a.service)
    ensures Get(r, "amount") == Str(a.amount) && Get(r, "paymentType") == Str(a.paymentType)
    ensures Get(r, "date") == Str(a.date)
  {
    map["contactId" := Str(a.contactId), "contactName" := Str(a.contactName),
        "contactPhone" := Str(a.contactPhone), "time" := Str(a.time), "service" := Str(a.service),
        "amount" := Str(a.amount), "paymentType" := Str(a.paymentType), "date" := Str(a.date)]
  }

  /** The appointment built from the form for the given contact id. */
  function Booking(form: AppointmentForm, contactId: string, selected: Day): (a: Appointment)
    ensures a.contactId == contactId && a.date == DateTime(selected, form.time)
    ensures a.contactName == form.contactName && a.contactPhone == form.contactPhone
    ensures a.time == form.time && a.service == form.service
    ensures a.amount == form.amount && a.paymentType == form.paymentType
  {
    Appointment(contactId, form.contactName, form.contactPhone, form.time, form.service,
                form.amount, form.paymentType, DateTime(selected, form.time))
  }

  /** Why a submit stopped before any request. */
  datatype SubmitError = NoAmount | NewContactIncomplete | PhoneTooShort | NameTaken | PhoneTaken | NoContact

  /** The alert a rejected submit shows; an empty amount stops silently. */
  function AlertText(e: SubmitError): (t: Option<string>)
    ensures t.None? <==> e == NoAmount
  {
    match e
    case NoAmount => None
    case NewContactIncomplete => Some("Yeni m\U{00FC}\U{015F}teri i\U{00E7}in Ad ve Telefon zorunludur.")
    case PhoneTooShort => Some("Telefon numaras\U{0131} en az 10 haneli olmal\U{0131}d\U{0131}r.")
    case NameTaken => Some("Bu isimde bir m\U{00FC}\U{015F}teri zaten kay\U{0131}tl\U{0131}. L\U{00FC}tfen listeden se\U{00E7}iniz.")
    case PhoneTaken => Some("Bu telefon numaras\U{0131} ile kay\U{0131}tl\U{0131} bir m\U{00FC}\U{015F}teri zaten var.")
    case NoContact => Some("L\U{00FC}tfen bir m\U{00FC}\U{015F}teri se\U{00E7}in veya yeni olu\U{015F}turun.")
  }

  datatype SubmitOutcome =
    | Rejected(error: SubmitError)
    | ContactNotCreated            // the create-contact request failed
    | Booked(appointment: Appointment)

  /** The submit takes the new-customer path. */
  predicate NewContactPath(form: AppointmentForm) {
    form.isNewContact && form.contactId == ""
  }

  /** An existing contact clashes with a new customer by name (ignoring case) or by phone. */
  predicate Clashes(c: Contact, name: string, phone: string) {
    ToLower(c.name) == ToLower(name) || c.phone == phone
  }

  function ClashesWith(name: string, phone: string): Contact -> bool {
    c => Clashes(c, name, phone)
  }

  /** The first contact that clashes with the new customer. */
  function FindDuplicate(contacts: seq<Contact>, name: string, phone: string): (r: Option<Contact>)
    ensures r.None? <==> forall c :: c in contacts ==> !Clashes(c, name, phone)
    ensures r.Some? ==> exists i :: 0 <= i < |contacts| && contacts[i] == r.value && Clashes(r.value, name, phone)
                                      && forall j :: 0 <= j < i ==> !Clashes(contacts[j], name, phone)
  {
    var r := Find(contacts, ClashesWith(name, phone));
    assert r.None? ==> forall c :: c in contacts ==> !Clashes(c, name, phone) by {
      if r.None? {
        forall c | c in contacts ensures !Clashes(c, name, phone) {
          var i :| 0 <= i < |contacts| && contacts[i] == c;
          assert !ClashesWith(name, phone)(contacts[i]);
        }
      }
    }
    r
  }

  /** The message decided by the clashing contact: its name if that matches, its phone otherwise. */
  function ClashError(c: Contact, name: string): (e: SubmitError)
    ensures e == NameTaken <==> ToLower(c.name) == ToLower(name)
    ensures e == NameTaken || e == PhoneTaken
  {
    if ToLower(c.name) == ToLower(name) then NameTaken else PhoneTaken
  }

  /**
   * The submit handler. `created` is the id the server gives a new contact,
   * or None when that request fails. Alongside the outcome it returns the
   * page's contact list, which gains the new contact.
   */
  method HandleSubmit(form: AppointmentForm, contacts: seq<Contact>, selected: Day, created: Option<string>)
    returns (outcome: SubmitOutcome, newContacts: seq<Contact>)
    ensures form.amount == "" ==> outcome == Rejected(NoAmount)
    ensures form.amount != "" && NewContactPath(form) ==>
      if form.contactName == "" || form.contactPhone == "" then outcome == Rejected(NewContactIncomplete)
      else if Utf16Length(form.contactPhone) < 10 then outcome == Rejected(PhoneTooShort)
      else match FindDuplicate(contacts, form.contactName, form.contactPhone)
        case Some(c) => outcome == Rejected(ClashError(c, form.contactName))
        case None =>
          match created
          case None => outcome == ContactNotCreated
          case Some(id) =>
            && outcome == Booked(Booking(form, id, selected))
            && newContacts == contacts + [Contact(id, form.contactName, form.contactPhone)]
    ensures form.amount != "" && !NewContactPath(form) ==>
      outcome == if form.contactId == "" then Rejected(NoContact) else Booked(Booking(form, form.contactId, selected))
    ensures !(outcome.Booked? && NewContactPath(form)) ==> newContacts == contacts
    ensures outcome.Booked? ==> outcome.appointment.date == DateTime(selected, form.time)
  {
    newContacts := contacts;
    if form.amount == "" {
      return Rejected(NoAmount), newContacts;
    }
    var finalContactId := form.contactId;
    if form.isNewContact && form.contactId == "" {
      if form.contactName == "" || form.contactPhone == "" {
        return Rejected(NewContactIncomplete), newContacts;
      }
      if Utf16Length(form.contactPhone) < 10 {
        return Rejected(PhoneTooShort), newContacts;
      }
      var existing := FindDuplicate(contacts, form.contactName, form.contactPhone);
      if existing.Some? {
        return Rejected(ClashError(existing.value, form.contactName)), newContacts;
      }
      if created.None? {
        return ContactNotCreated, newContacts;
      }
      finalContactId := created.value;
      newContacts := contacts + [Contact(created.value, form.contactName, form.contactPhone)];
    } else if finalContactId == "" {
      return Rejected(NoContact), newContacts;
    }
    var dateTime := FormatDay(selected) + "T" + form.time + ":00";
    outcome := Booked(Appointment(finalContactId, form.contactName, form.contactPhone, form.time,
                                  form.service, form.amount, form.paymentType, dateTime));
  }

  /**
   * A new customer is booked only when no contact has the same name (ignoring
   * case) or the same phone, and with a phone of at least 10 characters.
   */
  lemma NewCustomerIsNoDuplicate(form: AppointmentForm, contacts: seq<Contact>)
    requires NewContactPath(form) && form.contactName != "" && Utf16Length(form.contactPhone) >= 10
    ensures FindDuplicate(contacts, form.contactName, form.contactPhone).None? <==>
      forall c :: c in contacts ==> ToLower(c.name) != ToLower(form.contactName) && c.phone != form.contactPhone
  {
  }

  /** A clashing contact whose name matches is reported by name, whatever its phone. */
  lemma NamePreferred(contacts: seq<Contact>, name: string, phone: string)
    requires |contacts| > 0 && ToLower(contacts[0].name) == ToLower(name)
    ensures FindDuplicate(contacts, name, phone) == Some(contacts[0])
    ensures ClashError(contacts[0], name) == NameTaken
  {
  }

  /**
   * When the first clashing contact matches only by phone, the phone message
   * is shown even if a later contact has the same name.
   */
  lemma PhoneClashHidesLaterNameClash()
    ensures var contacts := [Contact("1", "Ali", "5550000000"), Contact("2", "Veli", "5551111111")];
      FindDuplicate(contacts, "veli", "5550000000") == Some(contacts[0])
      && ClashError(contacts[0], "veli") == PhoneTaken
  {
    var contacts := [Contact("1", "Ali", "5550000000"), Contact("2", "Veli", "5551111111")];
    assert Clashes(contacts[0], "veli", "5550000000");
    assert ToLower("Ali") == "ali";
    assert ToLower("veli") == "veli";
  }

  /**
   * The server notifies every booked customer whose phone is not empty — in
   * particular every new customer, whose phone has at least 10 characters.
   */
  lemma BookingIsNotified(form: AppointmentForm, contactId: string, selected: Day, freshId: string)
    ensures var stored := JsonDb.NewItem(AppointmentRecord(Booking(form, contactId, selected)), freshId);
      var n := ApiServer.NotificationFor(stored);
      && (n.Some? <==> form.contactPhone != "")
      && (n.Some? ==> n.value.to == Str(form.contactPhone)
                      && n.value.message == ApiServer.AppointmentMessage(Str(form.contactName), Str(DateTime(selected, form.time))))
  {
  }
}
