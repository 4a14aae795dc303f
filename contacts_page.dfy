/**
 * client/src/pages/Contacts.jsx: the new-contact form with its two input
 * filters and its submit validation, and the search over the contact list.
 * Each handler is a function from the old form to the new form.
 */
module ContactsPage {
  import opened TextRules
  import opened ContactSearch

  datatype ContactForm = ContactForm(name: string, phone: string)

  const EmptyForm := ContactForm("", "")

  const ShortPhoneAlert := "Telefon numaras\U{0131} en az 10 haneli olmal\U{0131}d\U{0131}r."

  /** The name field's onChange: an edit containing a digit is ignored. */
  function EditName(form: ContactForm, value: string): (f: ContactForm)
    ensures f.phone == form.phone
    ensures f.name == value <==> !ContainsDigit(value) || value == form.name
    ensures ContainsDigit(value) ==> f == form
  {
    if !ContainsDigit(value) then form.(name := value) else form
  }

  /** The phone field's onChange: kept only when the phone filter accepts it. */
  function EditPhone(form: ContactForm, value: string): (f: ContactForm)
    ensures f.name == form.name
    ensures f.phone == value <==> AcceptsPhoneInput(value) || value == form.phone
    ensures !AcceptsPhoneInput(value) ==> f == form
  {
    if AcceptsPhoneInput(value) then form.(phone := value) else form
  }

  /** What submitting the form does: nothing, the short-phone alert, or POST /api/contacts with the form. */
  datatype SubmitOutcome = Ignored | Alert(message: string) | Create(contact: ContactForm)

  function Submit(form: ContactForm): (r: SubmitOutcome)
    ensures r == Ignored <==> form.name == "" || form.phone == ""
    ensures r.Alert? <==> form.name != "" && form.phone != "" && Utf16Length(form.phone) < 10
    ensures r.Alert? ==> r.message == ShortPhoneAlert
    ensures r.Create? ==> r.contact == form && Utf16Length(form.phone) >= 10
  {
    if form.name == "" || form.phone == "" then Ignored
    else if Utf16Length(form.phone) < 10 then Alert(ShortPhoneAlert)
    else Create(form)
  }

  /** After the create request: the form is cleared when it succeeded and kept when it failed. */
  function AfterCreate(form: ContactForm, succeeded: bool): (f: ContactForm)
    ensures succeeded ==> f == EmptyForm
    ensures !succeeded ==> f == form
  {
    if succeeded then EmptyForm else form
  }

  /** What the two input filters guarantee of every form the user can produce. */
  predicate FormFiltered(form: ContactForm) {
    !ContainsDigit(form.name) && AcceptsPhoneInput(form.phone)
  }

  /** The empty form is filtered, and every edit keeps the form filtered. */
  lemma EditsKeepFormFiltered(form: ContactForm, value: string, succeeded: bool)
    ensures FormFiltered(EmptyForm)
    ensures FormFiltered(form) ==> FormFiltered(EditName(form, value))
    ensures FormFiltered(form) ==> FormFiltered(EditPhone(form, value))
    ensures FormFiltered(form) ==> FormFiltered(AfterCreate(form, succeeded))
  {
    AcceptsPhoneInputMeaning("");
  }

  /**
   * Every contact the page sends has a digit-free name and a phone of 10 to
   * 13 characters, all digits but for an optional leading `+`.
   */
  lemma SentContactIsWellFormed(form: ContactForm)
    requires FormFiltered(form)
    requires Submit(form).Create?
    ensures form.name != "" && !ContainsDigit(form.name)
    ensures 10 <= |form.phone| <= 13
    ensures forall i :: 0 <= i < |form.phone| ==> IsDigit(form.phone[i]) || (i == 0 && form.phone[i] == '+')
  {
    AcceptsPhoneInputMeaning(form.phone);
    PhoneLength(form.phone);
  }

  /** The search box: the contacts shown for `term`. */
  function ShownContacts(contacts: seq<Contact>, term: string): (r: seq<Contact>)
    ensures forall c :: c in r <==> c in contacts && SearchMatches(c, term)
    ensures term == "" ==> r == contacts
  {
    if term == "" then EmptyTermKeepsAll(contacts); contacts
    else FilterContacts(contacts, term)
  }
}
