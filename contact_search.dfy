/**
 * The contact search shared by the contacts, calendar and tasks pages: a
 * contact is kept when its lower-cased name includes the lower-cased term
 * or its phone includes the term as typed.
 */
module ContactSearch {
  import opened TextRules
  import opened JsArrays

  /** A contact as the pages receive it from GET /api/contacts. */
  datatype Contact = Contact(id: string, name: string, phone: string)

  /** `c.name.toLowerCase().includes(term.toLowerCase()) || c.phone.includes(term)` */
  predicate SearchMatches(c: Contact, term: string) {
    Includes(ToLower(c.name), ToLower(term)) || Includes(c.phone, term)
  }

  function SearchFor(term: string): Contact -> bool {
    c => SearchMatches(c, term)
  }

  /** `contacts.filter(c => …)` with the search predicate. */
  function FilterContacts(contacts: seq<Contact>, term: string): (r: seq<Contact>)
    ensures forall c :: c in r <==> c in contacts && SearchMatches(c, term)
    ensures |r| <= |contacts|
  {
    Filter(contacts, SearchFor(term))
  }

  /** An empty term keeps every contact, in order. */
  lemma EmptyTermKeepsAll(contacts: seq<Contact>)
    ensures FilterContacts(contacts, "") == contacts
  {
    assert ToLower("") == "";
    forall i | 0 <= i < |contacts| ensures SearchFor("")(contacts[i]) {
      IncludesEmpty(ToLower(contacts[i].name));
    }
    FilterKeepsAll(contacts, SearchFor(""));
  }

  /** The kept contacts appear in the order of the full list. */
  lemma FilterKeepsOrder(a: seq<Contact>, b: seq<Contact>, term: string)
    ensures FilterContacts(a + b, term) == FilterContacts(a, term) + FilterContacts(b, term)
  {
    FilterAppend(a, b, SearchFor(term));
  }

  /** The name match ignores the case of ASCII letters in the contact's name. */
  lemma NameMatchIgnoresCase(c: Contact, name: string, term: string)
    requires ToLower(name) == ToLower(c.name)
    ensures SearchMatches(c, term) <==> SearchMatches(c.(name := name), term)
  {
  }

  /** Searching again by the same term inside the results changes nothing. */
  lemma SearchTwice(contacts: seq<Contact>, term: string)
    ensures FilterContacts(FilterContacts(contacts, term), term) == FilterContacts(contacts, term)
  {
    FilterIdempotent(contacts, SearchFor(term));
  }
}
