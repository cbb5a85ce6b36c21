/** The scenarios of the unit tests (ContactTest.java, ContactServiceTest.java)
    written as clients of the classes: each assertion follows from the
    contracts of Contact and ContactService alone. */
module Scenarios {
  import opened Common
  import opened FieldRules
  import opened ContactValues
  import opened Contacts
  import opened Services

  /** `new Contact("123", "John", "Doe", "1234567890", "123 Main St")`:
      the record the service tests start from. */
  method SampleContact() returns (c: Contact)
    ensures fresh(c) && c.Valid()
    ensures c.Value() == ContactValue("123", "John", "Doe", "1234567890", "123 Main St")
  {
    BoundaryExamples(Phone);
    var made := Contact.Create(Some("123"), Some("John"), Some("Doe"), Some("1234567890"), Some("123 Main St"));
    c := made.value;
  }

  /** Construction with a null or over-long id throws (ContactTest.java:24-41). */
  method IdFailures() {
    BoundaryExamples(Phone);
    var r := Contact.Create(None, Some("John"), Some("Doe"), Some("1234567890"), Some("123 Main St"));
    assert r == Err(Validation(Id));
    r := Contact.Create(Some("12345678901"), Some("John"), Some("Doe"), Some("1234567890"), Some("123 Main St"));
    assert r == Err(Validation(Id));
  }

  /** A bad first or last name throws for that field (ContactTest.java:44-81). */
  method FieldFailures() {
    BoundaryExamples(Phone);
    var r := Contact.Create(Some("123"), Some("JohnJohnJohn"), Some("Doe"), Some("1234567890"), Some("123 Main St"));
    assert r == Err(Validation(FirstName));
    r := Contact.Create(Some("123"), Some("John"), None, Some("1234567890"), Some("123 Main St"));
    assert r == Err(Validation(LastName));
  }

  /** A phone with a non-digit, or a null address, throws for that field
      (ContactTest.java:84-136). */
  method PhoneAndAddressFailures() {
    BoundaryExamples(Phone);
    var r := Contact.Create(Some("123"), Some("John"), Some("Doe"), Some("123456789a"), Some("123 Main St"));
    assert r == Err(Validation(Phone));
    r := Contact.Create(Some("123"), Some("John"), Some("Doe"), Some("1234567890"), None);
    assert r == Err(Validation(Address));
  }

  /** With several bad arguments the id is reported, because it is
      checked first; the empty string passes every field but the phone. */
  method OrderAndEmptyStrings() {
    BoundaryExamples(Phone);
    var r := Contact.Create(None, None, None, None, None);
    assert r == Err(Validation(Id));
    r := Contact.Create(Some(""), Some(""), Some(""), Some("1234567890"), Some(""));
    assert r.Ok? && r.value.GetContactId() == "";
  }

  /** Setters: a valid value replaces that field only; null or an
      over-long value throws and changes nothing (ContactTest.java:138-228). */
  method SetterScenario() {
    var c := SampleContact();
    var r := c.SetFirstName(Some("Jane"));
    assert r == Pass && c.GetFirstName() == "Jane" && c.GetLastName() == "Doe";
    r := c.SetFirstName(None);
    assert r == Fail(Validation(FirstName)) && c.GetFirstName() == "Jane";
    r := c.SetLastName(Some("TooLongLastName"));
    assert r == Fail(Validation(LastName)) && c.GetLastName() == "Doe";
    BoundaryExamples(Phone);
    r := c.SetPhone(Some("123456789"));
    assert r == Fail(Validation(Phone)) && c.GetPhone() == "1234567890";
    r := c.SetAddress(Some("456 Oak Ave"));
    assert r == Pass && c.GetAddress() == "456 Oak Ave" && c.GetContactId() == "123";
  }

  /** Adding one contact: it is counted, exists and is returned itself
      (ContactServiceTest.java:22-27). */
  method AddScenario() {
    var s := new ContactService();
    var c := SampleContact();
    var added := s.AddContact(c);
    assert added == Pass;
    var n := s.GetContactCount();
    var e := s.ContactExists(Some("123"));
    assert n == 1 && e;
    var got := s.GetContact(Some("123"));
    assert got == Ok(c);
  }

  /** A null contact, or a second contact with the same id, is refused and
      leaves the count alone (ContactServiceTest.java:29-43). */
  method AddRefusals() {
    var s := new ContactService();
    var c := SampleContact();
    var added := s.AddContact(c);
    var again := s.AddContact(null);
    assert again == Fail(NullContact);
    var dup := SampleContact();
    again := s.AddContact(dup);
    assert again == Fail(DuplicateId);
    var n := s.GetContactCount();
    assert n == 1;
  }

  /** Updates through the service (ContactServiceTest.java:83-196, :254-268). */
  method UpdateScenario() {
    var s := new ContactService();
    var c := SampleContact();
    var added := s.AddContact(c);
    var u := s.UpdateFirstName(Some("123"), Some("Jane"));
    assert u == Pass;
    u := s.UpdateFirstName(Some("nonexistent"), Some("Jane"));
    assert u == Fail(NotFound);
    u := s.UpdateLastName(Some("123"), Some("TooLongLastName"));
    assert u == Fail(Validation(LastName));
    var got := s.GetContact(Some("123"));
    assert got.Ok? && got.value.GetFirstName() == "Jane" && got.value.GetLastName() == "Doe";
    assert got.value.GetContactId() == "123";
  }

  /** Deleting (ContactServiceTest.java:59-80, :209-236). */
  method DeleteScenario() {
    var s := new ContactService();
    var c := SampleContact();
    var added := s.AddContact(c);
    var d := s.DeleteContact(Some("123"));
    assert d == Pass;
    var n := s.GetContactCount();
    var e := s.ContactExists(Some("123"));
    assert n == 0 && !e;
    var got := s.GetContact(Some("123"));
    assert got == Err(NotFound);
    d := s.DeleteContact(None);
    assert d == Fail(NotFound);
    e := s.ContactExists(None);
    assert !e;
  }
}
