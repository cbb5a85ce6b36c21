/** The Contact class (Contact.java): an identity fixed at construction
    and four fields that the setters overwrite in place after checking the
    new value. */
module Contacts {
  import opened Common
  import opened FieldRules
  import opened ContactValues

  class Contact {
    const contactId: string  // `final`: no method can assign it
    var firstName: string
    var lastName: string
    var phone: string
    var address: string

    /** The record this object holds right now. */
    ghost function Value(): ContactValue
      reads this
    {
      ContactValue(contactId, firstName, lastName, phone, address)
    }

    /** The class invariant: every field satisfies its rule. */
    ghost predicate Valid()
      reads this
    {
      Value().Valid()
    }

    /** The assignments at the end of the Java constructor
        (Contact.java:48-52), reached only once every check has passed. */
    constructor (contactId: string, firstName: string, lastName: string, phone: string, address: string)
      requires ContactValue(contactId, firstName, lastName, phone, address).Valid()
      ensures Value() == ContactValue(contactId, firstName, lastName, phone, address)
      ensures Valid()
    {
      this.contactId := contactId;
      this.firstName := firstName;
      this.lastName := lastName;
      this.phone := phone;
      this.address := address;
    }

    /** `new Contact(contactId, firstName, lastName, phone, address)`
        (Contact.java:22-53): the five checks in order, the first failing
        one reported, and on success a new, valid object holding exactly
        the arguments. */
    static method Create(contactId: Option<string>, firstName: Option<string>, lastName: Option<string>,
                         phone: Option<string>, address: Option<string>)
      returns (r: Result<Contact>)
      ensures r.Ok? <==> Construct(Draft(contactId, firstName, lastName, phone, address)).Ok?
      ensures r.Err? ==> r.error == Construct(Draft(contactId, firstName, lastName, phone, address)).error
      ensures r.Ok? ==> fresh(r.value) && r.value.Valid()
      ensures r.Ok? ==> r.value.Value() == Construct(Draft(contactId, firstName, lastName, phone, address)).value
    {
      if !FieldOk(Id, contactId) {
        return Err(Validation(Id));
      }
      if !FieldOk(FirstName, firstName) {
        return Err(Validation(FirstName));
      }
      if !FieldOk(LastName, lastName) {
        return Err(Validation(LastName));
      }
      if !FieldOk(Phone, phone) {
        return Err(Validation(Phone));
      }
      if !FieldOk(Address, address) {
        return Err(Validation(Address));
      }
      var c := new Contact(contactId.value, firstName.value, lastName.value, phone.value, address.value);
      return Ok(c);
    }

    /** `getContactId` (Contact.java:56-58). */
    function GetContactId(): (r: string)
      reads this
      requires Valid()
      ensures r == Value().id && FieldOk(Id, Some(r))
    {
      contactId
    }

    /** `getFirstName` (Contact.java:60-62). */
    function GetFirstName(): (r: string)
      reads this
      requires Valid()
      ensures r == Value().firstName && FieldOk(FirstName, Some(r))
    {
      firstName
    }

    /** `getLastName` (Contact.java:64-66). */
    function GetLastName(): (r: string)
      reads this
      requires Valid()
      ensures r == Value().lastName && FieldOk(LastName, Some(r))
    {
      lastName
    }

    /** `getPhone` (Contact.java:68-70): always ten digits. */
    function GetPhone(): (r: string)
      reads this
      requires Valid()
      ensures r == Value().phone && |r| == PhoneLength && AllDigits(r)
    {
      PhoneRule(Some(phone));
      phone
    }

    /** `getAddress` (Contact.java:72-74). */
    function GetAddress(): (r: string)
      reads this
      requires Valid()
      ensures r == Value().address && FieldOk(Address, Some(r))
    {
      address
    }

    /** `setFirstName` (Contact.java:77-82). */
    method SetFirstName(v: Option<string>) returns (r: Outcome)
      modifies this`firstName
      ensures old(Valid()) ==> Valid()
      ensures r == Set(old(Value()), FirstName, v).ToOutcome()
      ensures Value() == Set(old(Value()), FirstName, v).GetOr(old(Value()))
    {
      if Valid() { SetPreservesValid(Value(), FirstName, v); }
      if !FieldOk(FirstName, v) {
        return Fail(Validation(FirstName));
      }
      firstName := v.value;
      return Pass;
    }

    /** `setLastName` (Contact.java:84-89). */
    method SetLastName(v: Option<string>) returns (r: Outcome)
      modifies this`lastName
      ensures old(Valid()) ==> Valid()
      ensures r == Set(old(Value()), LastName, v).ToOutcome()
      ensures Value() == Set(old(Value()), LastName, v).GetOr(old(Value()))
    {
      if Valid() { SetPreservesValid(Value(), LastName, v); }
      if !FieldOk(LastName, v) {
        return Fail(Validation(LastName));
      }
      lastName := v.value;
      return Pass;
    }

    /** `setPhone` (Contact.java:91-96). */
    method SetPhone(v: Option<string>) returns (r: Outcome)
      modifies this`phone
      ensures old(Valid()) ==> Valid()
      ensures r == Set(old(Value()), Phone, v).ToOutcome()
      ensures Value() == Set(old(Value()), Phone, v).GetOr(old(Value()))
    {
      if Valid() { SetPreservesValid(Value(), Phone, v); }
      if !FieldOk(Phone, v) {
        return Fail(Validation(Phone));
      }
      phone := v.value;
      return Pass;
    }

    /** `setAddress` (Contact.java:98-103). */
    method SetAddress(v: Option<string>) returns (r: Outcome)
      modifies this`address
      ensures old(Valid()) ==> Valid()
      ensures r == Set(old(Value()), Address, v).ToOutcome()
      ensures Value() == Set(old(Value()), Address, v).GetOr(old(Value()))
    {
      if Valid() { SetPreservesValid(Value(), Address, v); }
      if !FieldOk(Address, v) {
        return Fail(Validation(Address));
      }
      address := v.value;
      return Pass;
    }
  }
}
