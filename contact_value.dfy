/** The contact record as a value: what a Contact object holds at one
    instant, and what its constructor and setters do to it. The classes in
    module Contacts are proved against these functions. */
module ContactValues {
  import opened Common
  import opened FieldRules

  /** The five arguments of `new Contact(...)`, each possibly null. */
  datatype Draft = Draft(
    id: Option<string>,
    firstName: Option<string>,
    lastName: Option<string>,
    phone: Option<string>,
    address: Option<string>)
  {
    /** The argument given for field f. */
    function Arg(f: Field): Option<string> {
      match f
      case Id => id
      case FirstName => firstName
      case LastName => lastName
      case Phone => phone
      case Address => address
    }

    /** Every argument passes its field's rule. */
    predicate AllOk() {
      && FieldOk(Id, id) && FieldOk(FirstName, firstName) && FieldOk(LastName, lastName)
      && FieldOk(Phone, phone) && FieldOk(Address, address)
    }

    /** AllOk holds iff the argument of every field passes that field's rule. */
    lemma AllOkIff()
      ensures AllOk() <==> forall f :: FieldOk(f, Arg(f))
    {
      assert Arg(Id) == id && Arg(FirstName) == firstName && Arg(LastName) == lastName;
      assert Arg(Phone) == phone && Arg(Address) == address;
    }

    /** f is the field the constructor reports: its argument fails and the
        arguments of every field checked before it pass. */
    predicate FirstInvalid(f: Field) {
      !FieldOk(f, Arg(f)) && forall g :: Rank(g) < Rank(f) ==> FieldOk(g, Arg(g))
    }
  }

  /** The state of a constructed contact: no field is null. */
  datatype ContactValue = ContactValue(
    id: string,
    firstName: string,
    lastName: string,
    phone: string,
    address: string)
  {
    /** What the getter of field f returns. */
    function Get(f: Field): string {
      match f
      case Id => id
      case FirstName => firstName
      case LastName => lastName
      case Phone => phone
      case Address => address
    }

    /** Every field satisfies its rule: the record's invariant. */
    predicate Valid() {
      && FieldOk(Id, Some(id)) && FieldOk(FirstName, Some(firstName)) && FieldOk(LastName, Some(lastName))
      && FieldOk(Phone, Some(phone)) && FieldOk(Address, Some(address))
    }

    /** Valid holds iff the value of every field passes that field's rule. */
    lemma ValidIff()
      ensures Valid() <==> forall f :: FieldOk(f, Some(Get(f)))
    {
      assert Get(Id) == id && Get(FirstName) == firstName && Get(LastName) == lastName;
      assert Get(Phone) == phone && Get(Address) == address;
    }

    /** The same record with field f (not the id) replaced by x. */
    function With(f: Field, x: string): (c: ContactValue)
      requires f != Id
      ensures c.Get(f) == x
      ensures forall g :: g != f ==> c.Get(g) == Get(g)
    {
      match f
      case FirstName => this.(firstName := x)
      case LastName => this.(lastName := x)
      case Phone => this.(phone := x)
      case Address => this.(address := x)
    }
  }

  /** `new Contact(id, firstName, lastName, phone, address)`
      (Contact.java:22-53): the checks run in field order and the first
      failing one throws; otherwise every field holds its argument. */
  function Construct(d: Draft): (r: Result<ContactValue>)
    ensures r.Ok? <==> d.AllOk()
    ensures r.Ok? <==> forall f :: FieldOk(f, d.Arg(f))
    ensures r.Ok? ==> r.value.Valid()
    ensures r.Ok? ==> && Some(r.value.id) == d.id && Some(r.value.firstName) == d.firstName
                      && Some(r.value.lastName) == d.lastName && Some(r.value.phone) == d.phone
                      && Some(r.value.address) == d.address
    ensures r.Err? ==> r.error.Validation? && d.FirstInvalid(r.error.field)
  {
    d.AllOkIff();
    if !FieldOk(Id, d.id) then Err(Validation(Id))
    else if !FieldOk(FirstName, d.firstName) then Err(Validation(FirstName))
    else if !FieldOk(LastName, d.lastName) then Err(Validation(LastName))
    else if !FieldOk(Phone, d.phone) then Err(Validation(Phone))
    else if !FieldOk(Address, d.address) then Err(Validation(Address))
    else Ok(ContactValue(d.id.value, d.firstName.value, d.lastName.value, d.phone.value, d.address.value))
  }

  /** At most one field is the first invalid one, so the error the
      constructor reports is determined by the arguments. */
  lemma FirstInvalidUnique(d: Draft, f: Field, g: Field)
    requires d.FirstInvalid(f) && d.FirstInvalid(g)
    ensures f == g
  {
  }

  /** `setFirstName`, `setLastName`, `setPhone`, `setAddress`
      (Contact.java:77-103) on a record value: the same rule as the
      constructor's for that field, checked before the assignment. */
  function Set(c: ContactValue, f: Field, v: Option<string>): (r: Result<ContactValue>)
    requires f != Id
    ensures r.Ok? <==> FieldOk(f, v)
    ensures r.Err? ==> r.error == Validation(f)
    ensures r.Ok? ==> r.value.Get(f) == v.value
    ensures r.Ok? ==> forall g :: g != f ==> r.value.Get(g) == c.Get(g)
  {
    if !FieldOk(f, v) then Err(Validation(f)) else Ok(c.With(f, v.value))
  }

  /** A setter keeps the record valid and never changes its id; on a
      rejected value the record stays exactly as it was. */
  lemma SetPreservesValid(c: ContactValue, f: Field, v: Option<string>)
    requires f != Id && c.Valid()
    ensures Set(c, f, v).GetOr(c).Valid()
    ensures Set(c, f, v).GetOr(c).id == c.id
    ensures !FieldOk(f, v) ==> Set(c, f, v).GetOr(c) == c
  {
    var r := Set(c, f, v);
    if r.Ok? {
      c.ValidIff();
      forall g ensures FieldOk(g, Some(r.value.Get(g))) {
        if g != f { assert r.value.Get(g) == c.Get(g); }
      }
      r.value.ValidIff();
      assert r.value.Get(Id) == c.Get(Id);
    }
  }

  /** A setter applies the rule the constructor applies to the same
      field: every argument a successful construction took is accepted by
      the setter, and an argument the constructor reported is refused by
      the setter with the same error. */
  lemma SetterAgreesWithConstructor(c: ContactValue, d: Draft, f: Field)
    requires f != Id
    ensures Construct(d).Ok? ==> Set(c, f, d.Arg(f)).Ok?
    ensures Construct(d) == Err(Validation(f)) ==> Set(c, f, d.Arg(f)) == Err(Validation(f))
  {
  }
}
