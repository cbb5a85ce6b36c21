/** The ContactService class (ContactService.java): a map from contact id
    to the Contact object stored under it, mutated in place by add and
    delete, and through the stored objects' setters by the updates. */
module Services {
  import opened Common
  import opened Contacts
  import Directory

  class ContactService {
    var contacts: map<string, Contact>
    ghost var store: Directory.Store  // the records held, keyed as stored

    /** The service's invariant: each stored object holds the record
        `store` has under the same key, and `store` is keyed (every record
        valid and stored under its own id). Two keys therefore never share
        an object. */
    ghost predicate Valid()
      reads this, contacts.Values
    {
      && store.Keys == contacts.Keys
      && (forall k :: k in contacts ==> contacts[k].Value() == store[k])
      && Directory.Keyed(store)
    }

    /** The objects an update of `id` may change: the one stored there. */
    ghost function Target(id: Option<string>): set<Contact>
      reads this
    {
      if id.Some? && id.value in contacts then {contacts[id.value]} else {}
    }

    /** `new ContactService()` (ContactService.java:16-18). */
    constructor ()
      ensures Valid()
      ensures contacts == map[] && store == map[]
    {
      contacts := map[];
      store := map[];
    }

    /** `addContact` (ContactService.java:25-35). The object itself is
        stored, so a later getContact returns that same object. */
    method AddContact(c: Contact?) returns (r: Outcome)
      requires Valid()
      requires c != null ==> c.Valid()
      modifies this
      ensures Valid()
      ensures r == Directory.Add(old(store), if c == null then None else Some(c.Value())).ToOutcome()
      ensures store == Directory.Add(old(store), if c == null then None else Some(c.Value())).GetOr(old(store))
      ensures contacts == if r.Pass? then old(contacts)[c.contactId := c] else old(contacts)
    {
      if c == null {
        return Fail(NullContact);
      }
      if c.contactId in contacts {
        return Fail(DuplicateId);
      }
      Directory.AddPreservesKeyed(store, c.Value());
      contacts := contacts[c.contactId := c];
      store := store[c.contactId := c.Value()];
      return Pass;
    }

    /** `deleteContact` (ContactService.java:42-48). */
    method DeleteContact(id: Option<string>) returns (r: Outcome)
      requires Valid()
      modifies this
      ensures Valid()
      ensures r == Directory.Delete(old(store), id).ToOutcome()
      ensures store == Directory.Delete(old(store), id).GetOr(old(store))
      ensures contacts == if r.Pass? then old(contacts) - {id.value} else old(contacts)
    {
      if id.None? || id.value !in contacts {
        return Fail(NotFound);
      }
      Directory.DeletePreservesKeyed(store, id);
      contacts := contacts - {id.value};
      store := store - {id.value};
      return Pass;
    }

    /** `getContact` (ContactService.java:100-106): the stored object
        itself, not a copy. */
    method GetContact(id: Option<string>) returns (r: Result<Contact>)
      requires Valid()
      ensures r.Ok? <==> Directory.Get(store, id).Ok?
      ensures r.Err? ==> r.error == NotFound
      ensures r.Ok? ==> r.value == contacts[id.value] && r.value.Value() == Directory.Get(store, id).value
    {
      if id.None? || id.value !in contacts {
        return Err(NotFound);
      }
      return Ok(contacts[id.value]);
    }

    /** `getContactCount` (ContactService.java:112-114). */
    method GetContactCount() returns (n: nat)
      requires Valid()
      ensures n == |contacts| == Directory.Count(store)
    {
      n := |contacts|;
    }

    /** `contactExists` (ContactService.java:121-123). */
    method ContactExists(id: Option<string>) returns (b: bool)
      requires Valid()
      ensures b <==> Directory.Exists(store, id)
      ensures b <==> id.Some? && id.value in contacts
    {
      b := id.Some? && id.value in contacts;
    }

    /** `updateLastName` (ContactService.java:67-70). */
    method UpdateLastName(id: Option<string>, v: Option<string>) returns (r: Outcome)
      requires Valid()
      modifies this`store, Target(id)
      ensures Valid() && contacts == old(contacts)
      ensures r == Directory.Update(old(store), id, LastName, v).ToOutcome()
      ensures store == Directory.Update(old(store), id, LastName, v).GetOr(old(store))
    {
      var found := GetContact(id);
      if found.Err? {
        return Fail(found.error);
      }
      var c := found.value;
      Directory.UpdatePreservesKeyed(store, id, LastName, v);
      Directory.UpdateIsSetter(store, id.value, LastName, v);
      r := c.SetLastName(v);
      store := store[id.value := c.Value()];
      forall k | k in contacts && k != id.value ensures contacts[k].Value() == store[k] {
        assert old(contacts[k].Value()).id == k;
      }
    }

    /** `updateFirstName` (ContactService.java:56-59). */
    method UpdateFirstName(id: Option<string>, v: Option<string>) returns (r: Outcome)
      requires Valid()
      modifies this`store, Target(id)
      ensures Valid() && contacts == old(contacts)
      ensures r == Directory.Update(old(store), id, FirstName, v).ToOutcome()
      ensures store == Directory.Update(old(store), id, FirstName, v).GetOr(old(store))
    {
      var found := GetContact(id);
      if found.Err? {
        return Fail(found.error);
      }
      var c := found.value;
      Directory.UpdatePreservesKeyed(store, id, FirstName, v);
      Directory.UpdateIsSetter(store, id.value, FirstName, v);
      r := c.SetFirstName(v);
      store := store[id.value := c.Value()];
      forall k | k in contacts && k != id.value ensures contacts[k].Value() == store[k] {
        assert old(contacts[k].Value()).id == k;
      }
    }

    /** `updatePhone` (ContactService.java:78-81). */
    method UpdatePhone(id: Option<string>, v: Option<string>) returns (r: Outcome)
      requires Valid()
      modifies this`store, Target(id)
      ensures Valid() && contacts == old(contacts)
      ensures r == Directory.Update(old(store), id, Phone, v).ToOutcome()
      ensures store == Directory.Update(old(store), id, Phone, v).GetOr(old(store))
    {
      var found := GetContact(id);
      if found.Err? {
        return Fail(found.error);
      }
      var c := found.value;
      Directory.UpdatePreservesKeyed(store, id, Phone, v);
      Directory.UpdateIsSetter(store, id.value, Phone, v);
      r := c.SetPhone(v);
      store := store[id.value := c.Value()];
      forall k | k in contacts && k != id.value ensures contacts[k].Value() == store[k] {
        assert old(contacts[k].Value()).id == k;
      }
    }

    /** `updateAddress` (ContactService.java:89-92). */
    method UpdateAddress(id: Option<string>, v: Option<string>) returns (r: Outcome)
      requires Valid()
      modifies this`store, Target(id)
      ensures Valid() && contacts == old(contacts)
      ensures r == Directory.Update(old(store), id, Address, v).ToOutcome()
      ensures store == Directory.Update(old(store), id, Address, v).GetOr(old(store))
    {
      var found := GetContact(id);
      if found.Err? {
        return Fail(found.error);
      }
      var c := found.value;
      Directory.UpdatePreservesKeyed(store, id, Address, v);
      Directory.UpdateIsSetter(store, id.value, Address, v);
      r := c.SetAddress(v);
      store := store[id.value := c.Value()];
      forall k | k in contacts && k != id.value ensures contacts[k].Value() == store[k] {
        assert old(contacts[k].Value()).id == k;
      }
    }
  }
}
