/** ContactService (ContactService.java) on values: the store is a map
    from contact id to the record stored under it. The class in module
    Services is proved against these functions. */
module Directory {
  import opened Common
  import opened FieldRules
  import opened ContactValues

  type Store = map<string, ContactValue>

  /** The store's invariant: every record is valid and is stored under its
      own id. */
  ghost predicate Keyed(m: Store) {
    forall k :: k in m ==> m[k].id == k && m[k].Valid()
  }

  /** An id that is non-null and a key: the guard of every keyed operation. */
  predicate Present(m: Store, id: Option<string>) {
    id.Some? && id.value in m
  }

  /** `addContact` (ContactService.java:25-35): null is refused, then an id
      already present is refused (the stored record is not overwritten),
      otherwise the record is stored under its own id. */
  function Add(m: Store, c: Option<ContactValue>): (r: Result<Store>)
    ensures r.Ok? <==> c.Some? && c.value.id !in m
    ensures c.None? ==> r == Err(NullContact)
    ensures c.Some? && c.value.id in m ==> r == Err(DuplicateId)
    ensures r.Ok? ==> r.value.Keys == m.Keys + {c.value.id}
    ensures r.Ok? ==> r.value[c.value.id] == c.value && forall k :: k in m ==> r.value[k] == m[k]
  {
    if c.None? then Err(NullContact)
    else if c.value.id in m then Err(DuplicateId)
    else Ok(m[c.value.id := c.value])
  }

  /** `deleteContact` (ContactService.java:42-48): a null or unknown id is
      refused, otherwise exactly that key is removed. */
  function Delete(m: Store, id: Option<string>): (r: Result<Store>)
    ensures r.Ok? <==> Present(m, id)
    ensures r.Err? ==> r.error == NotFound
    ensures r.Ok? ==> r.value.Keys == m.Keys - {id.value}
    ensures r.Ok? ==> forall k :: k in r.value ==> r.value[k] == m[k]
  {
    if !Present(m, id) then Err(NotFound)
    else
      Ok(m - {id.value})
  }

  /** `getContact` (ContactService.java:100-106). */
  function Get(m: Store, id: Option<string>): (r: Result<ContactValue>)
    ensures r.Ok? <==> Present(m, id)
    ensures r.Err? ==> r.error == NotFound
    ensures r.Ok? ==> r.value == m[id.value]
  {
    if !Present(m, id) then Err(NotFound) else Ok(m[id.value])
  }

  /** `updateFirstName`, `updateLastName`, `updatePhone`, `updateAddress`
      (ContactService.java:56-92): look the id up as getContact does, then
      apply the field's setter to the record stored there. */
  function Update(m: Store, id: Option<string>, f: Field, v: Option<string>): (r: Result<Store>)
    requires f != Id
    ensures !Present(m, id) ==> r == Err(NotFound)
    ensures Present(m, id) ==> r.Ok? == FieldOk(f, v)
    ensures Present(m, id) && r.Err? ==> r.error == Validation(f)
    ensures r.Ok? ==> r.value.Keys == m.Keys && r.value[id.value] == Set(m[id.value], f, v).value
    ensures r.Ok? ==> forall k :: k in m && k != id.value ==> r.value[k] == m[k]
  {
    if !Present(m, id) then Err(NotFound)
    else match Set(m[id.value], f, v)
      case Err(e) => Err(e)
      case Ok(c) => Ok(m[id.value := c])
  }

  /** `contactExists` (ContactService.java:121-123): never fails. */
  function Exists(m: Store, id: Option<string>): (b: bool)
    ensures b <==> Get(m, id).Ok?
  {
    id.Some? && id.value in m
  }

  /** `getContactCount` (ContactService.java:112-114). */
  function Count(m: Store): nat {
    |m|
  }

  /** The count goes up by one on a successful add, down by one on a
      successful delete, and is left alone by updates and by every refused
      operation. */
  lemma CountTracksOperations(m: Store, c: Option<ContactValue>, id: Option<string>, f: Field, v: Option<string>)
    requires f != Id
    ensures Count(Add(m, c).GetOr(m)) == Count(m) + (if Add(m, c).Ok? then 1 else 0)
    ensures Count(Delete(m, id).GetOr(m)) == Count(m) - (if Delete(m, id).Ok? then 1 else 0)
    ensures Count(Update(m, id, f, v).GetOr(m)) == Count(m)
  {
    var added := Add(m, c);
    if added.Ok? {
      assert added.value.Keys == m.Keys + {c.value.id};
    }
    var deleted := Delete(m, id);
    if deleted.Ok? {
      assert deleted.value.Keys == m.Keys - {id.value};
    }
    if Update(m, id, f, v).Ok? {
      assert Update(m, id, f, v).value.Keys == m.Keys;
    }
  }

  /** Adding a valid record to a keyed store keeps it keyed: insertion uses
      the record's own id. */
  lemma AddPreservesKeyed(m: Store, c: ContactValue)
    requires Keyed(m) && c.Valid()
    ensures Keyed(Add(m, Some(c)).GetOr(m))
  {
  }

  lemma DeletePreservesKeyed(m: Store, id: Option<string>)
    requires Keyed(m)
    ensures Keyed(Delete(m, id).GetOr(m))
  {
  }

  /** An update keeps the store keyed: the setter keeps the record valid
      and never changes the id that is its key. */
  lemma UpdatePreservesKeyed(m: Store, id: Option<string>, f: Field, v: Option<string>)
    requires f != Id && Keyed(m)
    ensures Keyed(Update(m, id, f, v).GetOr(m))
  {
    if Update(m, id, f, v).Ok? {
      SetPreservesValid(m[id.value], f, v);
    }
  }

  /** After a successful add the id exists and getContact returns the
      record that was added. */
  lemma AddThenGet(m: Store, c: ContactValue)
    requires c.id !in m
    ensures Exists(Add(m, Some(c)).value, Some(c.id))
    ensures Get(Add(m, Some(c)).value, Some(c.id)) == Ok(c)
  {
  }

  /** Deleting what was just added restores the store, and so its count;
      afterwards the id no longer exists. */
  lemma AddThenDelete(m: Store, c: ContactValue)
    requires c.id !in m
    ensures Delete(Add(m, Some(c)).value, Some(c.id)) == Ok(m)
    ensures !Exists(m, Some(c.id))
  {
    var added := Add(m, Some(c)).value;
    var s := Delete(added, Some(c.id)).value;
    assert s == m by {
      assert s.Keys == m.Keys;
    }
  }

  /** A deleted id no longer exists, and getContact on it fails. */
  lemma DeleteThenAbsent(m: Store, id: string)
    requires id in m
    ensures !Exists(Delete(m, Some(id)).value, Some(id))
    ensures Get(Delete(m, Some(id)).value, Some(id)) == Err(NotFound)
  {
  }

  /** On a null or unknown id an update fails as not found whatever the
      new value is: the lookup comes before the value is checked. */
  lemma UpdateLooksUpFirst(m: Store, id: Option<string>, f: Field, v: Option<string>, w: Option<string>)
    requires f != Id && !Present(m, id)
    ensures Update(m, id, f, v) == Update(m, id, f, w) == Err(NotFound)
  {
  }

  /** On a present id an update does exactly what the field's setter does
      to the stored record: same outcome, that record replaced by the
      setter's result, and nothing else changed; the id stays the same. */
  lemma UpdateIsSetter(m: Store, id: string, f: Field, v: Option<string>)
    requires f != Id && id in m
    ensures Update(m, Some(id), f, v).ToOutcome() == Set(m[id], f, v).ToOutcome()
    ensures Update(m, Some(id), f, v).GetOr(m) == m[id := Set(m[id], f, v).GetOr(m[id])]
    ensures Keyed(m) ==> Update(m, Some(id), f, v).GetOr(m)[id].id == id
  {
    if Set(m[id], f, v).Err? {
      assert m[id := m[id]] == m;
    }
    if Keyed(m) {
      SetPreservesValid(m[id], f, v);
    }
  }
}
