# Contact directory, modelled in Dafny

An in-memory contact directory: a `Contact` record with a fixed id and four
mutable fields, each guarded by a length or format rule, and a
`ContactService` that keeps contacts in a map keyed by id, refusing a null
contact or a duplicate id on insert and a null or unknown id on delete,
lookup and update.

The model has two layers.

- Specification on values. `FieldRules` holds the per-field rules that the
  constructor and the setters share. `ContactValues` holds the record as a
  value (`ContactValue`), the constructor's argument list (`Draft`), and the
  constructor and the setters as functions (`Construct`, `Set`).
  `Directory` holds the service's operations on a
  `map<string, ContactValue>`. The lemmas about the system are stated here.
- Imperative classes matching the Java ones. `Contacts.Contact` has
  `const contactId` (the Java field is `final`) and four `var` fields
  overwritten by the setters. `Services.ContactService` holds
  `var contacts: map<string, Contact>`, replaced by add and delete; the
  updates change the stored object through its setter. Each method's
  `ensures` equates its result and its new state with the specification
  applied to the old state: `Value()` for a contact, and for the service
  the ghost field `store`, the map of records that the invariant `Valid()`
  ties to the stored objects.

Java `null` is `Common.Option.None`. A thrown `IllegalArgumentException` is
an explicit result: `Outcome.Fail(e)` for void methods, `Result.Err(e)` for
the others, where `e` is `Validation(field)`, `NullContact`, `DuplicateId`
or `NotFound`. `Scenarios` replays the unit tests' cases as client methods
whose assertions follow from the contracts alone.

The empty string is accepted for the id, the names and the address. The
class comments call every field "required", but the code only rejects
`null` or a value that is too long (Contact.java:24, :29, :34, :44). The
model follows the code. `Scenarios.OrderAndEmptyStrings` builds a contact
whose id, names and address are all empty.

## Model

| member | source | states |
|---|---|---|
| FieldRules.MatchesDigits | Contact.java:39 | `phone.matches("\\d{10}")` as the pattern consumes its input: n digits, one at a time, and then the end of the string |
| FieldRules.FieldOk | Contact.java:24-46 | the one rule per field behind the constructor's guards (:24, :29, :34, :39, :44) and the setters' guards (:78, :85, :92, :99): non-null and within the length limit, or for the phone exactly ten digits |
| FieldRules.MatchesDigitsIff | Contact.java:39 | `s.matches("\\d{n}")` holds exactly when `s` has length n and every character is an ASCII digit |
| FieldRules.PhoneRule | Contact.java:39-41 | the guard as written (null, or length not ten, or `matches` fails) throws exactly when `FieldOk` rejects the phone |
| FieldRules.PhoneRejections | Contact.java:92-94 | a phone of any length other than ten, with any non-digit, or null, is rejected |
| FieldRules.LengthRule | Contact.java:24-46 | id, names and address pass iff non-null and no longer than their limit (10, 10, 10, 30); the empty string passes |
| FieldRules.BoundaryExamples | ContactTest.java:31-136 | 10 characters pass and 11 fail for id and names; 30 pass and 31 fail for the address; "1234567890" is a phone and "123456789", "12345678901", "123456789a" are not; null fails every field |
| ContactValues.Construct | Contact.java:22-53 | construction succeeds iff all five rules hold (stated both as the five checks and as every field's rule on its argument), each field then holds its argument and the record is valid; otherwise the error names the first failing field in the order id, first name, last name, phone, address |
| ContactValues.FirstInvalidUnique | Contact.java:24-46 | the "first failing field" is unique, so the reported error is determined by the arguments |
| ContactValues.Set | Contact.java:77-103 | a setter succeeds iff the new value passes its field's rule; on success only that field changes, to the value given; on failure the error names that field |
| ContactValues.SetPreservesValid | Contact.java:76-103 | a setter keeps the record valid and its id unchanged, and a rejected value leaves the record as it was |
| ContactValues.SetterAgreesWithConstructor | Contact.java:29-46 | a setter applies the constructor's rule for its field: what a successful construction accepted is accepted, and the field the constructor reported is refused with the same error |
| Contacts.Contact.constructor | Contact.java:48-52 | the constructor's assignments leave each field holding its argument, and the object valid |
| Contacts.Contact.Create | Contact.java:22-53 | the five checks in order; the result and the new object's fields are those of `Construct` on the same arguments, and a new object is valid |
| Contacts.Contact.GetContactId | Contact.java:56-58 | returns the stored id, which satisfies the id rule |
| Contacts.Contact.GetFirstName | Contact.java:60-62 | returns the stored first name, which satisfies its rule |
| Contacts.Contact.GetLastName | Contact.java:64-66 | returns the stored last name, which satisfies its rule |
| Contacts.Contact.GetPhone | Contact.java:68-70 | returns the stored phone, always ten digits |
| Contacts.Contact.GetAddress | Contact.java:72-74 | returns the stored address, which satisfies its rule |
| Contacts.Contact.SetFirstName | Contact.java:77-82 | outcome and new state are those of `Set` on the first name; only `firstName` may change; a valid object stays valid |
| Contacts.Contact.SetLastName | Contact.java:84-89 | outcome and new state are those of `Set` on the last name; only `lastName` may change; a valid object stays valid |
| Contacts.Contact.SetPhone | Contact.java:91-96 | outcome and new state are those of `Set` on the phone; only `phone` may change; a valid object stays valid |
| Contacts.Contact.SetAddress | Contact.java:98-103 | outcome and new state are those of `Set` on the address; only `address` may change; a valid object stays valid |
| Directory.Add | ContactService.java:25-35 | a null contact fails with NullContact and a present id with DuplicateId; otherwise the key set grows by exactly that id, the id maps to the record and every earlier entry is kept |
| Directory.Delete | ContactService.java:42-48 | succeeds iff the id is non-null and present; then exactly that key is removed and every other entry is kept; otherwise NotFound |
| Directory.Get | ContactService.java:100-106 | succeeds iff the id is non-null and present, returning the record stored under it; otherwise NotFound |
| Directory.Update | ContactService.java:56-92 | a null or unknown id fails with NotFound; otherwise it succeeds iff the value passes the field's rule, and then changes only the record under that id, as `Set` does, keeping every key |
| Directory.Exists | ContactService.java:121-123 | is true exactly when getContact would succeed, that is when the id is non-null and a key |
| Directory.Count | ContactService.java:112-114 | `getContactCount`: the number of keys of the store |
| Directory.CountTracksOperations | ContactService.java:112-114 | the count rises by one on a successful add, falls by one on a successful delete, and is unchanged by updates and by every refused operation |
| Directory.AddPreservesKeyed | ContactService.java:34 | adding a valid record keeps every key equal to its record's id and every record valid |
| Directory.DeletePreservesKeyed | ContactService.java:47 | deleting keeps every key equal to its record's id and every record valid |
| Directory.UpdatePreservesKeyed | ContactService.java:56-92 | updating keeps every key equal to its record's id and every record valid |
| Directory.AddThenGet | ContactServiceTest.java:22-27 | after a successful add the id exists and getContact returns the added record |
| Directory.AddThenDelete | ContactServiceTest.java:59-66 | deleting the record just added gives back the original store, hence the original count |
| Directory.DeleteThenAbsent | ContactServiceTest.java:223-231 | after deleting an id it no longer exists and getContact on it fails with NotFound |
| Directory.UpdateLooksUpFirst | ContactService.java:56-59 | on a null or unknown id every update fails with NotFound whatever the new value, since the lookup precedes the setter |
| Directory.UpdateIsSetter | ContactService.java:56-92 | on a present id an update has the setter's outcome, the stored record becomes the setter's result, and its id is unchanged |
| Services.ContactService.constructor | ContactService.java:16-18 | a new service is valid and empty |
| Services.ContactService.AddContact | ContactService.java:25-35 | keeps `Valid()`; outcome and new `store` are those of `Directory.Add`; on success the map gains the object itself under its id, on failure the map is unchanged |
| Services.ContactService.DeleteContact | ContactService.java:42-48 | keeps `Valid()`; outcome and new `store` are those of `Directory.Delete`; on success the map loses exactly that key |
| Services.ContactService.GetContact | ContactService.java:100-106 | succeeds iff `Directory.Get` does, returns the stored object itself, whose record is the one `Directory.Get` gives; otherwise NotFound |
| Services.ContactService.GetContactCount | ContactService.java:112-114 | returns the number of keys of the map, which is the size of `store` |
| Services.ContactService.ContactExists | ContactService.java:121-123 | true iff the id is non-null and a key, in agreement with `Directory.Exists`; never fails |
| Services.ContactService.UpdateFirstName | ContactService.java:56-59 | keeps `Valid()` and may change only the stored contact under the id; outcome and new `store` are those of `Directory.Update` on the first name; the map is unchanged |
| Services.ContactService.UpdateLastName | ContactService.java:67-70 | as UpdateFirstName, for the last name |
| Services.ContactService.UpdatePhone | ContactService.java:78-81 | as UpdateFirstName, for the phone |
| Services.ContactService.UpdateAddress | ContactService.java:89-92 | as UpdateFirstName, for the address |
| Scenarios.SampleContact | ContactServiceTest.java:18 | the test fixture's constructor call succeeds and yields a valid contact holding exactly its arguments |

## Left out

- Exception messages and their string concatenation: only the error kind, and the field for a validation error, are modelled.
- `HashMap` hashing, capacity and iteration order: the store is a mathematical `map`.
- The regular-expression engine: `matches("\\d{10}")` is the recursive predicate `FieldRules.MatchesDigits`, proved equal to "ten ASCII digits".
- UTF-16 code units versus code points in `String.length()`: a string is a sequence of characters.
- `getContactCount` returns a Java `int`: `HashMap`'s `int` size, and so the count, would overflow past `Integer.MAX_VALUE` (2^31 - 1) entries. The model's count is an unbounded `nat` and does not represent that overflow.
- Contacts.Contact.Create: a Dafny constructor cannot fail, so the throwing Java constructor is the static method `Create`. It runs the checks and then calls a constructor that requires valid arguments.
- Contacts.Contact.SetFirstName, SetLastName, SetPhone, SetAddress promise validity afterwards only for an object that was valid before, as every object built by `Create` is; the getters and the service methods require `Valid()`. An object whose fields were assigned outside its own methods is not covered.
- Aliasing across several services holding the same `Contact` object, and changes to a stored contact through a reference kept by the caller: the service's invariant is re-established only by its own methods. Inside one service two keys never share an object, since each key equals its contact's id.
- Object equality: `Contact` does not override `equals`, so the tests' `assertEquals` compares references. `GetContact` is stated to return the stored object itself.
