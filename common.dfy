/** Shared vocabulary of the contact directory: nullable values, the five
    contact fields in the order the constructor checks them, and the
    error kinds that stand in for the thrown IllegalArgumentException. */
module Common {

  /** A Java reference that may be null: None is null. */
  datatype Option<+T> = None | Some(value: T)

  /** The fields of a contact record. */
  datatype Field = Id | FirstName | LastName | Phone | Address

  /** Position of a field in the constructor's validation order
      (id, first name, last name, phone, address). */
  function Rank(f: Field): nat {
    match f
    case Id => 0
    case FirstName => 1
    case LastName => 2
    case Phone => 3
    case Address => 4
  }

  /** Why an operation was refused. */
  datatype Error =
    | Validation(field: Field)  // a field value breaks its rule
    | NullContact               // addContact(null)
    | DuplicateId               // addContact with an id already stored
    | NotFound                  // null or unknown id on a keyed operation

  /** The value of an operation that returns something or throws. */
  datatype Result<+T> = Ok(value: T) | Err(error: Error) {

    /** Forgets the value, keeping only success or the error. */
    function ToOutcome(): Outcome {
      match this
      case Ok(_) => Pass
      case Err(e) => Fail(e)
    }

    /** The success value, or `default` on failure. */
    function GetOr(default: T): T {
      match this
      case Ok(v) => v
      case Err(_) => default
    }
  }

  /** The effect of a void operation: it returned normally or threw. */
  datatype Outcome = Pass | Fail(error: Error)
}
