/** Outcomes of the bank and cash-machine services: the failures the services
    raise as IllegalArgumentException, and a result type carrying either a value
    or one of those failures. */
module Outcomes {

  /** The failures a service call can end with. */
  datatype Error =
    | NotEnoughMoney    // a withdrawal larger than the balance
    | NoCardFound       // no card with the given number in the card store
    | PincodeIncorrect  // the PIN's digest differs from the stored one
    | AccountNotFound   // no account with the given identifier in the account store
    | CannotDispense    // the money box cannot hand out notes for the sum

  /** The exception message the services attach to a failure. The message for a
      missing account and for a money box that cannot hand out the sum are not
      fixed by the source and are left out. Each message names exactly one
      failure. */
  function Message(e: Error): (m: string)
    requires e != AccountNotFound && e != CannotDispense
    ensures m == "Not enough money" <==> e == NotEnoughMoney
    ensures m == "No card found" <==> e == NoCardFound
    ensures m == "Pincode is incorrect" <==> e == PincodeIncorrect
  {
    match e
    case NotEnoughMoney => "Not enough money"
    case NoCardFound => "No card found"
    case PincodeIncorrect => "Pincode is incorrect"
  }

  /** Either the value a call returns or the failure it raises. */
  datatype Result<+T> = Ok(value: T) | Err(error: Error)
}
