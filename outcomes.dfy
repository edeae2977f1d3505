/** Error values and result wrappers shared by the services.
    Every service function of the system either returns normally or throws;
    a thrown Error becomes a Failure here. */
module Outcomes {

  /** The failures the services raise. */
  datatype Failure =
    | RewardsNotFound    // 'User rewards not found', or a batch update of a missing rewards document
    | ProgressNotFound   // a batch update of a missing progress document
    | BadgeNotFound      // 'Badge not found'
    | StoreItemNotFound  // 'Store item not found'

  /** An optional field or a value that may be absent. */
  datatype Option<+T> = None | Some(value: T)

  /** The result of an operation that returns a value or throws. */
  datatype Result<+T> = Ok(value: T) | Err(error: Failure)

  /** The result of an operation that returns nothing or throws. */
  datatype Outcome = Pass | Fail(error: Failure)
}
