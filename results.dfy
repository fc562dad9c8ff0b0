/** Option and result types shared by the model, and the exceptions the CLI raises or lets escape. */
module Results {

  datatype Option<T> = None | Some(value: T)

  /** The failures of the core, one constructor per exception that can leave it. */
  datatype Error =
    | InvalidResource              // ValueError: resource kind other than coins or currencies
    | BadParameter(message: string) // click.BadParameter raised by a validator
    | Unorderable                  // TypeError: sorted() asked to compare two coin dicts
    | MalformedJson                // JSONDecodeError: a cache file that exists but is empty
    | NegativeSleep                // ValueError: time.sleep given a negative length
    | ZeroDivision                 // ZeroDivisionError: a start price of zero in gains

  datatype Result<T> = Ok(value: T) | Err(error: Error)
}
