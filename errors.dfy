/** `TrackieError`, the error type every failing command reports, and its conversions. */
module Errors {

  /** `print_as_error` tells the front end whether to print on standard error (true) or standard output. */
  datatype TrackieError = TrackieError(msg: string, printAsError: bool)

  /** `TrackieError::new`. */
  function New(msg: string): TrackieError {
    TrackieError(msg, true)
  }

  /** `Display for TrackieError`: the message alone. */
  function Display(e: TrackieError): string {
    e.msg
  }

  /** `From<Box<dyn Error>>`: a new error carrying the boxed error's text. */
  function FromBoxed(text: string): TrackieError {
    New(text)
  }

  /**
   * Boxing an error and converting it back keeps its message and always
   * marks it as a genuine error, so it comes back unchanged exactly when it
   * was one already.
   */
  lemma BoxedRoundTrip(e: TrackieError)
    ensures FromBoxed(Display(e)).msg == e.msg
    ensures FromBoxed(Display(e)).printAsError
    ensures FromBoxed(Display(e)) == e <==> e.printAsError
  {
  }
}
