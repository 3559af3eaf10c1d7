/** What several parts of the model share. */
module Prelude {

  datatype Option<+T> = None | Some(value: T)

  /** A remote call succeeds, is refused, or takes effect while its answer is lost. */
  datatype Rpc = Answered | Refused | Unanswered
}
