/** What can become of a statement sent to the database. */
module Statements {

  /** Committed and answered, committed with the answer lost, or not executed. The caller cannot tell the last two apart. */
  datatype Fate = Answered | ReplyLost | NotSent {
    predicate Committed() { !NotSent? }
  }
}
