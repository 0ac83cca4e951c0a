/** How a run of any kind stands. */
module Runs {
  datatype Status = Pending | Running | Completed | Failed | Canceled

  predicate Terminal(s: Status) { s.Completed? || s.Failed? || s.Canceled? }
}
