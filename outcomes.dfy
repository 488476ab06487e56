/** What one call of a `Func<..., Boolean>` delegate does, and a small Option. */
module Outcomes {

  /** A call either returns a Boolean or throws (the exception itself does not matter here). */
  datatype Outcome = Returned(value: bool) | Threw

  datatype Option<T> = None | Some(value: T)

  /** The one outcome that tells the caller to stop: an explicit `false` from a call that did
      not throw. Both the event veto and RunSafe's answer to its caller follow this rule. */
  predicate Halts(o: Outcome) {
    o == Returned(false)
  }
}
