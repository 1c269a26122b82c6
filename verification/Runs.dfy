/** Finite runs of a state machine: its states and the steps between them, latest last. */
module Runs {

  datatype Run<S, P> = Start(last: S) | Then(before: Run<S, P>, step: P, last: S)

  /** `later` extends `r` by any number of steps. */
  ghost predicate Continues<S, P>(r: Run<S, P>, later: Run<S, P>) {
    later == r || (later.Then? && Continues(r, later.before))
  }
}
