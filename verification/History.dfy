/** What has happened so far: a list of actions that grows at its end. */
module Histories {

  datatype History<A> = Start | Then(past: History<A>, last: A) {

    function Append(later: History<A>): History<A> {
      match later
      case Start => this
      case Then(p, a) => Then(Append(p), a)
    }
  }

  /** `early` is an initial part of `h`. */
  predicate Prefix<A(==)>(early: History<A>, h: History<A>)
    decreases h
  {
    early == h || (h.Then? && Prefix(early, h.past))
  }
}
