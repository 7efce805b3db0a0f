/** What happens around one call to the API server. */
module Turns {
  datatype Reply = Answered | Refused | Lost

  /** The steps of others before a call, and the call's fate. */
  datatype Turn<+A> = Turn(before: seq<A>, reply: Reply)

  /** Nobody acts before the call, and it is answered. */
  predicate Still<A>(turn: Turn<A>) {
    |turn.before| == 0 && turn.reply.Answered?
  }

  ghost predicate Calm<A>(env: nat -> Turn<A>) {
    forall i :: Still(env(i))
  }
}
