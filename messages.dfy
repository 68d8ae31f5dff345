/** The chat message records `{"role": ..., "content": ...}` both chatbots
    send to their language-model backends, and the two messages each earlier
    exchange contributes. */
module Messages {

  datatype Role = System | User | Assistant

  datatype Message = Message(role: Role, content: string)

  /** One earlier exchange: (user message, reply). */
  type Pair = (string, string)

  /** A user and an assistant message per exchange, in order. */
  function PairMessages(history: seq<Pair>): seq<Message> {
    if history == [] then []
    else
      var last := history[|history| - 1];
      PairMessages(history[..|history| - 1]) + [Message(User, last.0), Message(Assistant, last.1)]
  }

  /** Exchange i becomes messages 2i (its user text) and 2i + 1 (its reply). */
  lemma {:induction false} PairMessagesAt(history: seq<Pair>)
    ensures |PairMessages(history)| == 2 * |history|
    ensures forall i :: 0 <= i < |history| ==>
      PairMessages(history)[2 * i] == Message(User, history[i].0)
      && PairMessages(history)[2 * i + 1] == Message(Assistant, history[i].1)
  {
    if history != [] {
      PairMessagesAt(history[..|history| - 1]);
    }
  }
}
