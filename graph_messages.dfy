/** The conversation the agent graph keeps per thread: a list of typed messages. Only the
    message class and the text content matter to the code modelled here. */
module GraphMessages {
  /** `HumanMessage`, `AIMessage`, and the other message classes. */
  datatype Kind = Human | Ai | System | Tool

  datatype Message = Message(kind: Kind, content: string)

  /** `messages and isinstance(messages[-1], HumanMessage)`. */
  predicate EndsWithHuman(ms: seq<Message>)
  {
    ms != [] && ms[|ms| - 1].kind == Human
  }
}
