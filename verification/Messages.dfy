/** The messages of a conversation. */
module Messages {
  import opened Text

  datatype ToolCall = ToolCall(id: string, name: string, arguments: string)

  /** `provider` stands for the native payload of a provider. */
  datatype Message = Message(role: string, content: string, toolCalls: Option<seq<ToolCall>>,
      provider: Option<string>, isError: bool)

  predicate IsUser(m: Message) {
    m.role == "user"
  }

  predicate IsSystem(m: Message) {
    m.role == "system"
  }

  predicate IsTool(m: Message) {
    m.role == "tool"
  }

  predicate IsCall(m: Message) {
    m.role == "assistant" && m.toolCalls.Some?
  }

  function Plain(role: string, content: string): Message {
    Message(role, content, None, None, false)
  }
}
