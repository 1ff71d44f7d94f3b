/** The records kept in the conversation buffer. */
module Messages {
  import opened Wrappers

  /** Role of a question typed by the user. */
  const UserRole: string := "user"

  /** Role of an answer recorded from the completion endpoint. */
  const AssistantRole: string := "assistant"

  /**
   * One `{role, content, timestamp}` record. The timestamp is an opaque
   * string supplied by the clock; it is optional because the transcript
   * reads it with a default.
   */
  datatype Message = Message(role: string, content: string, timestamp: Option<string>)
}
