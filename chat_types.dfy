/** Values shared by the chat page and the completion proxy. */
module ChatTypes {

  /** An optional value: `None` stands for a field that is `undefined`. */
  datatype Option<+T> = None | Some(value: T)

  /** The roles a chat message can carry in the completion API. */
  datatype Role = System | User | Assistant

  /** A chat message: its text and who wrote it. */
  datatype Message = Message(content: string, role: Role)

  /** The name a role has on the wire. */
  function RoleName(r: Role): string
  {
    match r
    case System => "system"
    case User => "user"
    case Assistant => "assistant"
  }
}
