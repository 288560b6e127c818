/** Chat messages as the program keeps them: a `{role, content}` pair. */
module Messages {

  /** The roles the program writes; the buffer of recent turns only ever holds User and Assistant. */
  datatype Role = System | User | Assistant

  datatype Message = Message(role: Role, content: string)

  /** `role.capitalize()` of the role's wire name ("user" becomes "User"). */
  function Label(r: Role): string {
    match r
    case System => "System"
    case User => "User"
    case Assistant => "Assistant"
  }

  /** A conversation buffer: user and assistant turns only. */
  ghost predicate Conversational(ms: seq<Message>) {
    forall i :: 0 <= i < |ms| ==> ms[i].role != System
  }
}
