/** The chat entities of `src/types/index.ts`. Timestamps are abstract
    integers (the `Date` values the code stamps with `new Date()`). */
module ChatTypes {
  import opened Wrappers

  /** What `crypto.randomUUID()` returns: never the empty string. */
  type Uuid = s: string | s != [] witness "0"

  datatype Role = User | Assistant | SystemError

  /** The optional metadata attached to assistant replies. */
  datatype Metadata = Metadata(
    sessionId: Option<string>,
    interactionCount: Option<int>,
    stage: Option<string>,
    apiSource: Option<string>)

  datatype Message = Message(
    id: string,
    role: Role,
    content: string,
    timestamp: int,
    metadata: Option<Metadata>)

  datatype Chat = Chat(
    id: string,
    title: string,
    messages: seq<Message>,
    createdAt: int,
    updatedAt: int,
    sessionId: Option<string>,
    isTherapySession: Option<bool>)

  /** `message.metadata?.sessionId` is truthy: present and non-empty. */
  predicate CarriesSessionId(m: Message) {
    m.metadata.Some? && m.metadata.value.sessionId.Some? && m.metadata.value.sessionId.value != ""
  }
}
