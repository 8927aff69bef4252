/** Conversations, their messages, and the chat request and response records. */
module ConversationModel {
  import opened Common
  import opened Actions

  datatype MessageRole = User | Assistant | System

  function RoleName(r: MessageRole): string
  {
    match r
    case User => "user"
    case Assistant => "assistant"
    case System => "system"
  }

  function ParseRole(s: string): (r: Option<MessageRole>)
    ensures r.Some? ==> RoleName(r.value) == s
    ensures r.None? ==> forall m :: RoleName(m) != s
    ensures r.Some? <==> s in {"user", "assistant", "system"}
  {
    if s == "user" then Some(User)
    else if s == "assistant" then Some(Assistant)
    else if s == "system" then Some(System)
    else None
  }

  type ConversationId = nat

  /** Timestamps are ticks of the store's clock. */
  datatype Conversation = Conversation(
    id: ConversationId,
    userId: string,
    organizationId: string,
    title: string,
    createdAt: nat,
    updatedAt: nat,
    messageCount: nat,
    metadata: Metadata)

  const DefaultTitle := "New Conversation"

  /** A conversation built from its required fields only. The two times
      come from two separate readings of a clock that ticks once per
      reading, starting at `now`: creation is read first. */
  function NewConversation(id: ConversationId, userId: string, organizationId: string,
                           now: nat): (c: Conversation)
    ensures c.id == id && c.userId == userId && c.organizationId == organizationId
    ensures c.title == DefaultTitle && c.messageCount == 0 && c.metadata == map[]
    ensures c.createdAt == now && c.createdAt < c.updatedAt
  {
    Conversation(id, userId, organizationId, DefaultTitle, now, now + 1, 0, map[])
  }

  datatype ConversationMessage = ConversationMessage(
    id: nat,
    conversationId: ConversationId,
    role: MessageRole,
    content: string,
    timestamp: nat,
    metadata: Metadata)

  const MinMessageLength := 1
  const MaxMessageLength := 4000

  datatype ChatRequest = ChatRequest(
    message: string,
    conversationId: Option<ConversationId>,
    context: Metadata)

  /** The length bounds a `ChatRequest` message is validated against. */
  predicate ValidChatRequest(r: ChatRequest)
  {
    MinMessageLength <= |r.message| <= MaxMessageLength
  }

  /** `ChatRequest(message=m)`: a new conversation and no extra context. */
  function NewChatRequest(message: string): (r: ChatRequest)
    ensures r.message == message && r.conversationId == None && r.context == map[]
    ensures ValidChatRequest(r) <==> 1 <= |message| <= 4000
  {
    ChatRequest(message, None, map[])
  }

  datatype ChatResponse = ChatResponse(
    conversationId: ConversationId,
    message: string,
    intent: Option<string>,
    actions: seq<Action>,
    metadata: Metadata)

  /** A response built from its required fields only. */
  function NewChatResponse(conversationId: ConversationId, message: string): (r: ChatResponse)
    ensures r.intent == None && r.actions == [] && r.metadata == map[]
  {
    ChatResponse(conversationId, message, None, [], map[])
  }
}
