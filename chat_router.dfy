/** The chat endpoints: a turn of conversation, the caller's conversation
    list, and reading or deleting one conversation, where existence is
    checked before ownership and the store is touched only after both. */
module ChatRouter {
  import opened Common
  import opened ConversationModel
  import opened ConversationRepo
  import opened Security
  import opened AiEngine

  const NotFound: int := 404
  const Forbidden: int := 403
  const InternalError: int := 500
  const Unprocessable: int := 422

  const NotFoundDetail := "Conversation not found"
  const ForbiddenDetail := "Access denied"
  const DeleteFailedDetail := "Failed to delete conversation"
  const ProcessFailedPrefix := "Failed to process message: "
  /** The body of the framework's validation error is not modelled. */
  const ValidationDetail := "Invalid chat request"

  /** The access decision shared by reading and deleting a conversation:
      a missing conversation is reported before a foreign one. */
  function Access(found: Option<Conversation>, user: UserContext): (r: Result<Conversation, HttpError>)
    ensures r == Err(HttpError(NotFound, NotFoundDetail)) <==> found.None?
    ensures r == Err(HttpError(Forbidden, ForbiddenDetail)) <==> found.Some? && found.value.userId != user.userId
    ensures r.Ok? <==> found.Some? && found.value.userId == user.userId
    ensures r.Ok? ==> r.value == found.value
  {
    if found.None? then Err(HttpError(NotFound, NotFoundDetail))
    else if found.value.userId != user.userId then Err(HttpError(Forbidden, ForbiddenDetail))
    else Ok(found.value)
  }

  /** `GET /chat/conversations/{id}`. */
  function GetConversationEndpoint(store: ConversationStore, id: ConversationId, user: UserContext)
    : (r: Result<Conversation, HttpError>)
    reads store
    requires UniqueIds(store.conversations)
    ensures r.Err? ==> r.error.status == NotFound || r.error.status == Forbidden
    ensures r.Err? && r.error.status == NotFound <==> forall c :: c in store.conversations ==> c.id != id
    ensures r.Ok? <==> exists c :: c in store.conversations && c.id == id && c.userId == user.userId
    ensures r.Ok? ==> r.value in store.conversations && r.value.id == id && r.value.userId == user.userId
  {
    var found := store.GetConversation(id);
    assert found.Some? ==> found.value in store.conversations && found.value.id == id;
    assert found.Some? ==> forall c :: c in store.conversations && c.id == id ==> c == found.value;
    Access(found, user)
  }

  /** A missing conversation gets the same answer whoever asks, so the
      answer reveals nothing about owners. */
  lemma NotFoundForEveryone(store: ConversationStore, id: ConversationId, u1: UserContext, u2: UserContext)
    requires UniqueIds(store.conversations)
    requires GetConversationEndpoint(store, id, u1) == Err(HttpError(NotFound, NotFoundDetail))
    ensures GetConversationEndpoint(store, id, u2) == GetConversationEndpoint(store, id, u1)
  {
  }

  /** The body of a successful delete: `{"status": "deleted", "conversation_id": id}`. */
  datatype DeleteResponse = DeleteResponse(status: string, conversationId: ConversationId)

  const DeletedStatus := "deleted"

  /** `DELETE /chat/conversations/{id}`: the same access decision as reading
      it, and only when that lets the caller through is the store asked to
      delete, removing the conversation and all its messages. A refused
      request leaves the store as it was. */
  method DeleteConversationEndpoint(store: ConversationStore, id: ConversationId, user: UserContext)
    returns (r: Result<DeleteResponse, HttpError>)
    requires store.Valid()
    modifies store
    ensures store.Valid()
    ensures r.Err? <==> old(GetConversationEndpoint(store, id, user)).Err?
    ensures r.Err? ==> r.error == old(GetConversationEndpoint(store, id, user)).error
    ensures r.Err? ==> unchanged(store)
    ensures r.Err? ==> r.error.status != InternalError
    ensures r.Ok? ==>
      && r.value == DeleteResponse(DeletedStatus, id)
      && store.messages == MessagesNotOf(old(store.messages), id)
      && MessagesOf(store.messages, id) == []
      && store.GetConversation(id) == None
      && (forall c :: c in store.conversations <==> c in old(store.conversations) && c.id != id)
  {
    var decision := Access(store.GetConversation(id), user);
    if decision.Err? {
      return Err(decision.error);
    }
    var deleted := store.DeleteConversation(id);
    r := if deleted then Ok(DeleteResponse(DeletedStatus, id))
         else Err(HttpError(InternalError, DeleteFailedDetail));
  }

  /** `POST /chat`: an invalid request is refused by validation, a turn
      that fails becomes a 500 carrying the failure's text, and a completed
      turn is answered as the engine built it. */
  method ChatEndpoint(store: ConversationStore, env: Collaborators, request: ChatRequest,
                      user: UserContext, token: string)
    returns (r: Result<ChatResponse, HttpError>)
    requires store.Valid()
    modifies store
    ensures store.Valid()
    ensures (r.Err? && r.error.status == Unprocessable) <==> !ValidChatRequest(request)
    ensures !ValidChatRequest(request) ==> r == Err(HttpError(Unprocessable, ValidationDetail)) && unchanged(store)
    ensures ValidChatRequest(request) ==>
      && |store.messages| == |old(store.messages)| + (if r.Ok? then 2 else 1)
      && var history := MessagesOf(store.messages[..|old(store.messages)| + 1], old(TurnConversationOf(store, request)));
      && (r.Ok? <==> TurnAnswers(env, request.message, history))
      && (r.Err? ==>
            r.error == HttpError(InternalError, ProcessFailedPrefix + TurnFailure(env, request.message, history)))
    ensures r.Ok? ==>
      && |store.messages| == |old(store.messages)| + 2
      && store.messages[|old(store.messages)|].content == request.message
      && store.messages[|old(store.messages)| + 1].content == r.value.message
      && r.value.intent == Some(IntentName(Classify(request.message).intent))
  {
    if !ValidChatRequest(request) {
      return Err(HttpError(Unprocessable, ValidationDetail));
    }
    var outcome := ProcessMessage(store, env, request, user, token);
    if outcome.Err? {
      r := Err(HttpError(InternalError, ProcessFailedPrefix + outcome.error));
    } else {
      r := Ok(outcome.value);
    }
  }

  /** `GET /chat/conversations`: the caller's own conversations, most
      recently updated first, one page of them. */
  method ListConversationsEndpoint(store: ConversationStore, user: UserContext, limit: nat := 50, skip: nat := 0)
    returns (r: seq<Conversation>)
    requires store.Valid()
    ensures r == Seqs.Page(ByRecentUpdate(OwnedBy(store.conversations, user.userId)), skip, limit)
    ensures forall c :: c in r ==> c in store.conversations && c.userId == user.userId
    ensures forall i, j :: 0 <= i < j < |r| ==> r[i].updatedAt >= r[j].updatedAt
  {
    r := store.ListConversations(user.userId, limit, skip);
  }
}
