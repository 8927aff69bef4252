/** One turn of the assistant: keyword intent rules, knowledge retrieval by
    intent, the recent-history window, and the orchestration that records
    the user's message and the reply in the conversation store. The text
    generator is a parameter and its output is never inspected. */
module AiEngine {
  import opened Common
  import opened Text
  import opened Seqs
  import opened ServiceModel
  import opened Actions
  import opened ConversationModel
  import opened ConversationRepo
  import opened VectorStore
  import opened Llm
  import opened Security
  import Provision

  datatype Intent =
    | ProvisionService | GetServiceInfo | Troubleshoot | OptimizeCosts | GetConnectionInfo | GeneralQuestion

  function IntentName(i: Intent): string
  {
    match i
    case ProvisionService => "provision_service"
    case GetServiceInfo => "get_service_info"
    case Troubleshoot => "troubleshoot"
    case OptimizeCosts => "optimize_costs"
    case GetConnectionInfo => "get_connection_info"
    case GeneralQuestion => "general_question"
  }

  const ProvisionWords: seq<string> := ["create", "provision", "need", "want", "set up", "setup"]
  const ConnectionWords: seq<string> := ["connect", "connection", "credentials"]
  const TroubleWords: seq<string> := ["problem", "issue", "error", "broken", "not working"]
  const CostWords: seq<string> := ["cost", "bill", "expensive", "save money"]

  /** The service types a message is scanned for, in scan order; mysql is
      not among them. */
  const ServiceTypeWords: seq<string> := ["redis", "rabbitmq", "postgresql", "mongodb", "elasticsearch"]

  /** Every classification carries this confidence. */
  const Confidence: real := 0.85

  datatype Classification = Classification(intent: Intent, entities: map<string, string>, confidence: real)

  /** The entities of a provisioning request: the first service type the
      lower-cased message mentions, if any. */
  function ServiceTypeEntities(lowered: string): (e: map<string, string>)
    ensures e == map[] <==> !ContainsAny(lowered, ServiceTypeWords)
    ensures e != map[] ==> e.Keys == {"service_type"} && e["service_type"] in ServiceTypeWords
  {
    var hit := FirstContained(lowered, ServiceTypeWords);
    if hit.Some? then
      var e := map["service_type" := ServiceTypeWords[hit.value]];
      assert "service_type" in e;
      e
    else map[]
  }

  /** The keyword part of `_detect_intent`: the groups are tried in a fixed
      order on the lower-cased message and the first that matches wins. */
  function Classify(message: string): (c: Classification)
    ensures c.confidence == Confidence
    ensures c.intent != GetServiceInfo
    ensures c.entities != map[] ==> c.intent == ProvisionService
  {
    var lowered := Lower(message);
    if ContainsAny(lowered, ProvisionWords) then
      Classification(ProvisionService, ServiceTypeEntities(lowered), Confidence)
    else if ContainsAny(lowered, ConnectionWords) then Classification(GetConnectionInfo, map[], Confidence)
    else if ContainsAny(lowered, TroubleWords) then Classification(Troubleshoot, map[], Confidence)
    else if ContainsAny(lowered, CostWords) then Classification(OptimizeCosts, map[], Confidence)
    else Classification(GeneralQuestion, map[], Confidence)
  }

  /** A keyword rule, as the reference reading of the classifier. */
  datatype Rule = Rule(intent: Intent, keywords: seq<string>)

  const IntentRules: seq<Rule> := [
    Rule(ProvisionService, ProvisionWords),
    Rule(GetConnectionInfo, ConnectionWords),
    Rule(Troubleshoot, TroubleWords),
    Rule(OptimizeCosts, CostWords)]

  /** The first rule, from position `from` on, one of whose keywords occurs in `s`. */
  function FirstMatchingRule(s: string, rules: seq<Rule>, from: nat): (k: Option<nat>)
    requires from <= |rules|
    ensures k.Some? ==> from <= k.value < |rules| && ContainsAny(s, rules[k.value].keywords)
    ensures k.Some? ==> forall j :: from <= j < k.value ==> !ContainsAny(s, rules[j].keywords)
    ensures k.None? ==> forall j :: from <= j < |rules| ==> !ContainsAny(s, rules[j].keywords)
    decreases |rules| - from
  {
    if from == |rules| then None
    else if ContainsAny(s, rules[from].keywords) then Some(from)
    else FirstMatchingRule(s, rules, from + 1)
  }

  /** The classifier picks the intent of the first matching rule, and the
      general question when none matches. */
  lemma ClassifyIsFirstMatchingRule(message: string)
    ensures var k := FirstMatchingRule(Lower(message), IntentRules, 0);
      Classify(message).intent == (if k.Some? then IntentRules[k.value].intent else GeneralQuestion)
  {
    var s := Lower(message);
    var k := FirstMatchingRule(s, IntentRules, 0);
    if k.Some? {
      var i := k.value;
      assert i == 0 || !ContainsAny(s, IntentRules[0].keywords);
      assert i <= 1 || !ContainsAny(s, IntentRules[1].keywords);
      assert i <= 2 || !ContainsAny(s, IntentRules[2].keywords);
      assert ContainsAny(s, IntentRules[i].keywords);
    } else {
      assert !ContainsAny(s, IntentRules[0].keywords);
      assert !ContainsAny(s, IntentRules[1].keywords);
      assert !ContainsAny(s, IntentRules[2].keywords);
      assert !ContainsAny(s, IntentRules[3].keywords);
    }
  }

  /** The service-type entity is the first type in scan order that the
      message mentions. */
  lemma EntityIsFirstTypeMentioned(message: string, k: nat)
    requires Classify(message).intent == ProvisionService
    requires k < |ServiceTypeWords| && Contains(Lower(message), ServiceTypeWords[k])
    requires forall j :: 0 <= j < k ==> !Contains(Lower(message), ServiceTypeWords[j])
    ensures Classify(message).entities == map["service_type" := ServiceTypeWords[k]]
  {
    var hit := FirstContained(Lower(message), ServiceTypeWords);
    assert hit.Some?;
    assert hit.value == k;
  }

  /** A provisioning request made in conversation never yields a mysql
      configuration: mysql is not scanned for, and a request that names no
      scanned type falls back to redis. */
  lemma ChatNeverProvisionsMysql(message: string, index: IndexSearch)
    requires Provision.Requirements(message, Classify(message).entities, index).Ok?
    ensures Provision.Requirements(message, Classify(message).entities, index).value.serviceType != MySQL
  {
    var e := Classify(message).entities;
    if e != map[] {
      var w := e["service_type"];
      assert w in ServiceTypeWords;
      assert w != "mysql";
    }
  }

  /** A provisioning keyword outranks every other group: "I need help with
      an error" is a provisioning request. */
  lemma ProvisionWordsOutrankTrouble()
    ensures Classify("I need help with an error").intent == ProvisionService
  {
    var message := "I need help with an error";
    assert message[2] == 'n' && message[3] == 'e' && message[4] == 'e' && message[5] == 'd';
    assert message[2..6] == "need";
    assert OccursAt(message, "need", 2);
    LoweredKeepsLowerCaseWord(message, "need");
    assert Contains(Lower(message), ProvisionWords[2]);
  }

  /** `_detect_intent`: the generator is asked first and may fail, but its
      answer is discarded; the keyword rules decide. */
  function DetectIntent(message: string, llm: TextGenerator): (r: Result<Classification, string>)
    ensures r.Ok? <==> llm(ClassifyIntent(message)).Ok?
    ensures r.Err? ==> r.error == llm(ClassifyIntent(message)).error
    ensures r.Ok? ==> r.value == Classify(message)
  {
    match llm(ClassifyIntent(message))
    case Err(e) => Err(e)
    case Ok(_) => Ok(Classify(message))
  }

  /** Two generators that both answer lead to the same classification. */
  lemma GeneratedClassificationIgnored(message: string, llm1: TextGenerator, llm2: TextGenerator)
    requires DetectIntent(message, llm1).Ok? && DetectIntent(message, llm2).Ok?
    ensures DetectIntent(message, llm1) == DetectIntent(message, llm2)
  {
  }

  /** The knowledge category searched for each intent (`category_map.get`). */
  function KnowledgeCategory(i: Intent): (c: Option<string>)
    ensures c.Some? <==> i == ProvisionService || i == Troubleshoot || i == OptimizeCosts
    ensures i == ProvisionService ==> c == Some("setup")
    ensures i == Troubleshoot ==> c == Some("common_issues")
    ensures i == OptimizeCosts ==> c == Some("best_practices")
  {
    match i
    case ProvisionService => Some("setup")
    case Troubleshoot => Some("common_issues")
    case OptimizeCosts => Some("best_practices")
    case _ => None
  }

  const ContextResults: nat := 2
  const RecentCount: nat := 10
  const HistoryCount: nat := 5

  /** `_retrieve_context`. */
  function RetrieveContext(message: string, intent: Intent, index: IndexSearch): Result<seq<KnowledgeItem>, string>
  {
    Search(index, message, KnowledgeCategory(intent), ContextResults)
  }

  function HistoryLines(ms: seq<ConversationMessage>): (h: seq<HistoryLine>)
    ensures |h| == |ms| && forall i :: 0 <= i < |ms| ==> h[i] == HistoryLine(ms[i].role, ms[i].content)
  {
    seq(|ms|, i requires 0 <= i < |ms| => HistoryLine(ms[i].role, ms[i].content))
  }

  /** The reply prompt of `_generate_response`: the retrieved contents and
      the last five of the recent messages. */
  function ReplyPrompt(message: string, context: seq<KnowledgeItem>, recent: seq<ConversationMessage>): (p: Prompt)
    ensures p.ComposeReply? && p.message == message && |p.history| <= HistoryCount
  {
    ComposeReply(message, Contents(context), HistoryLines(LastN(recent, HistoryCount)))
  }

  /** Reading ten recent messages and keeping five is keeping the last five
      of the conversation; and right after a message is saved, it is the
      last line of the history. */
  lemma HistoryWindow(ms: seq<ConversationMessage>, m: ConversationMessage)
    ensures LastN(LastN(ms, RecentCount), HistoryCount) == LastN(ms, HistoryCount)
    ensures var h := LastN(LastN(ms + [m], RecentCount), HistoryCount);
      |h| > 0 && h[|h| - 1] == m
  {
    LastNOfLastN(ms, RecentCount, HistoryCount);
    LastNOfLastN(ms + [m], RecentCount, HistoryCount);
  }

  /** The collaborators of a turn: the text generator, the knowledge index,
      and the rendering of a provisioning proposal as reply text. */
  datatype Collaborators = Collaborators(
    llm: TextGenerator,
    index: IndexSearch,
    renderProposal: Provision.ProvisionProposal -> string)

  /** The conversation a turn is recorded in: the requested one if it
      exists (whoever owns it), otherwise the one created for the caller. */
  function TurnConversation(request: ChatRequest, found: Option<Conversation>, nextId: ConversationId): ConversationId
  {
    if request.conversationId.Some? && found.Some? then request.conversationId.value else nextId
  }

  /** The conversation requested by `request`, looked up in `store`. */
  function Requested(store: ConversationStore, request: ChatRequest): Option<Conversation>
    reads store
  {
    if request.conversationId.Some? then store.GetConversation(request.conversationId.value) else None
  }

  /** The conversation a turn on `store` is recorded in. */
  function TurnConversationOf(store: ConversationStore, request: ChatRequest): ConversationId
    reads store
  {
    TurnConversation(request, Requested(store, request), store.nextId)
  }

  /** The get-or-create step of `process_message`: a requested conversation
      that exists is used as it is and nothing is written; otherwise exactly
      one conversation is added, owned by the caller and their organisation,
      with the default title, no messages and empty metadata. */
  method OpenConversation(store: ConversationStore, request: ChatRequest, user: UserContext)
    returns (cid: ConversationId)
    requires store.Valid()
    modifies store
    ensures store.Valid() && store.messages == old(store.messages)
    ensures cid == old(TurnConversationOf(store, request))
    ensures old(Requested(store, request)).Some? ==> unchanged(store)
    ensures old(Requested(store, request)).None? ==>
      && store.conversations
         == old(store.conversations) + [NewConversation(old(store.nextId), user.userId, user.organizationId, old(store.clock))]
      && store.nextId == old(store.nextId) + 1 && store.clock == old(store.clock) + 2
      && forall id :: id != cid ==> store.GetConversation(id) == old(store.GetConversation(id))
    ensures store.GetConversation(cid).Some?
    ensures cid == old(store.nextId) ==> store.GetConversation(cid).value.userId == user.userId
  {
    var found := None;
    if request.conversationId.Some? {
      found := store.GetConversation(request.conversationId.value);
    }
    if found.Some? {
      cid := found.value.id;
      var k :| 0 <= k < |store.conversations| && store.conversations[k] == found.value;
      assert RowConsistent(store.conversations[k], store.messages, store.nextId, store.clock);
    } else {
      var c := store.CreateConversation(user.userId, user.organizationId);
      cid := c.id;
    }
  }

  /** What a turn answers: the reply text, its actions and the intent. */
  datatype Reply = Reply(text: string, actions: seq<Action>, intent: Intent)

  /** A reply fits a message and the conversation's messages so far when it
      is the provisioning proposal for a provisioning request, and otherwise
      the generated answer to the reply prompt, with no actions. */
  predicate ReplyFits(env: Collaborators, message: string, history: seq<ConversationMessage>, reply: Reply)
  {
    && reply.intent == Classify(message).intent
    && env.llm(ClassifyIntent(message)).Ok?
    && RetrieveContext(message, reply.intent, env.index).Ok?
    && (reply.intent == ProvisionService ==>
          var req := Provision.Requirements(message, Classify(message).entities, env.index);
          && req.Ok?
          && var hourly := Provision.EstimateHourlyCost(req.value.tier);
          && reply.actions == [ProvisionServiceAction(Provision.ServiceName(req.value), req.value, hourly,
                                                      Provision.PendingConfirmation)]
          && reply.text == env.renderProposal(Provision.ProvisionProposal(req.value, hourly, MonthlyCost(hourly))))
    && (reply.intent != ProvisionService ==>
          && reply.actions == []
          && env.llm(ReplyPrompt(message, RetrieveContext(message, reply.intent, env.index).value,
                                 LastN(history, RecentCount))) == Ok(reply.text))
  }

  /** Every collaborator a turn calls answers: the classification, the
      retrieval and, by intent, the requirement lookup of the provisioning
      workflow or the reply generation. */
  predicate TurnAnswers(env: Collaborators, message: string, history: seq<ConversationMessage>)
  {
    var intent := Classify(message).intent;
    && env.llm(ClassifyIntent(message)).Ok?
    && RetrieveContext(message, intent, env.index).Ok?
    && (intent == ProvisionService ==>
          Provision.Requirements(message, Classify(message).entities, env.index).Ok?)
    && (intent != ProvisionService ==>
          env.llm(ReplyPrompt(message, RetrieveContext(message, intent, env.index).value,
                              LastN(history, RecentCount))).Ok?)
  }

  /** What a turn that does not answer fails with: the error of the first
      collaborator to fail, in the order they are called. */
  function TurnFailure(env: Collaborators, message: string, history: seq<ConversationMessage>): string
    requires !TurnAnswers(env, message, history)
  {
    var intent := Classify(message).intent;
    if env.llm(ClassifyIntent(message)).Err? then env.llm(ClassifyIntent(message)).error
    else if RetrieveContext(message, intent, env.index).Err? then RetrieveContext(message, intent, env.index).error
    else if intent == ProvisionService then Provision.Requirements(message, Classify(message).entities, env.index).error
    else env.llm(ReplyPrompt(message, RetrieveContext(message, intent, env.index).value,
                             LastN(history, RecentCount))).error
  }

  /** The reply of a turn whose collaborators all answer. */
  function AnsweredReply(env: Collaborators, message: string, history: seq<ConversationMessage>): (reply: Reply)
    requires TurnAnswers(env, message, history)
    ensures ReplyFits(env, message, history, reply)
  {
    var intent := Classify(message).intent;
    if intent == ProvisionService then
      var c := Provision.Requirements(message, Classify(message).entities, env.index).value;
      var hourly := Provision.EstimateHourlyCost(c.tier);
      Reply(env.renderProposal(Provision.ProvisionProposal(c, hourly, MonthlyCost(hourly))),
            [ProvisionServiceAction(Provision.ServiceName(c), c, hourly, Provision.PendingConfirmation)], intent)
    else
      Reply(env.llm(ReplyPrompt(message, RetrieveContext(message, intent, env.index).value,
                                LastN(history, RecentCount))).value, [], intent)
  }

  /** A reply fits exactly when every collaborator answers, and then only
      one reply fits. */
  lemma ReplyFitsExactlyWhenTurnAnswers(env: Collaborators, message: string, history: seq<ConversationMessage>)
    ensures (exists reply :: ReplyFits(env, message, history, reply)) <==> TurnAnswers(env, message, history)
    ensures forall r1, r2 :: ReplyFits(env, message, history, r1) && ReplyFits(env, message, history, r2) ==> r1 == r2
  {
    if TurnAnswers(env, message, history) {
      var reply := AnsweredReply(env, message, history);
      assert ReplyFits(env, message, history, reply);
    }
  }

  /** Classification, retrieval, the recent history and the dispatch of
      `process_message`; the store is only read. */
  method Respond(store: ConversationStore, env: Collaborators, message: string, cid: ConversationId)
    returns (r: Result<Reply, string>)
    requires store.Valid()
    ensures r.Ok? <==> TurnAnswers(env, message, MessagesOf(store.messages, cid))
    ensures r.Err? ==> r.error == TurnFailure(env, message, MessagesOf(store.messages, cid))
    ensures r.Ok? ==> ReplyFits(env, message, MessagesOf(store.messages, cid), r.value)
  {
    var classified := DetectIntent(message, env.llm);
    if classified.Err? {
      return Err(classified.error);
    }
    var intent := classified.value.intent;
    var context := SearchKnowledge(env.index, message, KnowledgeCategory(intent), ContextResults);
    if context.Err? {
      return Err(context.error);
    }
    var recent := store.GetRecentMessages(cid, RecentCount);
    if intent == ProvisionService {
      var plan := Provision.Execute(message, classified.value.entities, env.index);
      if plan.Err? {
        return Err(plan.error);
      }
      r := Ok(Reply(env.renderProposal(plan.value.proposal), plan.value.actions, intent));
    } else {
      var generated := env.llm(ReplyPrompt(message, context.value, recent));
      if generated.Err? {
        return Err(generated.error);
      }
      r := Ok(Reply(generated.value, [], intent));
    }
  }

  /** The first half of `process_message`: get or create the conversation
      and save the user's message in it. */
  method RecordUserMessage(store: ConversationStore, request: ChatRequest, user: UserContext)
    returns (cid: ConversationId)
    requires store.Valid()
    modifies store
    ensures store.Valid()
    ensures cid == old(TurnConversationOf(store, request))
    ensures old(Requested(store, request)).None? ==>
      && |store.conversations| == |old(store.conversations)| + 1
      && store.conversations[..|old(store.conversations)|] == old(store.conversations)
      && store.conversations[|old(store.conversations)|]
         == NewConversation(cid, user.userId, user.organizationId, old(store.clock))
              .(messageCount := 1, updatedAt := old(store.clock) + 3)
    ensures forall id :: id != cid ==> store.GetConversation(id) == old(store.GetConversation(id))
    ensures |store.messages| == |old(store.messages)| + 1
    ensures store.messages == old(store.messages)
      + [ConversationMessage(store.messages[|old(store.messages)|].id, cid, User, request.message,
                             store.messages[|old(store.messages)|].timestamp, request.context)]
    ensures MessagesOf(store.messages, cid) == MessagesOf(old(store.messages), cid) + [store.messages[|old(store.messages)|]]
    ensures store.GetConversation(cid).Some?
    ensures cid == old(store.nextId) ==> store.GetConversation(cid).value.userId == user.userId
  {
    ghost var table, clock0, found := store.conversations, store.clock, Requested(store, request);
    cid := OpenConversation(store, request, user);
    ghost var afterOpen := store.conversations;
    ghost var before := store.messages;
    ghost var owner := store.GetConversation(cid).value.userId;
    var m := store.SaveMessage(cid, User, request.message, Some(request.context));
    MessagesOfSnoc(before, m, cid);
    assert |store.conversations| == |afterOpen| && forall i :: 0 <= i < |afterOpen| && afterOpen[i].id != cid ==> store.conversations[i] == afterOpen[i];
    if found.None? {
      assert afterOpen[|table|] == NewConversation(cid, user.userId, user.organizationId, clock0);
      assert store.conversations[|table|] == afterOpen[|table|].(messageCount := 1, updatedAt := clock0 + 3);
      assert store.conversations[..|table|] == table;
    }
    assert store.GetConversation(cid).value.userId == owner by {
      var k :| 0 <= k < |store.conversations| && store.conversations[k] == store.GetConversation(cid).value;
    }
  }

  /** The second half of `process_message`: answer the message and save the
      reply, tagged with its intent; a failure saves nothing. */
  method AnswerTurn(store: ConversationStore, env: Collaborators, message: string, cid: ConversationId)
    returns (r: Result<Reply, string>)
    requires store.Valid()
    modifies store
    ensures store.Valid()
    ensures r.Err? ==> unchanged(store)
    ensures r.Ok? <==> TurnAnswers(env, message, MessagesOf(old(store.messages), cid))
    ensures r.Err? ==> r.error == TurnFailure(env, message, MessagesOf(old(store.messages), cid))
    ensures forall id :: id != cid ==> store.GetConversation(id) == old(store.GetConversation(id))
    ensures r.Ok? ==>
      && |store.messages| == |old(store.messages)| + 1
      && store.messages[..|old(store.messages)|] == old(store.messages)
      && store.messages[|old(store.messages)|].conversationId == cid
      && store.messages[|old(store.messages)|].role == Assistant
      && store.messages[|old(store.messages)|].content == r.value.text
      && store.messages[|old(store.messages)|].metadata == map["intent" := Str(IntentName(r.value.intent))]
      && |MessagesOf(store.messages, cid)| == |MessagesOf(old(store.messages), cid)| + 1
      && ReplyFits(env, message, MessagesOf(old(store.messages), cid), r.value)
    ensures store.GetConversation(cid).Some? <==> old(store.GetConversation(cid)).Some?
  {
    r := Respond(store, env, message, cid);
    if r.Err? {
      return;
    }
    ghost var before := store.messages;
    var m := store.SaveMessage(cid, Assistant, r.value.text, Some(map["intent" := Str(IntentName(r.value.intent))]));
    MessagesOfSnoc(before, m, cid);
    assert store.messages[..|before|] == before;
  }

  /** A log that grew by one message and then by at most one more still
      starts with both earlier logs. */
  lemma LogPrefixes(a: seq<ConversationMessage>, b: seq<ConversationMessage>, c: seq<ConversationMessage>)
    requires |b| == |a| + 1 && b[..|a|] == a
    requires c == b || (|c| == |b| + 1 && c[..|b|] == b)
    ensures |c| >= |a| + 1 && c[..|a| + 1] == b && c[..|a|] == a && c[|a|] == b[|a|]
  {
    if c != b {
      assert c[..|a| + 1] == c[..|b|][..|a| + 1];
    }
  }

  /** `process_message`. The user's message is saved before anything can
      fail, so a failed turn leaves exactly that one message; a completed
      turn adds the reply too, tagged with the intent. */
  method ProcessMessage(store: ConversationStore, env: Collaborators, request: ChatRequest,
                        user: UserContext, token: string)
    returns (r: Result<ChatResponse, string>)
    requires store.Valid()
    modifies store
    ensures store.Valid()
    ensures |store.messages| == |old(store.messages)| + (if r.Ok? then 2 else 1)
    ensures store.messages[..|old(store.messages)|] == old(store.messages)
    ensures var cid := old(TurnConversationOf(store, request));
      var history := MessagesOf(store.messages[..|old(store.messages)| + 1], cid);
      && (r.Ok? <==> TurnAnswers(env, request.message, history))
      && (r.Err? ==> r.error == TurnFailure(env, request.message, history))
      && (forall id :: id != cid ==> store.GetConversation(id) == old(store.GetConversation(id)))
    ensures var cid := old(TurnConversationOf(store, request));
      && store.messages[|old(store.messages)|].conversationId == cid
      && store.messages[|old(store.messages)|].role == User
      && store.messages[|old(store.messages)|].content == request.message
      && store.messages[|old(store.messages)|].metadata == request.context
      && store.GetConversation(cid).Some?
      && (r.Ok? ==> r.value.conversationId == cid)
    ensures r.Ok? ==>
      && store.messages[|old(store.messages)| + 1].conversationId == r.value.conversationId
      && store.messages[|old(store.messages)| + 1].role == Assistant
      && store.messages[|old(store.messages)| + 1].content == r.value.message
      && store.messages[|old(store.messages)| + 1].metadata == map["intent" := Str(IntentName(Classify(request.message).intent))]
      && |MessagesOf(store.messages, r.value.conversationId)|
         == |MessagesOf(old(store.messages), r.value.conversationId)| + 2
    ensures r.Ok? ==>
      && r.value.intent == Some(IntentName(Classify(request.message).intent))
      && r.value.metadata == map["confidence" := Num(Confidence)]
      && ReplyFits(env, request.message,
                   MessagesOf(store.messages[..|old(store.messages)| + 1], r.value.conversationId),
                   Reply(r.value.message, r.value.actions, Classify(request.message).intent))
  {
    ghost var before := store.messages;
    var cid := RecordUserMessage(store, request, user);
    ghost var afterUser := store.messages;
    ghost var history := MessagesOf(afterUser, cid);
    var reply := AnswerTurn(store, env, request.message, cid);
    LogPrefixes(before, afterUser, store.messages);
    assert MessagesOf(store.messages[..|before| + 1], cid) == history;
    if reply.Err? {
      assert reply.error == TurnFailure(env, request.message, history);
      return Err(reply.error);
    }
    r := Ok(ChatResponse(cid, reply.value.text, Some(IntentName(reply.value.intent)), reply.value.actions,
                         map["confidence" := Num(Confidence)]));
  }
}
