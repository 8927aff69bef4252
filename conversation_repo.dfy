/** The conversation store: a table of conversations and a log of messages,
    updated in place. Timestamps come from a clock that ticks once per
    timestamp taken, so later writes carry strictly larger timestamps. */
module ConversationRepo {
  import opened Common
  import opened Seqs
  import opened Sorting
  import opened ConversationModel

  /** The messages of conversation `cid`, in the order they were saved:
      what `find({"conversation_id": cid})` selects. */
  function MessagesOf(ms: seq<ConversationMessage>, cid: ConversationId): (r: seq<ConversationMessage>)
    ensures |r| <= |ms|
    decreases |ms|
  {
    if ms == [] then []
    else MessagesOf(ms[..|ms| - 1], cid)
         + (if ms[|ms| - 1].conversationId == cid then [ms[|ms| - 1]] else [])
  }

  /** The messages `delete_many({"conversation_id": cid})` leaves behind. */
  function MessagesNotOf(ms: seq<ConversationMessage>, cid: ConversationId): (r: seq<ConversationMessage>)
    ensures forall m :: m in r ==> m in ms && m.conversationId != cid
    decreases |ms|
  {
    if ms == [] then []
    else MessagesNotOf(ms[..|ms| - 1], cid)
         + (if ms[|ms| - 1].conversationId != cid then [ms[|ms| - 1]] else [])
  }

  /** The conversations of one user, in table order: `find({"user_id": u})`. */
  function OwnedBy(cs: seq<Conversation>, userId: string): (r: seq<Conversation>)
    ensures forall c :: c in r ==> c in cs && c.userId == userId
    decreases |cs|
  {
    if cs == [] then []
    else OwnedBy(cs[..|cs| - 1], userId)
         + (if cs[|cs| - 1].userId == userId then [cs[|cs| - 1]] else [])
  }

  function UpdatedKey(c: Conversation): real
  {
    c.updatedAt as real
  }

  /** `sort("updated_at", -1)`. */
  function ByRecentUpdate(cs: seq<Conversation>): seq<Conversation>
  {
    SortDesc(cs, UpdatedKey)
  }

  /** The position of the conversation with id `id`, from position `from` on. */
  function IndexOfFrom(cs: seq<Conversation>, id: ConversationId, from: nat): (r: Option<nat>)
    requires from <= |cs|
    ensures r.Some? ==> from <= r.value < |cs| && cs[r.value].id == id
    ensures r.None? ==> forall j :: from <= j < |cs| ==> cs[j].id != id
    decreases |cs| - from
  {
    if from == |cs| then None
    else if cs[from].id == id then Some(from)
    else IndexOfFrom(cs, id, from + 1)
  }

  /** `find_one({"_id": id})` on the conversation table. */
  function IndexOf(cs: seq<Conversation>, id: ConversationId): (r: Option<nat>)
    ensures r.Some? ==> r.value < |cs| && cs[r.value].id == id
    ensures r.None? ==> forall j :: 0 <= j < |cs| ==> cs[j].id != id
  {
    IndexOfFrom(cs, id, 0)
  }

  predicate Chronological(ms: seq<ConversationMessage>)
  {
    forall i, j :: 0 <= i < j < |ms| ==> ms[i].timestamp < ms[j].timestamp
  }

  /** A conversation's messages are messages of the log, and of that conversation. */
  lemma {:induction false} MessagesOfMembers(ms: seq<ConversationMessage>, cid: ConversationId)
    ensures forall m :: m in MessagesOf(ms, cid) ==> m in ms && m.conversationId == cid
    decreases |ms|
  {
    if ms != [] {
      MessagesOfMembers(ms[..|ms| - 1], cid);
      forall m | m in MessagesOf(ms, cid)
        ensures m in ms && m.conversationId == cid
      {
        if m in MessagesOf(ms[..|ms| - 1], cid) {
          assert m in ms[..|ms| - 1];
        }
      }
    }
  }

  lemma {:induction false} MessagesOfAppend(a: seq<ConversationMessage>, b: seq<ConversationMessage>,
                                            cid: ConversationId)
    ensures MessagesOf(a + b, cid) == MessagesOf(a, cid) + MessagesOf(b, cid)
    decreases |b|
  {
    if b == [] {
      assert a + b == a;
    } else {
      var c := a + b;
      var init := b[..|b| - 1];
      var last := b[|b| - 1];
      assert c[..|c| - 1] == a + init;
      assert c[|c| - 1] == last;
      var tail := if last.conversationId == cid then [last] else [];
      assert MessagesOf(c, cid) == MessagesOf(a + init, cid) + tail;
      assert MessagesOf(b, cid) == MessagesOf(init, cid) + tail;
      MessagesOfAppend(a, init, cid);
    }
  }

  /** Saving one more message adds it to its own conversation's messages only. */
  lemma MessagesOfSnoc(ms: seq<ConversationMessage>, m: ConversationMessage, cid: ConversationId)
    ensures MessagesOf(ms + [m], cid)
         == MessagesOf(ms, cid) + (if m.conversationId == cid then [m] else [])
  {
    assert (ms + [m])[..|ms|] == ms;
  }

  lemma {:induction false} MessagesOfChronological(ms: seq<ConversationMessage>, cid: ConversationId)
    requires Chronological(ms)
    ensures Chronological(MessagesOf(ms, cid))
    decreases |ms|
  {
    if ms != [] {
      var init := ms[..|ms| - 1];
      assert Chronological(init);
      MessagesOfChronological(init, cid);
      MessagesOfMembers(init, cid);
      forall m | m in MessagesOf(init, cid)
        ensures m.timestamp < ms[|ms| - 1].timestamp
      {
        var k :| 0 <= k < |init| && init[k] == m;
      }
    }
  }

  lemma {:induction false} MessagesNotOfChronological(ms: seq<ConversationMessage>, cid: ConversationId)
    requires Chronological(ms)
    ensures Chronological(MessagesNotOf(ms, cid))
    decreases |ms|
  {
    if ms != [] {
      var init := ms[..|ms| - 1];
      assert Chronological(init);
      MessagesNotOfChronological(init, cid);
      forall m | m in MessagesNotOf(init, cid)
        ensures m.timestamp < ms[|ms| - 1].timestamp
      {
        var k :| 0 <= k < |init| && init[k] == m;
      }
    }
  }

  /** Deleting one conversation's messages leaves every other conversation's
      messages as they were. */
  lemma {:induction false} MessagesNotOfKeepsOthers(ms: seq<ConversationMessage>, cid: ConversationId,
                                                    other: ConversationId)
    requires other != cid
    ensures MessagesOf(MessagesNotOf(ms, cid), other) == MessagesOf(ms, other)
    decreases |ms|
  {
    if ms != [] {
      var init := ms[..|ms| - 1];
      var last := ms[|ms| - 1];
      MessagesNotOfKeepsOthers(init, cid, other);
      if last.conversationId != cid {
        assert MessagesNotOf(ms, cid) == MessagesNotOf(init, cid) + [last];
        MessagesOfSnoc(MessagesNotOf(init, cid), last, other);
      } else {
        assert MessagesNotOf(ms, cid) == MessagesNotOf(init, cid);
        assert MessagesOf(ms, other) == MessagesOf(init, other);
      }
    }
  }

  lemma {:induction false} MessagesOfAbsent(ms: seq<ConversationMessage>, cid: ConversationId)
    requires forall k :: 0 <= k < |ms| ==> ms[k].conversationId != cid
    ensures MessagesOf(ms, cid) == []
    decreases |ms|
  {
    if ms != [] {
      MessagesOfAbsent(ms[..|ms| - 1], cid);
    }
  }

  predicate UniqueIds(cs: seq<Conversation>)
  {
    forall i, j :: 0 <= i < j < |cs| ==> cs[i].id != cs[j].id
  }

  /** One conversation row agrees with the message log: its id was handed
      out, its times were taken from the clock, and its message count is the
      number of its messages. */
  ghost predicate RowConsistent(c: Conversation, ms: seq<ConversationMessage>, nextId: nat, clock: nat)
  {
    && c.id < nextId
    && c.createdAt <= c.updatedAt < clock
    && c.messageCount == |MessagesOf(ms, c.id)|
  }

  ghost predicate LogValid(ms: seq<ConversationMessage>, nextId: nat, clock: nat)
  {
    && (forall k :: 0 <= k < |ms| ==> ms[k].conversationId < nextId && ms[k].timestamp < clock)
    && Chronological(ms)
  }

  ghost predicate StoreValid(cs: seq<Conversation>, ms: seq<ConversationMessage>, nextId: nat, clock: nat)
  {
    && UniqueIds(cs)
    && (forall i :: 0 <= i < |cs| ==> RowConsistent(cs[i], ms, nextId, clock))
    && LogValid(ms, nextId, clock)
  }

  /** Inserting a fresh conversation keeps the store consistent and makes it
      findable by its id. */
  lemma CreateKeepsValid(cs: seq<Conversation>, ms: seq<ConversationMessage>, nextId: nat, clock: nat,
                         c: Conversation)
    requires StoreValid(cs, ms, nextId, clock)
    requires c.id == nextId && c.createdAt == clock && c.updatedAt == clock + 1 && c.messageCount == 0
    ensures StoreValid(cs + [c], ms, nextId + 1, clock + 2)
    ensures IndexOf(cs + [c], c.id) == Some(|cs|)
  {
    MessagesOfAbsent(ms, nextId);
    var cs' := cs + [c];
    assert forall i :: 0 <= i < |cs| ==> cs'[i] == cs[i] && cs[i].id < nextId;
    assert cs'[|cs|] == c;
    var k := IndexOf(cs', c.id);
    assert k.Some?;
  }

  /** The table after `save_message`: the row of the message's conversation
      has one more message and a fresh update time. */
  predicate AfterSave(cs: seq<Conversation>, cs': seq<Conversation>, cid: ConversationId, now: nat)
  {
    && |cs'| == |cs|
    && forall i :: 0 <= i < |cs| ==>
         cs'[i] == if cs[i].id == cid
           then cs[i].(messageCount := cs[i].messageCount + 1, updatedAt := now)
           else cs[i]
  }

  lemma SaveKeepsValid(cs: seq<Conversation>, ms: seq<ConversationMessage>, nextId: nat, clock: nat,
                       m: ConversationMessage, cs': seq<Conversation>, nextId': nat)
    requires StoreValid(cs, ms, nextId, clock)
    requires m.timestamp == clock
    requires nextId' == if m.conversationId >= nextId then m.conversationId + 1 else nextId
    requires AfterSave(cs, cs', m.conversationId, clock + 1)
    ensures StoreValid(cs', ms + [m], nextId', clock + 2)
  {
    forall cid | true
      ensures MessagesOf(ms + [m], cid) == MessagesOf(ms, cid) + (if m.conversationId == cid then [m] else [])
    {
      MessagesOfSnoc(ms, m, cid);
    }
    var ms' := ms + [m];
    assert forall k :: 0 <= k < |ms| ==> ms'[k] == ms[k];
    forall i | 0 <= i < |cs'|
      ensures RowConsistent(cs'[i], ms', nextId', clock + 2)
    {
      assert RowConsistent(cs[i], ms, nextId, clock);
    }
  }

  /** The table after `update_conversation`. */
  predicate AfterUpdate(cs: seq<Conversation>, cs': seq<Conversation>, cid: ConversationId,
                        title: Option<string>, metadata: Option<Metadata>, now: nat)
  {
    && |cs'| == |cs|
    && forall i :: 0 <= i < |cs| ==>
         cs'[i] == if cs[i].id == cid
           then cs[i].(updatedAt := now,
                       title := if title.Some? then title.value else cs[i].title,
                       metadata := if metadata.Some? then metadata.value else cs[i].metadata)
           else cs[i]
  }

  lemma UpdateKeepsValid(cs: seq<Conversation>, ms: seq<ConversationMessage>, nextId: nat, clock: nat,
                         cs': seq<Conversation>, cid: ConversationId, title: Option<string>,
                         metadata: Option<Metadata>)
    requires StoreValid(cs, ms, nextId, clock)
    requires AfterUpdate(cs, cs', cid, title, metadata, clock)
    ensures StoreValid(cs', ms, nextId, clock + 1)
  {
    forall i | 0 <= i < |cs'|
      ensures RowConsistent(cs'[i], ms, nextId, clock + 1)
    {
      assert RowConsistent(cs[i], ms, nextId, clock);
    }
  }

  lemma DeleteKeepsValid(cs: seq<Conversation>, ms: seq<ConversationMessage>, nextId: nat, clock: nat,
                         cid: ConversationId, i: nat)
    requires StoreValid(cs, ms, nextId, clock)
    requires i < |cs| && cs[i].id == cid
    ensures StoreValid(cs[..i] + cs[i + 1..], MessagesNotOf(ms, cid), nextId, clock)
    ensures forall c :: c in cs[..i] + cs[i + 1..] <==> c in cs && c.id != cid
  {
    var ms' := MessagesNotOf(ms, cid);
    LogAfterDelete(ms, nextId, clock, cid);
    var cs' := cs[..i] + cs[i + 1..];
    assert forall j :: 0 <= j < |cs'| ==> cs'[j] == cs[if j < i then j else j + 1];
    forall j | 0 <= j < |cs'|
      ensures RowConsistent(cs'[j], ms', nextId, clock)
    {
      var j0 := if j < i then j else j + 1;
      assert RowConsistent(cs[j0], ms, nextId, clock);
      MessagesNotOfKeepsOthers(ms, cid, cs[j0].id);
    }
    RemoveAtMembers(cs, i);
  }

  /** Cutting out the row at `i` of a table with unique ids removes exactly
      the conversations with that row's id. */
  lemma RemoveAtMembers(cs: seq<Conversation>, i: nat)
    requires UniqueIds(cs) && i < |cs|
    ensures UniqueIds(cs[..i] + cs[i + 1..])
    ensures forall c :: c in cs[..i] + cs[i + 1..] <==> c in cs && c.id != cs[i].id
  {
    var cs' := cs[..i] + cs[i + 1..];
    assert forall j :: 0 <= j < |cs'| ==> cs'[j] == cs[if j < i then j else j + 1];
    forall c | c in cs && c.id != cs[i].id
      ensures c in cs'
    {
      var j :| 0 <= j < |cs| && cs[j] == c;
      assert j != i;
      assert cs'[if j < i then j else j - 1] == c;
    }
  }

  lemma DeleteAbsentKeepsValid(cs: seq<Conversation>, ms: seq<ConversationMessage>, nextId: nat,
                               clock: nat, cid: ConversationId)
    requires StoreValid(cs, ms, nextId, clock)
    requires forall j :: 0 <= j < |cs| ==> cs[j].id != cid
    ensures StoreValid(cs, MessagesNotOf(ms, cid), nextId, clock)
  {
    LogAfterDelete(ms, nextId, clock, cid);
    forall j | 0 <= j < |cs|
      ensures RowConsistent(cs[j], MessagesNotOf(ms, cid), nextId, clock)
    {
      MessagesNotOfKeepsOthers(ms, cid, cs[j].id);
    }
  }

  lemma LogAfterDelete(ms: seq<ConversationMessage>, nextId: nat, clock: nat, cid: ConversationId)
    requires LogValid(ms, nextId, clock)
    ensures LogValid(MessagesNotOf(ms, cid), nextId, clock)
    ensures MessagesOf(MessagesNotOf(ms, cid), cid) == []
  {
    var ms' := MessagesNotOf(ms, cid);
    MessagesNotOfChronological(ms, cid);
    assert forall k :: 0 <= k < |ms'| ==> ms'[k] in ms;
    MessagesOfAbsent(ms', cid);
  }

  class ConversationStore {
    /** The conversation table, in insertion order. */
    var conversations: seq<Conversation>
    /** The message log, in insertion order. */
    var messages: seq<ConversationMessage>
    /** The next timestamp to hand out. */
    var clock: nat
    /** The next conversation id to hand out; ids are never reused. */
    var nextId: nat

    /** Ids are unique, every message count equals the number of messages of
        that conversation, and the log is in timestamp order. */
    ghost predicate Valid()
      reads this
    {
      StoreValid(conversations, messages, nextId, clock)
    }

    constructor ()
      ensures Valid() && conversations == [] && messages == []
    {
      conversations, messages := [], [];
      clock, nextId := 0, 0;
    }

    /** `get_conversation(id)`. */
    function GetConversation(id: ConversationId): (r: Option<Conversation>)
      reads this
      ensures r.Some? ==> r.value in conversations && r.value.id == id
      ensures r.None? ==> forall c :: c in conversations ==> c.id != id
    {
      var k := IndexOf(conversations, id);
      if k.Some? then Some(conversations[k.value]) else None
    }

    /** `create_conversation`: a fresh id, no messages, the default title and
        empty metadata unless given. The creation and update times are two
        readings of the clock. */
    method CreateConversation(userId: string, organizationId: string,
                              title: string := DefaultTitle, metadata: Option<Metadata> := None)
      returns (c: Conversation)
      requires Valid()
      modifies this
      ensures Valid()
      ensures c == Conversation(old(nextId), userId, organizationId, title,
                                old(clock), old(clock) + 1, 0, OrEmpty(metadata))
      ensures title == DefaultTitle && metadata.None? ==>
        c == NewConversation(old(nextId), userId, organizationId, old(clock))
      ensures conversations == old(conversations) + [c] && messages == old(messages)
      ensures GetConversation(c.id) == Some(c)
      ensures forall id :: id != c.id ==> GetConversation(id) == old(GetConversation(id))
      ensures nextId == old(nextId) + 1 && clock == old(clock) + 2
    {
      c := Conversation(nextId, userId, organizationId, title, clock, clock + 1, 0, OrEmpty(metadata));
      CreateKeepsValid(conversations, messages, nextId, clock, c);
      ghost var before := conversations;
      conversations := conversations + [c];
      nextId := nextId + 1;
      clock := clock + 2;
      forall id | id != c.id
        ensures GetConversation(id) == old(GetConversation(id))
      {
        LookupByMembers(before, conversations, id);
      }
    }

    /** `save_message`: appends exactly one message and then increments the
        message count and refreshes the update time of its conversation, if
        there is one; no other conversation changes. */
    method SaveMessage(conversationId: ConversationId, role: MessageRole, content: string,
                       metadata: Option<Metadata> := None)
      returns (m: ConversationMessage)
      requires Valid()
      modifies this
      ensures Valid()
      ensures m == ConversationMessage(old(clock), conversationId, role, content,
                                       old(clock), OrEmpty(metadata))
      ensures messages == old(messages) + [m]
      ensures AfterSave(old(conversations), conversations, conversationId, old(clock) + 1)
      ensures clock == old(clock) + 2 && nextId >= old(nextId)
      ensures GetConversation(conversationId).Some? <==> old(GetConversation(conversationId)).Some?
      ensures forall id :: id != conversationId ==> GetConversation(id) == old(GetConversation(id))
    {
      m := ConversationMessage(clock, conversationId, role, content, clock, OrEmpty(metadata));
      var cs := conversations;
      var k := IndexOf(cs, conversationId);
      if k.Some? {
        var c := cs[k.value];
        cs := cs[k.value := c.(messageCount := c.messageCount + 1, updatedAt := clock + 1)];
        assert cs[k.value].id == conversationId;
      }
      assert AfterSave(conversations, cs, conversationId, clock + 1);
      var next := if conversationId >= nextId then conversationId + 1 else nextId;
      SaveKeepsValid(conversations, messages, nextId, clock, m, cs, next);
      ghost var before := conversations;
      conversations, messages, nextId, clock := cs, messages + [m], next, clock + 2;
      forall id | id != conversationId
        ensures GetConversation(id) == old(GetConversation(id))
      {
        SavedRowsKeepOthers(before, conversations, conversationId, old(clock) + 1, id);
      }
    }

    /** `update_conversation`: the update time always changes; the title and
        the metadata change only when given. Reports whether the conversation
        exists (a fresh timestamp means a matched row is always modified). */
    method UpdateConversation(conversationId: ConversationId, title: Option<string> := None,
                              metadata: Option<Metadata> := None)
      returns (updated: bool)
      requires Valid()
      modifies this
      ensures Valid()
      ensures updated <==> old(GetConversation(conversationId)).Some?
      ensures messages == old(messages)
      ensures AfterUpdate(old(conversations), conversations, conversationId, title, metadata, old(clock))
    {
      var cs := conversations;
      var k := IndexOf(cs, conversationId);
      if k.Some? {
        var c := cs[k.value];
        var c' := c.(updatedAt := clock,
                     title := if title.Some? then title.value else c.title,
                     metadata := if metadata.Some? then metadata.value else c.metadata);
        cs := cs[k.value := c'];
        updated := true;
      } else {
        updated := false;
      }
      assert AfterUpdate(conversations, cs, conversationId, title, metadata, clock);
      UpdateKeepsValid(conversations, messages, nextId, clock, cs, conversationId, title, metadata);
      conversations, clock := cs, clock + 1;
    }

    /** `delete_conversation`: removes every message of the conversation
        (even when the conversation itself is absent), then the conversation;
        reports whether a conversation was removed. */
    method DeleteConversation(conversationId: ConversationId) returns (deleted: bool)
      requires Valid()
      modifies this
      ensures Valid()
      ensures deleted <==> old(GetConversation(conversationId)).Some?
      ensures messages == MessagesNotOf(old(messages), conversationId)
      ensures MessagesOf(messages, conversationId) == []
      ensures forall c :: c in conversations <==> c in old(conversations) && c.id != conversationId
      ensures GetConversation(conversationId) == None
      ensures forall id :: id != conversationId ==> GetConversation(id) == old(GetConversation(id))
    {
      var before := conversations;
      LogAfterDelete(messages, nextId, clock, conversationId);
      var k := IndexOf(conversations, conversationId);
      if k.Some? {
        DeleteKeepsValid(conversations, messages, nextId, clock, conversationId, k.value);
        conversations := conversations[..k.value] + conversations[k.value + 1..];
        deleted := true;
      } else {
        DeleteAbsentKeepsValid(conversations, messages, nextId, clock, conversationId);
        deleted := false;
      }
      messages := MessagesNotOf(messages, conversationId);
      RemovalKeepsLookups(before, conversations, conversationId);
    }

    /** `get_messages`: the conversation's messages in ascending timestamp
        order, skip applied before limit (a limit of 0 means all). */
    method GetMessages(conversationId: ConversationId, limit: nat := 100, skip: nat := 0)
      returns (r: seq<ConversationMessage>)
      requires Valid()
      ensures r == Page(MessagesOf(messages, conversationId), skip, limit)
      ensures forall m :: m in r ==> m in messages && m.conversationId == conversationId
      ensures Chronological(r)
      ensures limit > 0 ==> |r| <= limit
    {
      var found: seq<ConversationMessage> := [];
      var i := 0;
      while i < |messages|
        invariant 0 <= i <= |messages|
        invariant found == MessagesOf(messages[..i], conversationId)
      {
        assert messages[..i + 1][..i] == messages[..i];
        if messages[i].conversationId == conversationId {
          found := found + [messages[i]];
        }
        i := i + 1;
      }
      assert messages[..|messages|] == messages;
      MessagesOfChronological(messages, conversationId);
      MessagesOfMembers(messages, conversationId);
      r := Page(found, skip, limit);
      forall m | m in r
        ensures m in found
      {
        var j :| 0 <= j < |r| && r[j] == m;
      }
    }

    /** `get_recent_messages`: the last `count` messages of the conversation
        (all of them for a count of 0), read newest first and returned in
        chronological order. */
    method GetRecentMessages(conversationId: ConversationId, count: nat := 10)
      returns (r: seq<ConversationMessage>)
      requires Valid()
      ensures r == LastN(MessagesOf(messages, conversationId), count)
      ensures forall m :: m in r ==> m in messages && m.conversationId == conversationId
      ensures Chronological(r)
    {
      var newestFirst: seq<ConversationMessage> := [];
      var i := |messages|;
      while i > 0 && (count == 0 || |newestFirst| < count)
        invariant 0 <= i <= |messages|
        invariant newestFirst == Reverse(MessagesOf(messages[i..], conversationId))
        invariant count > 0 ==> |newestFirst| <= count
      {
        i := i - 1;
        ReverseStep(messages, i, conversationId);
        if messages[i].conversationId == conversationId {
          newestFirst := newestFirst + [messages[i]];
        }
      }
      r := Reverse(newestFirst);
      ReverseReverse(MessagesOf(messages[i..], conversationId));
      RecentFromSuffix(messages, i, conversationId, count);
      MessagesOfChronological(messages, conversationId);
      MessagesOfMembers(messages, conversationId);
      LastNChronological(MessagesOf(messages, conversationId), count);
    }

    /** `list_conversations`: the user's conversations, most recently updated
        first, skip applied before limit (a limit of 0 means all). */
    method ListConversations(userId: string, limit: nat := 50, skip: nat := 0)
      returns (r: seq<Conversation>)
      requires Valid()
      ensures r == Page(ByRecentUpdate(OwnedBy(conversations, userId)), skip, limit)
      ensures forall c :: c in r ==> c in conversations && c.userId == userId
      ensures forall i, j :: 0 <= i < j < |r| ==> r[i].updatedAt >= r[j].updatedAt
    {
      var owned: seq<Conversation> := [];
      var i := 0;
      while i < |conversations|
        invariant 0 <= i <= |conversations|
        invariant owned == OwnedBy(conversations[..i], userId)
      {
        assert conversations[..i + 1][..i] == conversations[..i];
        if conversations[i].userId == userId {
          owned := owned + [conversations[i]];
        }
        i := i + 1;
      }
      assert conversations[..|conversations|] == conversations;
      r := Page(SortDesc(owned, UpdatedKey), skip, limit);
      ListingIsOwnedAndRecentFirst(conversations, userId, skip, limit);
    }
  }

  /** A page of a user's conversations by recent update holds only that
      user's conversations, most recently updated first. */
  lemma ListingIsOwnedAndRecentFirst(cs: seq<Conversation>, userId: string, skip: nat, limit: nat)
    ensures var r := Page(ByRecentUpdate(OwnedBy(cs, userId)), skip, limit);
      && (forall c :: c in r ==> c in cs && c.userId == userId)
      && (forall i, j :: 0 <= i < j < |r| ==> r[i].updatedAt >= r[j].updatedAt)
  {
    var owned := OwnedBy(cs, userId);
    var sorted := SortDesc(owned, UpdatedKey);
    SortDescSorted(owned, UpdatedKey);
    var r := Page(sorted, skip, limit);
    forall c | c in r
      ensures c in cs && c.userId == userId
    {
      var j :| 0 <= j < |r| && r[j] == c;
      assert c in multiset(sorted);
    }
    forall a, b | 0 <= a < b < |r|
      ensures r[a].updatedAt >= r[b].updatedAt
    {
      assert UpdatedKey(sorted[skip + a]) >= UpdatedKey(sorted[skip + b]);
    }
  }

  lemma MessagesOfSingle(m: ConversationMessage, cid: ConversationId)
    ensures MessagesOf([m], cid) == if m.conversationId == cid then [m] else []
  {
    assert [m][..0] == [];
  }

  /** Walking the log backwards one message at a time. */
  lemma ReverseStep(ms: seq<ConversationMessage>, i: nat, cid: ConversationId)
    requires i < |ms|
    ensures Reverse(MessagesOf(ms[i..], cid))
         == Reverse(MessagesOf(ms[i + 1..], cid)) + (if ms[i].conversationId == cid then [ms[i]] else [])
  {
    var x := ms[i];
    var rest := ms[i + 1..];
    var head := if x.conversationId == cid then [x] else [];
    assert ms[i..] == [x] + rest;
    MessagesOfSingle(x, cid);
    MessagesOfAppend([x], rest, cid);
    ReverseAppend(head, MessagesOf(rest, cid));
    assert head == [] || head[..0] == [];
  }

  /** Where the backward walk of `get_recent_messages` stops, the messages
      it collected are the last `count` messages of the conversation. */
  lemma RecentFromSuffix(ms: seq<ConversationMessage>, i: nat, cid: ConversationId, count: nat)
    requires i <= |ms|
    requires count > 0 ==> |MessagesOf(ms[i..], cid)| <= count
    requires i > 0 ==> count > 0 && |MessagesOf(ms[i..], cid)| == count
    ensures MessagesOf(ms[i..], cid) == LastN(MessagesOf(ms, cid), count)
  {
    var suffix := MessagesOf(ms[i..], cid);
    var prefix := MessagesOf(ms[..i], cid);
    assert ms == ms[..i] + ms[i..];
    MessagesOfAppend(ms[..i], ms[i..], cid);
    assert MessagesOf(ms, cid) == prefix + suffix;
    if i > 0 {
      assert (prefix + suffix)[|prefix|..] == suffix;
    } else {
      assert ms[i..] == ms;
    }
  }

  /** A tail of a chronological log is chronological and drawn from it. */
  lemma LastNChronological(ms: seq<ConversationMessage>, n: nat)
    requires Chronological(ms)
    ensures Chronological(LastN(ms, n))
    ensures forall m :: m in LastN(ms, n) ==> m in ms
  {
    var t := LastN(ms, n);
    var k := |ms| - |t|;
    assert forall j :: 0 <= j < |t| ==> t[j] == ms[k + j];
  }

  /** Removing the rows of one id leaves every other id's lookup as it was. */
  lemma RemovalKeepsLookups(before: seq<Conversation>, after: seq<Conversation>, gone: ConversationId)
    requires UniqueIds(before) && UniqueIds(after)
    requires forall c :: c in after <==> c in before && c.id != gone
    ensures forall id :: id != gone ==>
      (var a := IndexOf(after, id); if a.Some? then Some(after[a.value]) else None)
      == (var b := IndexOf(before, id); if b.Some? then Some(before[b.value]) else None)
  {
    forall id | id != gone
      ensures (var a := IndexOf(after, id); if a.Some? then Some(after[a.value]) else None)
           == (var b := IndexOf(before, id); if b.Some? then Some(before[b.value]) else None)
    {
      LookupAfterRemoval(before, after, gone, id);
    }
  }

  lemma LookupAfterRemoval(before: seq<Conversation>, after: seq<Conversation>,
                           gone: ConversationId, id: ConversationId)
    requires id != gone
    requires forall i, j :: 0 <= i < j < |before| ==> before[i].id != before[j].id
    requires forall c :: c in after <==> c in before && c.id != gone
    requires forall i, j :: 0 <= i < j < |after| ==> after[i].id != after[j].id
    ensures (var a := IndexOf(after, id); if a.Some? then Some(after[a.value]) else None)
         == (var b := IndexOf(before, id); if b.Some? then Some(before[b.value]) else None)
  {
    var a := IndexOf(after, id);
    var b := IndexOf(before, id);
    if a.Some? {
      assert after[a.value] in before;
    }
    if b.Some? {
      assert before[b.value] in after;
    }
  }

  /** Two tables with unique ids that agree on which rows carry `id` answer
      a lookup of `id` alike. */
  lemma LookupByMembers(before: seq<Conversation>, after: seq<Conversation>, id: ConversationId)
    requires UniqueIds(before) && UniqueIds(after)
    requires forall c: Conversation :: c.id == id ==> (c in after <==> c in before)
    ensures (var a := IndexOf(after, id); if a.Some? then Some(after[a.value]) else None)
         == (var b := IndexOf(before, id); if b.Some? then Some(before[b.value]) else None)
  {
    var a := IndexOf(after, id);
    var b := IndexOf(before, id);
    if a.Some? {
      assert after[a.value] in before;
    }
    if b.Some? {
      assert before[b.value] in after;
    }
  }

  /** `save_message` touches only the row of its own conversation. */
  lemma SavedRowsKeepOthers(before: seq<Conversation>, after: seq<Conversation>, cid: ConversationId,
                            now: nat, id: ConversationId)
    requires UniqueIds(before) && UniqueIds(after)
    requires AfterSave(before, after, cid, now)
    requires id != cid
    ensures (var a := IndexOf(after, id); if a.Some? then Some(after[a.value]) else None)
         == (var b := IndexOf(before, id); if b.Some? then Some(before[b.value]) else None)
  {
    forall c: Conversation | c.id == id
      ensures c in after <==> c in before
    {
      if c in after {
        var i :| 0 <= i < |after| && after[i] == c;
        assert before[i].id != cid;
      }
      if c in before {
        var i :| 0 <= i < |before| && before[i] == c;
        assert after[i] == c;
      }
    }
    LookupByMembers(before, after, id);
  }
}
