/** packages/chat: the recent messages of a thread, and sending a message, which
    stores it, asks the completion for a reply and stores the reply. */
module Chat {
  import opened Utils
  import opened DbRecords
  import opened Db
  import opened Llm
  import opened Wrappers
  import opened JsString

  /** `getRecentMessages(threadId, limit = 20)` over the stored messages. */
  function RecentMessages(messages: seq<Message>, threadId: string, limit: int := 20): (r: seq<Message>)
    ensures threadId != "" ==> forall m :: m in r ==> m in messages && m.threadId == threadId
  {
    LastAtMost(MessagesFor(messages, Some(threadId)), limit)
  }

  /** A thread's recent messages are the last `min(limit, n)` of its `n` messages, in
      stored order; with an empty id, those of all messages. */
  lemma RecentMessagesAreLatest(messages: seq<Message>, threadId: string, limit: int)
    ensures var all := if threadId != "" then ThreadMessages(messages, threadId) else messages;
      var r := RecentMessages(messages, threadId, limit);
      && |r| == (if limit <= 0 then 0 else if limit < |all| then limit else |all|)
      && r == all[|all| - |r|..]
  {
    var all := MessagesFor(messages, Some(threadId));
    assert all == if threadId != "" then ThreadMessages(messages, threadId) else messages;
  }

  /** A message sent after the last `limit` ones pushes the oldest of them out. */
  lemma RecentMessagesAfterSend(messages: seq<Message>, m: Message, limit: int)
    requires m.threadId != "" && limit > 0
    ensures var before := RecentMessages(messages, m.threadId, limit);
      var after := RecentMessages(messages + [m], m.threadId, limit);
      && after[|after| - 1] == m
      && after[..|after| - 1] == (if |before| == limit then before[1..] else before)
  {
    var thread := MessagesFor(messages, Some(m.threadId));
    MessagesForSnoc(messages, m);
    assert MessagesFor(messages + [m], Some(m.threadId)) == thread + [m];
    LastAtMostSnoc(thread, m, limit);
  }

  /** The two stored messages, and what the completion reported. */
  datatype ChatExchange = ChatExchange(userMessage: Message, assistantMessage: Message, tokensUsed: int,
                                       responseTimeMs: int)

  /** The `{ role, content }` view of stored messages the completion receives. */
  function AsChatMessages(messages: seq<Message>): (r: seq<ChatMessage>)
    ensures |r| == |messages|
    ensures forall i :: 0 <= i < |messages| ==> r[i] == ChatMessage(messages[i].role, messages[i].content)
  {
    if messages == [] then [] else [ChatMessage(messages[0].role, messages[0].content)] + AsChatMessages(messages[1..])
  }

  /** The conversation sent to the completion ends with the message just stored, so
      the completion answers it. */
  lemma ConversationPrompt(messages: seq<Message>, m: Message)
    requires m.role == UserRole
    ensures Prompt(AsChatMessages(MessagesFor(messages + [m], Some(m.threadId)))) == m.content
  {
    MessagesForSnoc(messages, m);
    var view := AsChatMessages(MessagesFor(messages + [m], Some(m.threadId)));
    assert view[|view| - 1] == ChatMessage(UserRole, m.content);
  }

  /** The completion over the conversation ending with a user message is the
      synthesised answer to that message. */
  lemma ConversationReply(messages: seq<Message>, m: Message)
    requires m.role == UserRole
    ensures Completion(AsChatMessages(MessagesFor(messages + [m], Some(m.threadId)))).message.content
            == SynthesizeResponse(m.content)
  {
    ConversationPrompt(messages, m);
    CompletionShape(AsChatMessages(MessagesFor(messages + [m], Some(m.threadId))));
  }

  /** `sendChatMessage(threadId, content)`. `userRandom` and `assistantRandom` are the
      random bytes of the two message ids, `sentAt` and `repliedAt` the two clock
      readings, `elapsed` the measured completion time. */
  method SendChatMessage(db: Database, usage: UsageTracker, threadId: string, content: string,
                         userRandom: Entropy, assistantRandom: Entropy, sentAt: string, repliedAt: string, elapsed: int)
    returns (r: ChatExchange)
    requires usage.Valid()
    modifies db, db.disk, usage
    ensures r.userMessage == Message(CreateId(Msg, userRandom), threadId, UserRole, content, sentAt)
    ensures r.assistantMessage == Message(CreateId(Msg, assistantRandom), threadId, AssistantRole,
                                          SynthesizeResponse(content), repliedAt)
    ensures db.schema == old(db.schema).(messages := old(db.schema.messages) + [r.userMessage, r.assistantMessage])
    ensures db.disk.files == old(db.disk.files)[db.path := Store(db.schema)]
    ensures var c := Completion(AsChatMessages(MessagesFor(old(db.schema.messages) + [r.userMessage], Some(threadId))));
      r.tokensUsed == c.tokensUsed && r.responseTimeMs == c.responseTimeMs
    ensures usage.tokensUsed == old(usage.tokensUsed) + r.tokensUsed
    ensures |usage.responseTimes| == |old(usage.responseTimes)| + 1
    ensures usage.responseTimes[..|old(usage.responseTimes)|] == old(usage.responseTimes)
    ensures usage.responseTimes[|old(usage.responseTimes)|] == elapsed + r.responseTimeMs
    ensures usage.totalSessions == old(usage.totalSessions) + 1 && usage.Valid()
  {
    var userMessage, completion := Ask(db, usage, threadId, content, userRandom, sentAt, elapsed);
    ghost var stored, written := db.schema, db.disk.files;
    ghost var times := usage.responseTimes;
    var assistantMessage := db.AddMessage(MessageDraft(None, threadId, AssistantRole, completion.message.content, None),
                                          assistantRandom, repliedAt);
    StoredTwice(old(db.schema), stored, db.schema, userMessage, assistantMessage);
    RewrittenTwice(old(db.disk.files), written, db.disk.files, db.path, Store(stored), Store(db.schema));
    r := ChatExchange(userMessage, assistantMessage, completion.tokensUsed, completion.responseTimeMs);
    assert usage.responseTimes == times;
  }

  /** The first half of `sendChatMessage`: the user's message is stored, and the
      completion over the thread's conversation answers it and is recorded. */
  method Ask(db: Database, usage: UsageTracker, threadId: string, content: string, random: Entropy, now: string,
             elapsed: int)
    returns (userMessage: Message, completion: ChatCompletion)
    requires usage.Valid()
    modifies db, db.disk, usage
    ensures userMessage == Message(CreateId(Msg, random), threadId, UserRole, content, now)
    ensures db.schema == old(db.schema).(messages := old(db.schema.messages) + [userMessage])
    ensures db.disk.files == old(db.disk.files)[db.path := Store(db.schema)]
    ensures completion == Completion(AsChatMessages(MessagesFor(db.schema.messages, Some(threadId))))
    ensures completion.message.content == SynthesizeResponse(content)
    ensures usage.tokensUsed == old(usage.tokensUsed) + completion.tokensUsed
    ensures usage.responseTimes == old(usage.responseTimes) + [elapsed + completion.responseTimeMs]
    ensures usage.totalSessions == old(usage.totalSessions) + 1 && usage.Valid()
  {
    userMessage := db.AddMessage(MessageDraft(Some(CreateId(Msg, random)), threadId, UserRole, content, None),
                                 random, now);
    ConversationReply(old(db.schema.messages), userMessage);
    completion := Reply(db, usage, threadId, elapsed);
  }

  /** The middle of `sendChatMessage`: the completion over the thread's stored
      conversation, which the usage tracker records. */
  method Reply(db: Database, usage: UsageTracker, threadId: string, elapsed: int) returns (c: ChatCompletion)
    requires usage.Valid()
    modifies usage
    ensures c == Completion(AsChatMessages(MessagesFor(db.schema.messages, Some(threadId))))
    ensures usage.tokensUsed == old(usage.tokensUsed) + c.tokensUsed
    ensures usage.responseTimes == old(usage.responseTimes) + [elapsed + c.responseTimeMs]
    ensures usage.totalSessions == old(usage.totalSessions) + 1 && usage.Valid()
  {
    var conversation := db.Messages(Some(threadId));
    c := usage.CreateChatCompletion(AsChatMessages(conversation), elapsed);
  }

  lemma StoredTwice(s0: Schema, s1: Schema, s2: Schema, u: Message, a: Message)
    requires s1 == s0.(messages := s0.messages + [u]) && s2 == s1.(messages := s1.messages + [a])
    ensures s2 == s0.(messages := s0.messages + [u, a])
  {
    assert s0.messages + [u] + [a] == s0.messages + [u, a];
  }

  lemma RewrittenTwice(f0: map<string, FileContent>, f1: map<string, FileContent>, f2: map<string, FileContent>,
                       path: string, c1: FileContent, c2: FileContent)
    requires f1 == f0[path := c1] && f2 == f1[path := c2]
    ensures f2 == f0[path := c2]
  {
  }
}
