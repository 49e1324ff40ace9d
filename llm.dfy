/** packages/llm: the canned completion built from the last user message, the usage
    counters it updates, and the token stream. */
module Llm {
  import opened Wrappers
  import opened JsString
  import opened Utils
  import opened DbRecords

  datatype ChatMessage = ChatMessage(role: ChatRole, content: string)

  /** What `getUsageStatistics()` reports. */
  datatype UsageStatistics = UsageStatistics(tokensUsed: int, avgResponseTimeMs: int, totalSessions: int)

  datatype ChatCompletion = ChatCompletion(message: ChatMessage, tokensUsed: int, responseTimeMs: int)

  const BulletMark: char := '\U{2022}'
  const EllipsisMark: char := '\U{2026}'
  const Header: string := "Here is what I understood:\n"
  const Footer: string := "\n\nReady for the next step?"
  const FallbackPrompt: string := "Hello!"

  /** One line of the summary: the chunk clipped to 110 characters, marked with `…`
      when it was clipped. */
  function BulletLine(chunk: string): (line: string)
    ensures |line| >= 2 && line[..2] == [BulletMark, ' ']
    ensures |chunk| <= 110 ==> line[2..] == chunk
    ensures |chunk| > 110 ==> |line| == 113 && line[2..112] == chunk[..110] && line[112] == EllipsisMark
  {
    [BulletMark, ' '] + (if |chunk| > 110 then chunk[..110] + [EllipsisMark] else chunk)
  }

  function BulletLines(chunks: seq<string>): (lines: seq<string>)
    ensures |lines| == |chunks|
    ensures forall k :: 0 <= k < |chunks| ==> lines[k] == BulletLine(chunks[k])
  {
    if chunks == [] then [] else [BulletLine(chunks[0])] + BulletLines(chunks[1..])
  }

  /** `synthesizeResponse(prompt)`: one bullet per 120-character chunk of the prompt,
      between a fixed header and footer. */
  function SynthesizeResponse(prompt: string): (r: string)
    ensures StartsWith(r, Header) && EndsWith(r, Footer)
  {
    Header + Join(BulletLines(SentenceChunks(prompt, 120)), "\n") + Footer
  }

  /** A prompt with no visible character gives no bullet at all. */
  lemma SynthesizeBlankPrompt(prompt: string)
    requires IsBlank(prompt)
    ensures SynthesizeResponse(prompt) == Header + Footer
  {
    SentenceChunksEmptyIffBlank(prompt, 120);
  }

  /** A prompt of one short sentence is echoed whole in a single bullet. */
  lemma SynthesizeShortPrompt(prompt: string)
    requires SentenceChunks(prompt, 120) == [prompt] && |prompt| <= 110
    ensures SynthesizeResponse(prompt) == Header + [BulletMark, ' '] + prompt + Footer
  {
    var line := BulletLine(prompt);
    assert line == line[..2] + line[2..];
  }

  /** The index of the last `user` message among the first `n`, or -1. */
  function LastUserIndex(messages: seq<ChatMessage>, n: nat): (i: int)
    requires n <= |messages|
    ensures -1 <= i < n
    ensures i >= 0 ==> messages[i].role == UserRole
    ensures forall j :: i < j < n ==> messages[j].role != UserRole
  {
    if n == 0 then -1
    else if messages[n - 1].role == UserRole then n - 1
    else LastUserIndex(messages, n - 1)
  }

  /** The prompt a completion answers: the content of the last `user` message, or
      `Hello!` when there is none. */
  function Prompt(messages: seq<ChatMessage>): (p: string)
    ensures (forall j :: 0 <= j < |messages| ==> messages[j].role != UserRole) ==> p == FallbackPrompt
    ensures (exists j :: 0 <= j < |messages| && messages[j].role == UserRole) ==>
      exists j :: 0 <= j < |messages| && messages[j].role == UserRole && p == messages[j].content
        && forall k :: j < k < |messages| ==> messages[k].role != UserRole
  {
    var i := LastUserIndex(messages, |messages|);
    if i >= 0 then messages[i].content else FallbackPrompt
  }

  /** `Math.round(n / 4)` for a length `n`: half rounds up. */
  function RoundQuarter(n: nat): (r: nat)
    ensures 4 * r - 2 <= n < 4 * r + 2
  {
    (n + 2) / 4
  }

  /** The completion `createChatCompletion(messages)` returns. */
  function Completion(messages: seq<ChatMessage>): (c: ChatCompletion)
    ensures c.message.role == AssistantRole && c.responseTimeMs >= 100
    ensures 4 * c.tokensUsed - 2 <= |c.message.content| < 4 * c.tokensUsed + 2
  {
    var prompt := Prompt(messages);
    var response := SynthesizeResponse(prompt);
    ChatCompletion(ChatMessage(AssistantRole, response), RoundQuarter(|response|), 100 + 2 * |prompt|)
  }

  /** The completion is an assistant message answering the prompt; its token count
      is the content length over four, rounded half up; its response time is 100 ms
      plus 2 ms per prompt character. */
  lemma CompletionShape(messages: seq<ChatMessage>)
    ensures var c := Completion(messages);
      && c.message.role == AssistantRole
      && c.message.content == SynthesizeResponse(Prompt(messages))
      && 4 * c.tokensUsed - 2 <= |c.message.content| < 4 * c.tokensUsed + 2
      && c.responseTimeMs == 100 + 2 * |Prompt(messages)| && c.responseTimeMs >= 100
  {
  }

  lemma {:induction false} LastUserIndexPrefix(messages: seq<ChatMessage>, later: seq<ChatMessage>, n: nat)
    requires n <= |messages|
    ensures LastUserIndex(messages + later, n) == LastUserIndex(messages, n)
  {
    if n > 0 {
      assert (messages + later)[n - 1] == messages[n - 1];
      LastUserIndexPrefix(messages, later, n - 1);
    }
  }

  lemma {:induction false} LastUserIndexSkips(messages: seq<ChatMessage>, later: seq<ChatMessage>, n: nat)
    requires |messages| <= n <= |messages| + |later|
    requires forall j :: 0 <= j < |later| ==> later[j].role != UserRole
    ensures LastUserIndex(messages + later, n) == LastUserIndex(messages, |messages|)
  {
    if n == |messages| {
      LastUserIndexPrefix(messages, later, n);
    } else {
      assert (messages + later)[n - 1] == later[n - 1 - |messages|];
      LastUserIndexSkips(messages, later, n - 1);
    }
  }

  /** Appending messages with no `user` role leaves the prompt as it was; appending a
      `user` message makes its content the prompt. */
  lemma PromptOfAppended(messages: seq<ChatMessage>, later: seq<ChatMessage>, content: string)
    requires forall j :: 0 <= j < |later| ==> later[j].role != UserRole
    ensures Prompt(messages + later) == Prompt(messages)
    ensures Prompt(messages + [ChatMessage(UserRole, content)] + later) == content
  {
    LastUserIndexSkips(messages, later, |messages| + |later|);
    var withUser := messages + [ChatMessage(UserRole, content)];
    LastUserIndexSkips(withUser, later, |withUser| + |later|);
    assert (messages + [ChatMessage(UserRole, content)] + later)[|messages|].content == content;
  }

  /** `p + " "` for every piece. */
  function SpaceTerminated(pieces: seq<string>): (tokens: seq<string>)
    ensures |tokens| == |pieces|
    ensures forall k :: 0 <= k < |pieces| ==> tokens[k] == pieces[k] + " "
  {
    if pieces == [] then [] else [pieces[0] + " "] + SpaceTerminated(pieces[1..])
  }

  lemma {:induction false} ConcatSpaceTerminated(pieces: seq<string>)
    requires pieces != []
    ensures Concat(SpaceTerminated(pieces)) == Join(pieces, " ") + " "
  {
    if |pieces| > 1 {
      ConcatSpaceTerminated(pieces[1..]);
      assert SpaceTerminated(pieces)[1..] == SpaceTerminated(pieces[1..]);
    } else {
      assert SpaceTerminated(pieces)[1..] == [];
    }
  }

  /** The loop of `streamChatCompletion`: one token per space-separated piece of the
      content, each followed by a space. */
  method EmitTokens(content: string) returns (tokens: seq<string>)
    ensures tokens == SpaceTerminated(Split(content, ' '))
    ensures Concat(tokens) == content + " "
  {
    var pieces := Split(content, ' ');
    tokens := [];
    for i := 0 to |pieces|
      invariant tokens == SpaceTerminated(pieces[..i])
    {
      assert pieces[..i + 1] == pieces[..i] + [pieces[i]];
      SpaceTerminatedAppend(pieces[..i], pieces[i]);
      tokens := tokens + [pieces[i] + " "];
    }
    assert pieces[..|pieces|] == pieces;
    ConcatSpaceTerminated(pieces);
    JoinSplit(content, ' ');
  }

  /** The module-level `usage` record. */
  class UsageTracker {
    var tokensUsed: int
    var responseTimes: seq<int>
    var totalSessions: int

    /** One response time is recorded per completion. */
    predicate Valid()
      reads this
    {
      tokensUsed >= 0 && totalSessions == |responseTimes|
    }

    constructor()
      ensures tokensUsed == 0 && responseTimes == [] && totalSessions == 0
      ensures Valid()
    {
      tokensUsed := 0;
      responseTimes := [];
      totalSessions := 0;
    }

    /** `createChatCompletion(messages)`; `elapsed` is `Date.now() - start`. */
    method CreateChatCompletion(messages: seq<ChatMessage>, elapsed: int) returns (c: ChatCompletion)
      requires Valid()
      modifies this
      ensures c == Completion(messages)
      ensures tokensUsed == old(tokensUsed) + c.tokensUsed
      ensures responseTimes == old(responseTimes) + [elapsed + c.responseTimeMs]
      ensures totalSessions == old(totalSessions) + 1
      ensures Valid()
    {
      var prompt := Prompt(messages);
      var chunks := ChunkText(prompt, 120);
      var response := Header + Join(BulletLines(chunks), "\n") + Footer;
      assert response == SynthesizeResponse(prompt);
      c := ChatCompletion(ChatMessage(AssistantRole, response), RoundQuarter(|response|), 100 + 2 * |prompt|);
      tokensUsed := tokensUsed + c.tokensUsed;
      responseTimes := responseTimes + [elapsed + c.responseTimeMs];
      totalSessions := totalSessions + 1;
    }

    /** `streamChatCompletion(messages, onToken)`: `tokens` are the arguments of the
        successive `onToken` calls. */
    method StreamChatCompletion(messages: seq<ChatMessage>, elapsed: int) returns (c: ChatCompletion, tokens: seq<string>)
      requires Valid()
      modifies this
      ensures c == Completion(messages)
      ensures tokensUsed == old(tokensUsed) + c.tokensUsed
      ensures responseTimes == old(responseTimes) + [elapsed + c.responseTimeMs]
      ensures totalSessions == old(totalSessions) + 1
      ensures Valid()
      ensures tokens == SpaceTerminated(Split(c.message.content, ' '))
      ensures Concat(tokens) == c.message.content + " "
    {
      c := CreateChatCompletion(messages, elapsed);
      tokens := EmitTokens(c.message.content);
    }

    /** `getUsageStatistics()`: the counters, with the mean response time rounded to
        the nearest millisecond (0 before the first completion). */
    function Statistics(): (s: UsageStatistics)
      reads this
      ensures s.tokensUsed == tokensUsed && s.totalSessions == totalSessions
      ensures responseTimes == [] ==> s.avgResponseTimeMs == 0
      ensures responseTimes != [] ==>
        2 * |responseTimes| * s.avgResponseTimeMs - |responseTimes| <= 2 * Sum(responseTimes)
        < 2 * |responseTimes| * s.avgResponseTimeMs + |responseTimes|
    {
      UsageStatistics(tokensUsed, RoundedAverage(responseTimes), totalSessions)
    }

    /** `resetUsage()` */
    method ResetUsage()
      modifies this
      ensures tokensUsed == 0 && responseTimes == [] && totalSessions == 0
      ensures Valid()
    {
      tokensUsed := 0;
      responseTimes := [];
      totalSessions := 0;
    }
  }

  lemma SpaceTerminatedAppend(pieces: seq<string>, p: string)
    ensures SpaceTerminated(pieces + [p]) == SpaceTerminated(pieces) + [p + " "]
  {
  }
}
