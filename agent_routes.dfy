/** The back-end's `/api/agent` routes: the chat history of the user's last session, and
    one chat turn, which records the session as the user's last one, runs the agent graph
    and assembles its streamed output into one reply. The graph's execution is a parameter:
    the stream of per-node outputs and the final thread state, or the error it raised. */
module AgentRoutes {
  import opened Common
  import opened GraphMessages
  import opened AccountService

  /** One message as the front-end receives it. */
  datatype HistoryEntry = HistoryEntry(content: string, isUser: bool)

  datatype History = History(messages: seq<HistoryEntry>, sessionId: Option<string>)

  /** What one stored message becomes: a human message always stays, as the user's; any
      other stays, as the assistant's, only when its content is not empty. */
  function EntryOf(m: Message): (e: seq<HistoryEntry>)
    ensures |e| <= 1
    ensures m.kind == Human ==> e == [HistoryEntry(m.content, true)]
    ensures m.kind != Human ==> (e != [] <==> m.content != "") && (e != [] ==> e[0] == HistoryEntry(m.content, false))
  {
    if m.kind == Human then [HistoryEntry(m.content, true)]
    else if m.content != "" then [HistoryEntry(m.content, false)]
    else []
  }

  /** The formatted history: the stored messages, in order, each through EntryOf. */
  function Formatted(ms: seq<Message>): (r: seq<HistoryEntry>)
    ensures |r| <= |ms|
    ensures forall i :: 0 <= i < |r| ==> r[i].isUser || r[i].content != ""
  {
    if ms == [] then [] else Formatted(ms[..|ms| - 1]) + EntryOf(ms[|ms| - 1])
  }

  /** The loop of `get_chat_history` that builds `formatted_messages`. */
  method FormatHistory(ms: seq<Message>) returns (formatted: seq<HistoryEntry>)
    ensures formatted == Formatted(ms)
  {
    formatted := [];
    var i := 0;
    while i < |ms|
      invariant 0 <= i <= |ms|
      invariant formatted == Formatted(ms[..i])
    {
      assert ms[..i + 1][..i] == ms[..i];
      formatted := formatted + EntryOf(ms[i]);
      i := i + 1;
    }
    assert ms[..|ms|] == ms;
  }

  /** Formatting works message by message, so a longer conversation formats to the
      formatting of its first part followed by that of the rest. */
  lemma {:induction false} FormattedAppend(a: seq<Message>, b: seq<Message>)
    ensures Formatted(a + b) == Formatted(a) + Formatted(b)
  {
    if b != [] {
      var ab := a + b;
      assert ab[..|ab| - 1] == a + b[..|b| - 1];
      assert ab[|ab| - 1] == b[|b| - 1];
      FormattedAppend(a, b[..|b| - 1]);
    } else {
      assert a + b == a;
    }
  }

  /** The contents of the human messages, in order. */
  function HumanTexts(ms: seq<Message>): seq<string>
  {
    if ms == [] then []
    else HumanTexts(ms[..|ms| - 1]) + (if ms[|ms| - 1].kind == Human then [ms[|ms| - 1].content] else [])
  }

  /** The contents of the entries shown as the user's, in order. */
  function UserTexts(es: seq<HistoryEntry>): seq<string>
  {
    if es == [] then []
    else UserTexts(es[..|es| - 1]) + (if es[|es| - 1].isUser then [es[|es| - 1].content] else [])
  }

  lemma {:induction false} UserTextsAppend(a: seq<HistoryEntry>, b: seq<HistoryEntry>)
    ensures UserTexts(a + b) == UserTexts(a) + UserTexts(b)
  {
    if b != [] {
      var ab := a + b;
      assert ab[..|ab| - 1] == a + b[..|b| - 1];
      assert ab[|ab| - 1] == b[|b| - 1];
      UserTextsAppend(a, b[..|b| - 1]);
    } else {
      assert a + b == a;
    }
  }

  /** Every turn of the user appears in the history, in order, and nothing else is shown
      as the user's. */
  lemma {:induction false} HistoryKeepsUserTurns(ms: seq<Message>)
    ensures UserTexts(Formatted(ms)) == HumanTexts(ms)
  {
    if ms != [] {
      var last := ms[|ms| - 1];
      HistoryKeepsUserTurns(ms[..|ms| - 1]);
      UserTextsAppend(Formatted(ms[..|ms| - 1]), EntryOf(last));
      var e := EntryOf(last);
      if e != [] {
        assert e[..0] == [];
      }
    }
  }

  /** The thread state read back from the graph's checkpoint store: unreadable (the read
      raised), empty values, or the values with their message list (empty when the key is
      missing). */
  datatype ThreadState = Unreadable | NoValues | Values(messages: seq<Message>)

  /** `GET /history`. Without a (non-empty) last session the reply carries no session; with
      one it always carries it, and the messages are the formatted ones only when the state
      could be read and had values. */
  method GetChatHistory(svc: AuthService, userId: string, fault: Fault, thread: ThreadState)
    returns (h: History)
    ensures !Truthy(svc.GetLastSession(userId, fault)) ==> h == History([], None)
    ensures Truthy(svc.GetLastSession(userId, fault)) ==>
              h == History(if thread.Values? then Formatted(thread.messages) else [], svc.GetLastSession(userId, fault))
  {
    var last := svc.GetLastSession(userId, fault);
    if !Truthy(last) {
      return History([], None);
    }
    if !thread.Values? {
      return History([], last);
    }
    var formatted := FormatHistory(thread.messages);
    h := History(formatted, last);
  }

  // ---------------------------------------------------------------- chat

  /** One node's output in a streamed chunk; `messages` is empty when the output is empty
      or has no message list. */
  datatype NodeOutput = NodeOutput(node: string, messages: seq<Message>)

  /** What one node output adds to the reply: the content of its last message and a blank
      line, when that content is not empty. */
  function NodeText(o: NodeOutput): (t: string)
    ensures t != "" <==> o.messages != [] && o.messages[|o.messages| - 1].content != ""
    ensures t != "" ==> t == o.messages[|o.messages| - 1].content + "\n\n"
  {
    if o.messages != [] && o.messages[|o.messages| - 1].content != "" then o.messages[|o.messages| - 1].content + "\n\n"
    else ""
  }

  function ChunkText(chunk: seq<NodeOutput>): string
  {
    if chunk == [] then "" else ChunkText(chunk[..|chunk| - 1]) + NodeText(chunk[|chunk| - 1])
  }

  /** Each chunk's text, in stream order. */
  function ChunkTexts(chunks: seq<seq<NodeOutput>>): (ts: seq<string>)
    ensures |ts| == |chunks| && forall i :: 0 <= i < |chunks| ==> ts[i] == ChunkText(chunks[i])
  {
    seq(|chunks|, i requires 0 <= i < |chunks| => ChunkText(chunks[i]))
  }

  function Concat(ts: seq<string>): string
  {
    if ts == [] then "" else Concat(ts[..|ts| - 1]) + ts[|ts| - 1]
  }

  /** The whole stream's text, chunk after chunk. */
  function StreamText(chunks: seq<seq<NodeOutput>>): string
  {
    Concat(ChunkTexts(chunks))
  }

  /** The outer loop that grows `full_response` while the stream is consumed. */
  method AssembleResponse(chunks: seq<seq<NodeOutput>>) returns (full: string)
    ensures full == StreamText(chunks)
  {
    full := "";
    var i := 0;
    while i < |chunks|
      invariant 0 <= i <= |chunks|
      invariant full == Concat(ChunkTexts(chunks[..i]))
    {
      var ts := ChunkTexts(chunks[..i + 1]);
      assert ts[..i] == ChunkTexts(chunks[..i]);
      full := AppendChunk(full, chunks[i]);
      i := i + 1;
    }
    assert chunks[..|chunks|] == chunks;
  }

  /** The inner loop, over the node outputs of one chunk. */
  method AppendChunk(before: string, chunk: seq<NodeOutput>) returns (full: string)
    ensures full == before + ChunkText(chunk)
  {
    full := before;
    var j := 0;
    while j < |chunk|
      invariant 0 <= j <= |chunk|
      invariant full == before + ChunkText(chunk[..j])
    {
      assert chunk[..j + 1][..j] == chunk[..j];
      full := full + NodeText(chunk[j]);
      j := j + 1;
    }
    assert chunk[..|chunk|] == chunk;
  }

  /** The reply only ever grows while the stream goes on: a longer stream's text extends the
      text of its beginning. */
  lemma {:induction false} StreamTextAppend(a: seq<seq<NodeOutput>>, b: seq<seq<NodeOutput>>)
    ensures StreamText(a + b) == StreamText(a) + StreamText(b)
  {
    assert ChunkTexts(a + b) == ChunkTexts(a) + ChunkTexts(b);
    ConcatAppend(ChunkTexts(a), ChunkTexts(b));
  }

  lemma {:induction false} ConcatAppend(x: seq<string>, y: seq<string>)
    ensures Concat(x + y) == Concat(x) + Concat(y)
  {
    if y == [] {
      assert x + y == x;
    } else {
      var xy := x + y;
      assert xy[..|xy| - 1] == x + y[..|y| - 1];
      assert xy[|xy| - 1] == y[|y| - 1];
      ConcatAppend(x, y[..|y| - 1]);
    }
  }

  /** A stream with one node answering with `c` (no white space at either end) replies with
      exactly `c`: the trailing blank line is stripped. */
  lemma {:induction false} SingleAnswer(node: string, earlier: seq<Message>, c: string)
    requires c != "" && !IsSpace(Py, c[0]) && !IsSpace(Py, c[|c| - 1])
    ensures Strip(Py, StreamText([[NodeOutput(node, earlier + [Message(Ai, c)])]])) == c
  {
    var o := NodeOutput(node, earlier + [Message(Ai, c)]);
    assert [[o]][..0] == [] && [o][..0] == [];
    assert ChunkText([o]) == NodeText(o);
    var s := c + "\n\n";
    assert ChunkTexts([[o]]) == [s];
    assert [s][..0] == [];
    assert Concat([s]) == Concat([]) + s;
    StripTrailing(c, "\n\n");
  }

  /** The final thread state: the `satisfaction` flag (false when missing), the strategies
      if any, and the nodes still pending. */
  datatype FinalState = FinalState(satisfaction: bool, strategies: Option<seq<string>>, next: seq<string>)

  /** `is_complete`. */
  predicate IsComplete(f: FinalState)
  {
    f.satisfaction || f.next == []
  }

  /** What running the graph gave: its stream and final state, or the error it raised. */
  datatype GraphRun = Completed(chunks: seq<seq<NodeOutput>>, final: FinalState) | Crashed(error: string)

  datatype ChatRequest = ChatRequest(message: string, sessionId: Option<string>)

  datatype ChatResponse = ChatResponse(response: string, sessionId: string, isComplete: bool,
                                       strategies: Option<seq<string>>)

  datatype ChatReply = Answered(body: ChatResponse) | ServerError(status: nat, detail: string)

  /** The graph's input for this turn: the user's message and the account's address. */
  datatype GraphInput = GraphInput(messages: seq<Message>, userEmail: string)

  /** The thread a request continues: its own session id when it has a non-empty one,
      otherwise a fresh UUID. */
  function SessionFor(request: ChatRequest, freshId: string): (sid: string)
    ensures Truthy(request.sessionId) ==> sid == request.sessionId.value
    ensures !Truthy(request.sessionId) ==> sid == freshId
  {
    if Truthy(request.sessionId) then request.sessionId.value else freshId
  }

  /** `POST /chat`. The session is recorded as the user's last one before the graph runs,
      so it is recorded even when the graph then fails; a failure is a 500 carrying the
      error. */
  method Chat(svc: AuthService, userId: string, userEmail: string, request: ChatRequest, freshId: string,
              run: GraphRun, now: int, fault: Fault, fileWritable: bool)
    returns (input: GraphInput, reply: ChatReply)
    requires svc.Valid()
    modifies svc
    ensures svc.Valid() && svc.resets == old(svc.resets)
    ensures input == GraphInput([Message(Human, request.message)], userEmail)
    ensures fault != Raises(0) ==> svc.users == UpdateById(old(svc.users), userId, SessionPatch(SessionFor(request, freshId)), now)
    ensures fault == Raises(0) && fileWritable ==>
              svc.GetLastSession(userId, Raises(0)) == Some(SessionFor(request, freshId))
    ensures run.Crashed? ==> reply == ServerError(500, "Error processing chat: " + run.error)
    ensures run.Completed? ==>
              reply == Answered(ChatResponse(Strip(Py, StreamText(run.chunks)), SessionFor(request, freshId),
                                             IsComplete(run.final), run.final.strategies))
  {
    var sessionId := SessionFor(request, freshId);
    var _ := svc.UpdateLastSession(userId, sessionId, now, fault, fileWritable);
    input := GraphInput([Message(Human, request.message)], userEmail);
    if run.Crashed? {
      return input, ServerError(500, "Error processing chat: " + run.error);
    }
    var full := AssembleResponse(run.chunks);
    reply := Answered(ChatResponse(Strip(Py, full), sessionId, IsComplete(run.final), run.final.strategies));
  }
}
