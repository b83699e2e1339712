/** The chat dashboard's session reconciler: a list of chat sessions, the id of the current
    one, the messages on display and the input box. Sessions created in the browser carry a
    provisional id `session-<timestamp>`; the first successful reply replaces it, at the
    same list position, with the id the server issued. A send is split in two steps:
    `BeginSend` (up to the request) and `CompleteSend` (when the reply or the failure
    arrives), so other handlers may run in between. */
module Dashboard {
  import opened Common

  datatype Role = UserRole | AssistantRole

  datatype Message = Message(id: string, role: Role, content: string)

  datatype ChatSession = ChatSession(id: string, title: string, messages: seq<Message>)

  const ProvisionalPrefix := "session-"
  const NewChatTitle := "New Chat"
  const RestoredTitle := "Previous Session"
  const NoResponseText := "No response received"
  const TitleLength := 50

  predicate IsProvisional(id: string) { StartsWith(id, ProvisionalPrefix) }

  /** `session-${Date.now()}`. */
  function ProvisionalId(now: nat): (id: string)
    ensures IsProvisional(id) && id != ""
  {
    ProvisionalPrefix + NatToString(now)
  }

  /** `msg-${n}`: the id given to a message created at time `n`. */
  function MessageId(n: nat): string { "msg-" + NatToString(n) }

  /** The empty session a new chat starts with. */
  function FreshSession(now: nat): (s: ChatSession)
    ensures IsProvisional(s.id) && s.title == NewChatTitle && s.messages == []
  {
    ChatSession(ProvisionalId(now), NewChatTitle, [])
  }

  /** `s.substring(0, n)`. */
  function Prefix(s: string, n: nat): (r: string)
    ensures |r| == Min(|s|, n) && r == s[..|r|]
  {
    if |s| <= n then s else s[..n]
  }

  // ---------------------------------------------------------------------------------------
  // Restoring the last session on mount

  /** One message of the history endpoint's reply. */
  datatype HistoryMessage = HistoryMessage(content: string, isUser: bool)

  /** The history endpoint's reply: the last session's id (possibly null) and its messages. */
  datatype History = History(sessionId: Option<string>, messages: seq<HistoryMessage>)

  /** The history, as the dashboard's own messages: `msg-history-<index>` ids, the role taken
      from `isUser`, the order kept. */
  function RestoreMessages(h: seq<HistoryMessage>): (ms: seq<Message>)
    ensures |ms| == |h|
    ensures forall i :: 0 <= i < |h| ==>
              ms[i].content == h[i].content && (ms[i].role == UserRole <==> h[i].isUser)
  {
    seq(|h|, i requires 0 <= i < |h| =>
      Message("msg-history-" + NatToString(i), if h[i].isUser then UserRole else AssistantRole, h[i].content))
  }

  /** True when the fetched history names a session and holds at least one message. */
  predicate Restorable(fetched: Option<History>)
  {
    fetched.Some? && Truthy(fetched.value.sessionId) && |fetched.value.messages| > 0
  }

  /** The one session the dashboard holds after mounting: the restored session, or, when the
      history is empty or could not be fetched (`None`), a fresh provisional "New Chat". */
  function MountSession(fetched: Option<History>, now: nat): (s: ChatSession)
    ensures s.id != ""
    ensures Restorable(fetched) ==> s.id == fetched.value.sessionId.value
                                     && s.title == RestoredTitle
                                     && s.messages == RestoreMessages(fetched.value.messages)
    ensures !Restorable(fetched) ==> s == FreshSession(now)
  {
    if Restorable(fetched) then
      ChatSession(fetched.value.sessionId.value, RestoredTitle, RestoreMessages(fetched.value.messages))
    else
      FreshSession(now)
  }

  // ---------------------------------------------------------------------------------------
  // Sending a message

  /** What `handleSendMessage` captures when it starts: the current session's id, the input
      text and the user message it displayed. */
  datatype PendingSend = PendingSend(sessionId: string, input: string, userMessage: Message)

  /** The body of `POST /api/agent/chat`; `sessionId` is `None` when the field is omitted. */
  datatype ChatRequest = ChatRequest(message: string, sessionId: Option<string>)

  datatype ChatReply = ChatReply(response: string, sessionId: string, isComplete: bool)

  /** The request either returned a reply or was rejected (transport error or HTTP error). */
  datatype SendOutcome = Replied(reply: ChatReply) | Failed(detail: string)

  /** The request a pending send makes: a provisional id is never sent to the server. */
  function RequestFor(p: PendingSend): (r: ChatRequest)
    ensures r.message == p.input
    ensures r.sessionId.None? <==> IsProvisional(p.sessionId)
    ensures r.sessionId.Some? ==> r.sessionId.value == p.sessionId
  {
    ChatRequest(p.input, if IsProvisional(p.sessionId) then None else Some(p.sessionId))
  }

  /** The assistant's reply text; an empty reply is shown as "No response received". */
  function AssistantContent(response: string): (c: string)
    ensures c != ""
    ensures response != "" ==> c == response
  {
    if response != "" then response else NoResponseText
  }

  /** Whether a reply promotes the captured session from provisional to confirmed. */
  predicate Confirms(p: PendingSend, reply: ChatReply)
  {
    IsProvisional(p.sessionId) && reply.sessionId != ""
  }

  /** The title a confirmed session gets: a "New Chat" is renamed after the first 50
      characters of the text that confirmed it. */
  function ConfirmedTitle(title: string, input: string): string
  {
    if title == NewChatTitle then Prefix(input, TitleLength) else title
  }

  /** `prev.map(...)` of a reply that confirms the session: rename it, retitle it, and append
      the exchange. */
  function ConfirmSession(s: ChatSession, p: PendingSend, reply: ChatReply, answer: Message): ChatSession
  {
    if s.id == p.sessionId
    then ChatSession(reply.sessionId, ConfirmedTitle(s.title, p.input), s.messages + [p.userMessage, answer])
    else s
  }

  /** `prev.map(...)` of any other reply: append the exchange. */
  function AppendExchange(s: ChatSession, p: PendingSend, answer: Message): ChatSession
  {
    if s.id == p.sessionId then s.(messages := s.messages + [p.userMessage, answer]) else s
  }

  /** The session list after a successful reply. Only sessions whose id equals the id
      captured at send time change; they get exactly the user message and the answer
      appended, and, when the reply confirms a provisional session, the server's id at the
      same position. */
  function Reconcile(sessions: seq<ChatSession>, p: PendingSend, reply: ChatReply, answer: Message)
    : (r: seq<ChatSession>)
    ensures |r| == |sessions|
    ensures forall i :: 0 <= i < |sessions| && sessions[i].id != p.sessionId ==> r[i] == sessions[i]
    ensures forall i :: 0 <= i < |sessions| && sessions[i].id == p.sessionId ==>
              && r[i].messages == sessions[i].messages + [p.userMessage, answer]
              && r[i].id == (if Confirms(p, reply) then reply.sessionId else p.sessionId)
              && r[i].title == (if Confirms(p, reply) && sessions[i].title == NewChatTitle
                                then Prefix(p.input, TitleLength) else sessions[i].title)
  {
    if Confirms(p, reply) then
      seq(|sessions|, i requires 0 <= i < |sessions| => ConfirmSession(sessions[i], p, reply, answer))
    else
      seq(|sessions|, i requires 0 <= i < |sessions| => AppendExchange(sessions[i], p, answer))
  }

  /** `sessions.find(s => s.id === id)`: the position of the first session with that id. */
  function FindSession(sessions: seq<ChatSession>, id: string): (r: Option<nat>)
    ensures r.Some? ==> r.value < |sessions| && sessions[r.value].id == id
                        && forall j :: 0 <= j < r.value ==> sessions[j].id != id
    ensures r.None? ==> forall j :: 0 <= j < |sessions| ==> sessions[j].id != id
  {
    if sessions == [] then None
    else if sessions[0].id == id then Some(0)
    else match FindSession(sessions[1..], id)
      case None => None
      case Some(k) => Some(k + 1)
  }

  /** The messages the sync effect shows for a given session list and current id, or `None`
      when it leaves the display alone (no current id, or no such session). */
  function SessionView(sessions: seq<ChatSession>, current: Option<string>): (v: Option<seq<Message>>)
    ensures v.Some? <==> Truthy(current) && FindSession(sessions, current.value).Some?
    ensures v.Some? ==> v.value == sessions[FindSession(sessions, current.value).value].messages
  {
    if Truthy(current) then
      match FindSession(sessions, current.value)
      case Some(k) => Some(sessions[k].messages)
      case None => None
    else None
  }

  /** After a reply, the sessions other than the captured one are exactly as before: a reply
      that arrives after the user switched to another session never reaches that session. */
  lemma {:induction false} ReplyStaysInCapturedSession(sessions: seq<ChatSession>, p: PendingSend,
                                                        reply: ChatReply, answer: Message, other: string)
    requires other != p.sessionId
    requires !Confirms(p, reply) || other != reply.sessionId
    requires forall i :: 0 <= i < |sessions| ==> sessions[i].id != reply.sessionId || !Confirms(p, reply)
    ensures SessionView(Reconcile(sessions, p, reply, answer), Some(other)) == SessionView(sessions, Some(other))
  {
    var r := Reconcile(sessions, p, reply, answer);
    var before := FindSession(sessions, other);
    var after := FindSession(r, other);
    if other != "" {
      if before.Some? {
        forall j | 0 <= j < before.value ensures r[j].id != other {
          if sessions[j].id == p.sessionId {
            assert r[j].id == (if Confirms(p, reply) then reply.sessionId else p.sessionId);
          }
        }
        assert r[before.value] == sessions[before.value];
        assert after == before;
      } else {
        forall j | 0 <= j < |r| ensures r[j].id != other {
          if sessions[j].id == p.sessionId {
            assert r[j].id == (if Confirms(p, reply) then reply.sessionId else p.sessionId);
          }
        }
      }
    }
  }

  /** The number of messages grows by exactly two in each captured session and by nothing
      elsewhere. */
  function TotalMessages(sessions: seq<ChatSession>): nat
  {
    if sessions == [] then 0 else |sessions[0].messages| + TotalMessages(sessions[1..])
  }

  function CountId(sessions: seq<ChatSession>, id: string): nat
  {
    if sessions == [] then 0 else (if sessions[0].id == id then 1 else 0) + CountId(sessions[1..], id)
  }

  lemma {:induction false} ReconcileAddsTwoPerCapturedSession(sessions: seq<ChatSession>, p: PendingSend,
                                                             reply: ChatReply, answer: Message)
    ensures TotalMessages(Reconcile(sessions, p, reply, answer))
            == TotalMessages(sessions) + 2 * CountId(sessions, p.sessionId)
  {
    if sessions != [] {
      var r := Reconcile(sessions, p, reply, answer);
      ReconcileAddsTwoPerCapturedSession(sessions[1..], p, reply, answer);
      assert r[1..] == Reconcile(sessions[1..], p, reply, answer);
    }
  }

  // ---------------------------------------------------------------------------------------
  // The page's state

  class ChatDashboard {
    var sessions: seq<ChatSession>
    var currentSessionId: Option<string>
    var messages: seq<Message>
    var inputValue: string
    var isLoading: bool

    constructor ()
      ensures sessions == [] && currentSessionId == None && messages == []
      ensures inputValue == "" && !isLoading
    {
      sessions, currentSessionId, messages := [], None, [];
      inputValue, isLoading := "", false;
    }

    /** Whether the send button is enabled. */
    function CanSubmit(): (b: bool)
      reads this
      ensures b <==> !isLoading && Strip(Js, inputValue) != ""
    {
      !isLoading && Strip(Js, inputValue) != ""
    }

    /** The effect that runs whenever `sessions` or `currentSessionId` changes: it shows the
        current session's messages, and leaves the display alone when there is none. */
    method SyncMessages()
      modifies this`messages
      ensures messages == (match SessionView(sessions, currentSessionId)
                           case Some(ms) => ms
                           case None => old(messages))
    {
      if currentSessionId.Some? && currentSessionId.value != "" {
        var k := FindSession(sessions, currentSessionId.value);
        if k.Some? {
          messages := sessions[k.value].messages;
        }
      }
    }

    /** The mount effect: restore the last session, or start a new chat when there is no
        history or it could not be fetched (`fetched == None`). */
    method LoadHistory(fetched: Option<History>, now: nat)
      modifies this
      ensures sessions == [MountSession(fetched, now)]
      ensures currentSessionId == Some(sessions[0].id)
      ensures messages == sessions[0].messages
      ensures inputValue == old(inputValue) && isLoading == old(isLoading)
    {
      var s := MountSession(fetched, now);
      sessions := [s];
      currentSessionId := Some(s.id);
      SyncMessages();
    }

    /** Typing in the input box. */
    method SetInput(text: string)
      modifies this`inputValue
      ensures inputValue == text
    {
      inputValue := text;
    }

    /** Clicking a session in the sidebar. */
    method SelectSession(k: nat)
      requires k < |sessions|
      modifies this`currentSessionId, this`messages
      ensures currentSessionId == Some(sessions[k].id)
      ensures old(currentSessionId) != currentSessionId ==>
                messages == (match SessionView(sessions, currentSessionId)
                             case Some(ms) => ms
                             case None => old(messages))
      ensures old(currentSessionId) == currentSessionId ==> messages == old(messages)
    {
      var previous := currentSessionId;
      currentSessionId := Some(sessions[k].id);
      if previous != currentSessionId {
        SyncMessages();
      }
    }

    /** "New Chat": prepend an empty provisional session and make it current. */
    method NewChat(now: nat)
      modifies this
      ensures sessions == [FreshSession(now)] + old(sessions)
      ensures currentSessionId == Some(ProvisionalId(now))
      ensures messages == []
      ensures inputValue == old(inputValue) && isLoading == old(isLoading)
    {
      var s := FreshSession(now);
      sessions := [s] + sessions;
      currentSessionId := Some(s.id);
      SyncMessages();
    }

    /** The part of `handleSendMessage` before the request: with blank input or no current
        session it does nothing; otherwise it shows the user message, clears the input and
        returns what the request and its completion use. */
    method BeginSend(now: nat) returns (p: Option<PendingSend>)
      modifies this
      ensures p.None? <==> Strip(Js, old(inputValue)) == "" || !Truthy(old(currentSessionId))
      ensures old(CanSubmit()) && Truthy(old(currentSessionId)) ==> p.Some?
      ensures p.Some? ==> !CanSubmit()
      ensures p.None? ==> && sessions == old(sessions) && currentSessionId == old(currentSessionId)
                          && messages == old(messages) && inputValue == old(inputValue)
                          && isLoading == old(isLoading)
      ensures p.Some? ==> && p.value.sessionId == old(currentSessionId).value
                          && p.value.input == old(inputValue)
                          && p.value.userMessage == Message(MessageId(now), UserRole, old(inputValue))
                          && messages == old(messages) + [p.value.userMessage]
                          && sessions == old(sessions) && currentSessionId == old(currentSessionId)
                          && inputValue == "" && isLoading
    {
      if Strip(Js, inputValue) == "" || currentSessionId.None? || currentSessionId.value == "" {
        return None;
      }
      var userMessage := Message(MessageId(now), UserRole, inputValue);
      p := Some(PendingSend(currentSessionId.value, inputValue, userMessage));
      messages := messages + [userMessage];
      inputValue := "";
      isLoading := true;
    }

    /** The part of `handleSendMessage` after the request. A failure only ends the loading
        state (the user message stays on display). A reply is appended to the display, the
        captured session is reconciled, and, when the reply confirms a provisional session,
        the current id follows it to the server's id. */
    method CompleteSend(p: PendingSend, outcome: SendOutcome, now: nat)
      modifies this
      ensures !isLoading && inputValue == old(inputValue)
      ensures outcome.Failed? ==> && sessions == old(sessions) && currentSessionId == old(currentSessionId)
                                  && messages == old(messages)
      ensures outcome.Replied? ==>
                var answer := Message(MessageId(now + 1), AssistantRole, AssistantContent(outcome.reply.response));
                && sessions == Reconcile(old(sessions), p, outcome.reply, answer)
                && currentSessionId == (if Confirms(p, outcome.reply) then Some(outcome.reply.sessionId)
                                        else old(currentSessionId))
                && messages == (match SessionView(sessions, currentSessionId)
                                case Some(ms) => ms
                                case None => old(messages) + [answer])
    {
      if outcome.Replied? {
        var reply := outcome.reply;
        var answer := Message(MessageId(now + 1), AssistantRole, AssistantContent(reply.response));
        messages := messages + [answer];
        if IsProvisional(p.sessionId) && reply.sessionId != "" {
          currentSessionId := Some(reply.sessionId);
        }
        sessions := Reconcile(sessions, p, reply, answer);
        SyncMessages();
      }
      isLoading := false;
    }
  }
}
