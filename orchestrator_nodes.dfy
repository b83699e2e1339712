/** The orchestrator graph's two nodes: the router that picks the agent for the user's last
    message and the small-talk node. The language model is a parameter: a function from the
    prompt's variable text to the model's answer. */
module OrchestratorNodes {
  import opened Common
  import opened GraphMessages

  /** The values of `next_agent`. */
  datatype Agent = MarketingAgent | GeneralChat | End

  /** `BaseMessage.type`. */
  function TypeName(k: Kind): string
  {
    match k
    case Human => "human"
    case Ai => "ai"
    case System => "system"
    case Tool => "tool"
  }

  /** `messages[-3:]`: the last three messages, or all of them when there are fewer. */
  function Recent(ms: seq<Message>): (r: seq<Message>)
    ensures |r| == Min(3, |ms|) && r == ms[|ms| - |r|..]
  {
    if |ms| <= 3 then ms else ms[|ms| - 3..]
  }

  function ContextLine(m: Message): string
  {
    TypeName(m.kind) + ": " + m.content
  }

  /** The conversation context the router's prompt receives: one "type: content" line per
      recent message, joined by line breaks. */
  function RoutingContext(ms: seq<Message>): string
  {
    var r := Recent(ms);
    Join(seq(|r|, i requires 0 <= i < |r| => ContextLine(r[i])), "\n")
  }

  /** `router_node`, given the model's classification of a context. Only a conversation that
      ends with the user's message is classified, and only an answer that mentions
      "marketing", ignoring case and surrounding white space, routes to the marketing agent. */
  function RouterNode(ms: seq<Message>, classify: string -> string): (next: Agent)
    ensures !EndsWithHuman(ms) ==> next == GeneralChat
    ensures next == MarketingAgent <==>
              EndsWithHuman(ms) && Contains(ToLowerAscii(Strip(Py, classify(RoutingContext(ms)))), "marketing")
    ensures next != End
  {
    if ms == [] then GeneralChat
    else if ms[|ms| - 1].kind != Human then GeneralChat
    else
      var intent := ToLowerAscii(Strip(Py, classify(RoutingContext(ms))));
      if Contains(intent, "marketing") then MarketingAgent else GeneralChat
  }

  /** Only the last three messages reach the router: earlier history never changes the
      route. */
  lemma {:induction false} OnlyRecentRoute(earlier: seq<Message>, recent: seq<Message>, classify: string -> string)
    requires |recent| == 3
    ensures RoutingContext(earlier + recent) == RoutingContext(recent)
    ensures RouterNode(earlier + recent, classify) == RouterNode(recent, classify)
  {
    var ms := earlier + recent;
    assert ms[|ms| - 3..] == recent;
    assert Recent(ms) == Recent(recent);
    assert ms[|ms| - 1] == recent[2];
  }

  /** "Marketing", stripped and lower-cased, mentions "marketing". */
  lemma MarketingLowered()
    ensures Contains(ToLowerAscii(Strip(Py, "Marketing")), "marketing")
  {
    StripTrailing("Marketing", "");
    assert "Marketing" + "" == "Marketing";
    var lower := ToLowerAscii("Marketing");
    LowerMarketing();
    assert lower[0..9] == "marketing";
    assert OccursAt(lower, 0, "marketing");
  }

  lemma LowerMarketing()
    ensures ToLowerAscii("Marketing") == "marketing"
  {
    var lower := ToLowerAscii("Marketing");
    forall i | 0 <= i < 9
      ensures lower[i] == "marketing"[i]
    {
    }
  }

  /** The model's answer is read without regard to case: "Marketing" routes to the
      marketing agent. */
  lemma CapitalisedIntent(ms: seq<Message>, classify: string -> string)
    requires EndsWithHuman(ms) && classify(RoutingContext(ms)) == "Marketing"
    ensures RouterNode(ms, classify) == MarketingAgent
  {
    MarketingLowered();
  }

  /** What a node returns: the messages to append and the next agent, or the `IndexError`
      of reading the last message of an empty conversation. */
  datatype NodeResult = Replied(messages: seq<Message>, next: Agent) | IndexError

  /** `general_chat_node`, given the model's reply to a user input. */
  function GeneralChatNode(ms: seq<Message>, respond: string -> string): (r: NodeResult)
    ensures ms == [] <==> r == IndexError
    ensures r.Replied? ==> |r.messages| == 1 && r.messages[0].kind == Ai && r.next == End
    ensures r.Replied? ==> r.messages[0].content == respond(ms[|ms| - 1].content)
  {
    if ms == [] then IndexError else Replied([Message(Ai, respond(ms[|ms| - 1].content))], End)
  }

  /** Once small talk has answered, the conversation ends with an AI message, so routing it
      again cannot pick the marketing agent. */
  lemma ChatAnswerRoutesToChat(ms: seq<Message>, respond: string -> string, classify: string -> string)
    requires GeneralChatNode(ms, respond).Replied?
    ensures RouterNode(ms + GeneralChatNode(ms, respond).messages, classify) == GeneralChat
  {
    var after := ms + GeneralChatNode(ms, respond).messages;
    assert after[|after| - 1].kind == Ai;
  }
}
