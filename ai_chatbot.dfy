/**
 * The stand-alone chat widget: a greeting, the user's messages, and canned
 * replies chosen by keywords in the lower-cased message.
 */
module AIChatbot {
  import opened Wrappers
  import opened JsText
  import opened KeywordRules

  datatype Sender = User | Ai

  /** A chat message; ids come from the clock and are inputs here. */
  datatype Message = Message(id: string, sender: Sender, text: string)

  const Greeting: string := "Hello! I'm your MediGraph AI assistant. How can I help you with drug discovery today?"

  /** The canned replies. */
  datatype Reply = BindingReply | AdmetReply | CompareReply | MechanismReply | OptimizeReply | FallbackReply

  const BindingReplyText: string :=
    "Based on our simulations, MediG-003 has "
    + "a predicted binding affinity of -7.8 "
    + "kcal/mol with ACE2. This suggests "
    + "moderate binding potential."
  const AdmetReplyText: string :=
    "The ADMET profile for our lead compounds "
    + "shows promising results. MediG-001 has "
    + "the highest score at 87.5, with good "
    + "predicted oral bioavailability and low "
    + "hepatotoxicity risk."
  const CompareReplyText: string :=
    "When comparing MediG-001 to "
    + "FDA-Approved-Drug-001, we observe that "
    + "the approved drug has better binding "
    + "affinity (-11.0 vs -9.3 kcal/mol) and "
    + "ADMET score (95.2 vs 87.5). However, "
    + "MediG-001 shows novel structural "
    + "features that may provide different "
    + "selectivity profiles."
  const MechanismReplyText: string :=
    "MediG-001 is predicted to act as a "
    + "competitive inhibitor of P53 Tumor "
    + "Suppressor, potentially restoring normal "
    + "function in cancer cells where P53 is "
    + "mutated. The binding occurs at the "
    + "DNA-binding domain."
  const OptimizeReplyText: string :=
    "To optimize MediG-001, I recommend "
    + "modifying the carboxylic acid group to "
    + "improve membrane permeability. Adding a "
    + "methyl group at position 4 might also "
    + "enhance binding affinity based on our "
    + "molecular dynamics simulations."
  const FallbackReplyText: string :=
    "I don't have specific information about "
    + "that query. Would you like me to analyze "
    + "any of our lead compounds for binding "
    + "affinity, ADMET properties, or "
    + "structural optimization opportunities?"

  function ReplyText(r: Reply): string {
    match r
    case BindingReply => BindingReplyText
    case AdmetReply => AdmetReplyText
    case CompareReply => CompareReplyText
    case MechanismReply => MechanismReplyText
    case OptimizeReply => OptimizeReplyText
    case FallbackReply => FallbackReplyText
  }

  /** `generateAIResponse`: the checks in source order, each returning at once. */
  function GenerateAIResponse(query: string): Reply {
    var lowerQuery := ToLower(query);
    if Includes(lowerQuery, "binding") && Includes(lowerQuery, "ace2") then BindingReply
    else if Includes(lowerQuery, "admet") || Includes(lowerQuery, "toxicity") then AdmetReply
    else if Includes(lowerQuery, "compare") || Includes(lowerQuery, "difference") then CompareReply
    else if Includes(lowerQuery, "mechanism") || Includes(lowerQuery, "action") then MechanismReply
    else if Includes(lowerQuery, "optimize") || Includes(lowerQuery, "improve") then OptimizeReply
    else FallbackReply
  }

  /** The same routing as a rule table. */
  function ChatbotRules(): seq<Rule<Reply>> {
    [ Rule(AllOf(["binding", "ace2"]), BindingReply),
      Rule(AnyOf(["admet", "toxicity"]), AdmetReply),
      Rule(AnyOf(["compare", "difference"]), CompareReply),
      Rule(AnyOf(["mechanism", "action"]), MechanismReply),
      Rule(AnyOf(["optimize", "improve"]), OptimizeReply) ]
  }

  /** The reply is the one of the first rule of the table that fires, or the fallback. */
  lemma GenerateIsFirstMatch(query: string)
    ensures GenerateAIResponse(query) == Respond(ChatbotRules(), ToLower(query), FallbackReply)
  {
    var t := ToLower(query);
    var rules := ChatbotRules();
    AllOfTwo("binding", "ace2", t);
    AnyOfTwo("admet", "toxicity", t);
    AnyOfTwo("compare", "difference", t);
    AnyOfTwo("mechanism", "action", t);
    AnyOfTwo("optimize", "improve", t);
    var fired := if Holds(rules[0].when, t) then 0
      else if Holds(rules[1].when, t) then 1
      else if Holds(rules[2].when, t) then 2
      else if Holds(rules[3].when, t) then 3
      else if Holds(rules[4].when, t) then 4
      else 5;
    if fired < 5 {
      RespondEarliest(rules, t, FallbackReply, fired);
    } else {
      RespondFallback(rules, t, FallbackReply);
    }
  }

  /** A message containing "action" but none of the letters b, d, x and m gets the
      mechanism reply: it contains none of the keywords of the earlier rules. */
  lemma ActionGetsMechanismReply(query: string)
    requires Includes(ToLower(query), "action")
    requires forall k :: 0 <= k < |query| ==> query[k] !in "bdxmBDXM"
    ensures GenerateAIResponse(query) == MechanismReply
  {
    var t := ToLower(query);
    assert 'b' !in t && 'd' !in t && 'x' !in t && 'm' !in t by {
      forall k | 0 <= k < |t| ensures t[k] !in "bdxm" {
        assert query[k] !in "bdxmBDXM";
      }
    }
    MissingChar(t, "binding", 'b');
    MissingChar(t, "admet", 'd');
    MissingChar(t, "toxicity", 'x');
    MissingChar(t, "compare", 'm');
    MissingChar(t, "difference", 'd');
  }

  /** Asking about an "interaction" gets the mechanism reply, since the word contains "action". */
  lemma InteractionGetsMechanismReply()
    ensures GenerateAIResponse("interaction") == MechanismReply
  {
    var t := "interaction";
    assert t == "inter" + "action" + "";
    assert ToLower(t) == t;
    IncludesInContext("inter", "action", "");
    ActionGetsMechanismReply(t);
  }

  /** The assistant's message answering `sent`. */
  function ReplyMessage(aiId: string, sent: string): Message {
    Message(aiId, Ai, ReplyText(GenerateAIResponse(sent)))
  }

  /** The widget's state. */
  class Chatbot {
    var messages: seq<Message>
    var inputText: string
    var isTyping: bool

    /** The widget opens with the greeting only. */
    constructor()
      ensures messages == [Message("1", Ai, Greeting)] && inputText == "" && !isTyping
    {
      messages := [Message("1", Ai, Greeting)];
      inputText := "";
      isTyping := false;
    }

    method SetInputText(text: string)
      modifies this
      ensures inputText == text && messages == old(messages) && isTyping == old(isTyping)
    {
      inputText := text;
    }

    /** `handleSendMessage`: a blank input is ignored; otherwise the user's message is
        appended, the input cleared and a reply to the sent text scheduled. */
    method HandleSendMessage(userId: string) returns (pending: Option<string>)
      modifies this
      ensures IsBlank(old(inputText)) ==>
        pending.None? && messages == old(messages) && inputText == old(inputText) && isTyping == old(isTyping)
      ensures !IsBlank(old(inputText)) ==>
        && pending == Some(old(inputText))
        && messages == old(messages) + [Message(userId, User, old(inputText))]
        && inputText == "" && isTyping
    {
      TrimEmptyIffBlank(inputText);
      if |Trim(inputText)| == 0 {
        return None;
      }
      var sent := inputText;
      messages := messages + [Message(userId, User, sent)];
      inputText := "";
      isTyping := true;
      pending := Some(sent);
    }

    /** The delayed reply to the text that was sent. */
    method DeliverReply(sent: string, aiId: string)
      modifies this
      ensures messages == old(messages) + [ReplyMessage(aiId, sent)]
      ensures !isTyping && inputText == old(inputText)
    {
      messages := messages + [ReplyMessage(aiId, sent)];
      isTyping := false;
    }

    /** `handleKeyPress`: only Enter sends. */
    method HandleKeyPress(key: string, userId: string) returns (pending: Option<string>)
      modifies this
      ensures key != "Enter" ==>
        pending.None? && messages == old(messages) && inputText == old(inputText) && isTyping == old(isTyping)
      ensures key == "Enter" && !IsBlank(old(inputText)) ==>
        && pending == Some(old(inputText))
        && messages == old(messages) + [Message(userId, User, old(inputText))]
        && inputText == "" && isTyping
      ensures key == "Enter" && IsBlank(old(inputText)) ==>
        pending.None? && messages == old(messages) && inputText == old(inputText) && isTyping == old(isTyping)
    {
      pending := None;
      if key == "Enter" {
        pending := HandleSendMessage(userId);
      }
    }
  }
}
