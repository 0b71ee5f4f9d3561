/**
 * The context-aware assistant panel: a greeting chosen by the page it sits
 * on, and canned replies picked first by page-specific keywords, then by
 * general ones, in the lower-cased message.
 */
module AIAssistant {
  import opened Wrappers
  import opened JsText
  import opened KeywordRules

  /** The page the assistant sits on (`general` by default). */
  datatype Context = DrugDesign | GraphDiscovery | General

  datatype Sender = User | Ai

  /** A chat message; ids come from the clock and are inputs here. */
  datatype Message = Message(id: string, text: string, sender: Sender)

  const DrugDesignGreeting: string :=
    "Hello! I'm your AI assistant for drug "
    + "design. I can help you analyze "
    + "molecules, suggest modifications, and "
    + "explain drug properties. What would you "
    + "like to know?"
  const GraphDiscoveryGreeting: string :=
    "Welcome to Graph Discovery! I can help "
    + "you explore relationships between drugs, "
    + "targets, and diseases. What would you "
    + "like to investigate?"
  const DefaultGreeting: string :=
    "Hi there! I'm your MediGraph AI "
    + "assistant. How can I help you today?"

  /** `getContextGreeting`. */
  function ContextGreeting(context: Context): string {
    match context
    case DrugDesign => DrugDesignGreeting
    case GraphDiscovery => GraphDiscoveryGreeting
    case General => DefaultGreeting
  }

  /** The canned replies. */
  datatype Reply =
    | LipinskiReply | DockingReply | OptimizeReply
    | PathwayReply | RepurposeReply
    | HelloReply | ThanksReply | HowItWorksReply | FallbackReply

  const LipinskiText: string :=
    "Lipinski's Rule of Five states that "
    + "drug-like molecules generally have: "
    + "molecular weight ≤500, LogP ≤5, hydrogen "
    + "bond donors ≤5, and hydrogen bond "
    + "acceptors ≤10. These properties help "
    + "predict oral bioavailability."
  const DockingText: string :=
    "Molecular docking predicts the preferred "
    + "orientation of a molecule when bound to "
    + "a target protein. Lower binding energies "
    + "(more negative values) generally "
    + "indicate stronger binding. Values below "
    + "-8 kcal/mol typically suggest good "
    + "binding affinity."
  const OptimizeText: string :=
    "To optimize a molecule, consider: adding "
    + "H-bond donors/acceptors to improve "
    + "target interactions, modifying "
    + "solubility with polar groups, reducing "
    + "rotatable bonds for better binding "
    + "entropy, or adding lipophilic groups to "
    + "increase membrane permeability."
  const PathwayText: string :=
    "Drug-target-disease pathways show how "
    + "drugs affect biological systems. For "
    + "example, statins inhibit HMG-CoA "
    + "reductase, reducing cholesterol "
    + "synthesis and lowering cardiovascular "
    + "disease risk. Graph analysis can reveal "
    + "these complex relationships."
  const RepurposeText: string :=
    "Drug repurposing identifies new uses for "
    + "existing drugs. Graph analysis helps by "
    + "finding unexpected connections between "
    + "drugs and diseases through shared "
    + "targets or pathways. This approach is "
    + "faster and less expensive than "
    + "traditional drug discovery."
  const HelloText: string :=
    "Hello! How can I assist you today?"
  const ThanksText: string :=
    "You're welcome! Let me know if you have "
    + "any other questions."
  const HowItWorksText: string :=
    "I analyze patterns in biomedical data to "
    + "provide insights about drugs, targets, "
    + "and diseases. I can help with molecular "
    + "analysis, property prediction, and "
    + "relationship discovery."
  const FallbackText: string :=
    "That's an interesting question. While I "
    + "don't have a specific answer, I can help "
    + "you analyze molecular properties, "
    + "explore drug-target relationships, or "
    + "explain pharmacological concepts. Could "
    + "you provide more details about what "
    + "you're looking for?"

  function ReplyText(r: Reply): string {
    match r
    case LipinskiReply => LipinskiText
    case DockingReply => DockingText
    case OptimizeReply => OptimizeText
    case PathwayReply => PathwayText
    case RepurposeReply => RepurposeText
    case HelloReply => HelloText
    case ThanksReply => ThanksText
    case HowItWorksReply => HowItWorksText
    case FallbackReply => FallbackText
  }

  /** The page-specific branch of `generateResponse` on the lower-cased query;
      `None` when it does not answer. */
  function ContextReply(lowerQuery: string, context: Context): Option<Reply> {
    if context == DrugDesign then
      if Includes(lowerQuery, "lipinski") || Includes(lowerQuery, "rule of five") then Some(LipinskiReply)
      else if Includes(lowerQuery, "docking") || Includes(lowerQuery, "binding") then Some(DockingReply)
      else if Includes(lowerQuery, "optimize") || Includes(lowerQuery, "improve") then Some(OptimizeReply)
      else None
    else if context == GraphDiscovery then
      if Includes(lowerQuery, "pathway") || Includes(lowerQuery, "mechanism") then Some(PathwayReply)
      else if Includes(lowerQuery, "repurpose") || Includes(lowerQuery, "reposition") then Some(RepurposeReply)
      else None
    else None
  }

  /** `generateResponse`: the page-specific rules, then the general ones, then the fallback. */
  function GenerateResponse(query: string, context: Context): Reply {
    var lowerQuery := ToLower(query);
    var specific := ContextReply(lowerQuery, context);
    if specific.Some? then specific.value
    else if Includes(lowerQuery, "hello") || Includes(lowerQuery, "hi ") then HelloReply
    else if Includes(lowerQuery, "thank") then ThanksReply
    else if Includes(lowerQuery, "how") && Includes(lowerQuery, "work") then HowItWorksReply
    else FallbackReply
  }

  /** The page-specific rules as a table. */
  function ContextRules(context: Context): seq<Rule<Reply>> {
    match context
    case DrugDesign => [
      Rule(AnyOf(["lipinski", "rule of five"]), LipinskiReply),
      Rule(AnyOf(["docking", "binding"]), DockingReply),
      Rule(AnyOf(["optimize", "improve"]), OptimizeReply) ]
    case GraphDiscovery => [
      Rule(AnyOf(["pathway", "mechanism"]), PathwayReply),
      Rule(AnyOf(["repurpose", "reposition"]), RepurposeReply) ]
    case General => []
  }

  /** The general rules as a table. */
  function GenericRules(): seq<Rule<Reply>> {
    [ Rule(AnyOf(["hello", "hi "]), HelloReply),
      Rule(AnyOf(["thank"]), ThanksReply),
      Rule(AllOf(["how", "work"]), HowItWorksReply) ]
  }

  /** A one-keyword condition. */
  lemma AnyOfOne(a: string, text: string)
    ensures Holds(AnyOf([a]), text) <==> Includes(text, a)
  {
    assert [a][0] == a;
  }

  /** The page-specific branch answers with the first page rule that fires. */
  lemma ContextReplyIsFirstMatch(lowerQuery: string, context: Context)
    ensures var rules := ContextRules(context);
      ContextReply(lowerQuery, context) == (
        match FirstMatch(rules, lowerQuery)
        case Some(i) => Some(rules[i].reply)
        case None => None)
  {
    var t := lowerQuery;
    var rules := ContextRules(context);
    match context
    case DrugDesign =>
      AnyOfTwo("lipinski", "rule of five", t);
      AnyOfTwo("docking", "binding", t);
      AnyOfTwo("optimize", "improve", t);
      var fired := if Holds(rules[0].when, t) then 0
        else if Holds(rules[1].when, t) then 1
        else if Holds(rules[2].when, t) then 2
        else 3;
      if fired < 3 {
        RespondEarliest(rules, t, FallbackReply, fired);
      }
    case GraphDiscovery =>
      AnyOfTwo("pathway", "mechanism", t);
      AnyOfTwo("repurpose", "reposition", t);
      var fired := if Holds(rules[0].when, t) then 0
        else if Holds(rules[1].when, t) then 1
        else 2;
      if fired < 2 {
        RespondEarliest(rules, t, FallbackReply, fired);
      }
    case General =>
  }

  /** The general rules answer with the first one that fires, or the fallback. */
  lemma GenericIsFirstMatch(t: string)
    ensures Respond(GenericRules(), t, FallbackReply) ==
      if Includes(t, "hello") || Includes(t, "hi ") then HelloReply
      else if Includes(t, "thank") then ThanksReply
      else if Includes(t, "how") && Includes(t, "work") then HowItWorksReply
      else FallbackReply
  {
    var rules := GenericRules();
    AnyOfTwo("hello", "hi ", t);
    AnyOfOne("thank", t);
    AllOfTwo("how", "work", t);
    var fired := if Holds(rules[0].when, t) then 0
      else if Holds(rules[1].when, t) then 1
      else if Holds(rules[2].when, t) then 2
      else 3;
    if fired < 3 {
      RespondEarliest(rules, t, FallbackReply, fired);
    } else {
      RespondFallback(rules, t, FallbackReply);
    }
  }

  /** The reply is the one of the first rule that fires in the page table followed by
      the general table, or the fallback. */
  lemma GenerateIsFirstMatch(query: string, context: Context)
    ensures GenerateResponse(query, context) ==
      Respond(ContextRules(context) + GenericRules(), ToLower(query), FallbackReply)
  {
    var t := ToLower(query);
    var front, back := ContextRules(context), GenericRules();
    ContextReplyIsFirstMatch(t, context);
    GenericIsFirstMatch(t);
    match FirstMatch(front, t)
    case Some(i) =>
      var all := front + back;
      assert all[i] == front[i];
      forall k | 0 <= k < i ensures !Holds(all[k].when, t) {
        assert all[k] == front[k];
      }
      RespondEarliest(all, t, FallbackReply, i);
    case None =>
      RespondPrefix(front, back, t, FallbackReply);
  }

  /** A bare "hi" is not taken as a greeting: the keyword is "hi" followed by a space. */
  lemma BareHiGetsFallback()
    ensures GenerateResponse("hi", General) == FallbackReply
  {
    var t := "hi";
    assert ToLower(t) == t;
    assert 'e' !in t && ' ' !in t && 't' !in t && 'o' !in t;
    MissingChar(t, "hello", 'e');
    MissingChar(t, "hi ", ' ');
    MissingChar(t, "thank", 't');
    MissingChar(t, "how", 'o');
  }

  /** A page-specific keyword takes precedence over a general one: asking to "thank"
      about "docking" on the drug-design page gets the docking reply. */
  lemma ContextFirst(query: string)
    requires Includes(ToLower(query), "docking")
    requires !Includes(ToLower(query), "lipinski") && !Includes(ToLower(query), "rule of five")
    ensures GenerateResponse(query, DrugDesign) == DockingReply
    ensures GenerateResponse(query, General) != DockingReply
  {
  }

  /** A reply scheduled by a send, answering the text and page at the time of sending. */
  datatype PendingReply = PendingReply(text: string, context: Context)

  /** The assistant's message answering a pending reply. */
  function ReplyMessage(aiId: string, p: PendingReply): Message {
    Message(aiId, ReplyText(GenerateResponse(p.text, p.context)), Ai)
  }

  class Assistant {
    var context: Context
    var messages: seq<Message>
    var inputText: string
    var isTyping: bool

    /** The mounted panel shows the greeting of its page only. */
    constructor(c: Context)
      ensures context == c && messages == [Message("greeting", ContextGreeting(c), Ai)]
      ensures inputText == "" && !isTyping
    {
      context := c;
      messages := [Message("greeting", ContextGreeting(c), Ai)];
      inputText := "";
      isTyping := false;
    }

    /** The greeting effect when the page changes: the conversation restarts. */
    method ContextChanged(c: Context)
      modifies this
      ensures context == c && messages == [Message("greeting", ContextGreeting(c), Ai)]
      ensures inputText == old(inputText) && isTyping == old(isTyping)
    {
      context := c;
      messages := [Message("greeting", ContextGreeting(c), Ai)];
    }

    method SetInputText(text: string)
      modifies this
      ensures inputText == text && messages == old(messages)
      ensures context == old(context) && isTyping == old(isTyping)
    {
      inputText := text;
    }

    /** `handleSendMessage`: a blank input is ignored; otherwise the user's message is
        appended, the input cleared and a reply scheduled. */
    method HandleSendMessage(userId: string) returns (pending: Option<PendingReply>)
      modifies this
      ensures IsBlank(old(inputText)) ==>
        pending.None? && messages == old(messages) && inputText == old(inputText) && isTyping == old(isTyping)
      ensures !IsBlank(old(inputText)) ==>
        && pending == Some(PendingReply(old(inputText), context))
        && messages == old(messages) + [Message(userId, old(inputText), User)]
        && inputText == "" && isTyping
      ensures context == old(context)
    {
      TrimEmptyIffBlank(inputText);
      if |Trim(inputText)| == 0 {
        return None;
      }
      var sent := inputText;
      messages := messages + [Message(userId, sent, User)];
      inputText := "";
      isTyping := true;
      pending := Some(PendingReply(sent, context));
    }

    /** The delayed reply. */
    method DeliverReply(p: PendingReply, aiId: string)
      modifies this
      ensures messages == old(messages) + [ReplyMessage(aiId, p)]
      ensures !isTyping && inputText == old(inputText) && context == old(context)
    {
      messages, isTyping := messages + [ReplyMessage(aiId, p)], false;
    }
  }
}
