/**
 * The floating chat widget: a conversation log that starts with a greeting
 * and only ever grows, an input field, and a loading flag. Each non-blank send
 * logs the typed text and then exactly one answer: the backend's reply, or the
 * widget's own keyword answer when the backend fails.
 */
module ChatWidget {
  import opened Strings

  datatype Role = User | Assistant

  datatype Message = Message(role: Role, content: string)

  const Greeting: Message := Message(Assistant,
    "Hello! I'm your disaster safety assistant. I can provide tips on hurricane preparedness, evacuation routes, emergency supplies, and more. How can I help you today?")

  /** What the `/api/chat` request produced: an OK reply, a non-OK status, or a thrown fetch/parse. */
  datatype Backend = Ok(reply: string) | NotOk | Unreachable

  /** The widget's six built-in answers, in the order their keyword tests are tried. */
  datatype Advice = HurricaneTips | EvacuationTips | SupplyTips | FloodTips | PowerTips | HelpMenu

  predicate MentionsHurricane(lower: string)
  {
    Contains(lower, "hurricane") || Contains(lower, "storm")
  }

  predicate MentionsEvacuation(lower: string)
  {
    Contains(lower, "evacuat")
  }

  predicate MentionsSupplies(lower: string)
  {
    Contains(lower, "supply") || Contains(lower, "kit")
  }

  predicate MentionsFlood(lower: string)
  {
    Contains(lower, "flood")
  }

  predicate MentionsPower(lower: string)
  {
    Contains(lower, "power") || Contains(lower, "electricity")
  }

  /** The if/else-if chain of `getAIResponse`, on the lower-cased message. */
  function Classify(userMessage: string): Advice
  {
    var lower := Lower(userMessage);
    if MentionsHurricane(lower) then HurricaneTips
    else if MentionsEvacuation(lower) then EvacuationTips
    else if MentionsSupplies(lower) then SupplyTips
    else if MentionsFlood(lower) then FloodTips
    else if MentionsPower(lower) then PowerTips
    else HelpMenu
  }

  function AdviceText(a: Advice): string
  {
    match a
    case HurricaneTips =>
      "Hurricane Safety Tips:\n\n1. Stay indoors away from windows\n2. Have at least 3 days of water and non-perishable food\n3. Keep flashlights and batteries ready\n4. Charge all electronic devices\n5. Know your evacuation route\n6. Listen to local emergency broadcasts\n7. Secure outdoor objects\n8. If evacuating, do so early"
    case EvacuationTips =>
      "Evacuation Guidelines:\n\n1. Follow official evacuation orders immediately\n2. Take your emergency kit\n3. Bring important documents\n4. Tell someone where you're going\n5. Use recommended evacuation routes\n6. Don't drive through flooded areas\n7. Turn off utilities if instructed\n8. Lock your home"
    case SupplyTips =>
      "Emergency Supply Kit Essentials:\n\n1. Water (1 gallon per person per day)\n2. Non-perishable food (3-day supply)\n3. First aid kit\n4. Flashlight and extra batteries\n5. Battery-powered radio\n6. Medications (7-day supply)\n7. Important documents in waterproof container\n8. Cash\n9. Phone chargers\n10. Basic tools"
    case FloodTips =>
      "Flood Safety:\n\n1. Move to higher ground immediately\n2. Never walk or drive through flood water\n3. Stay away from power lines\n4. Turn off utilities if safe to do so\n5. Don't return home until authorities say it's safe\n6. Document damage with photos\n7. Avoid contaminated water"
    case PowerTips =>
      "Power Outage Safety:\n\n1. Keep freezers/fridges closed\n2. Use flashlights, not candles\n3. Turn off/unplug appliances\n4. Keep generators outside\n5. Use battery-powered devices\n6. Stay away from downed power lines\n7. Conserve phone battery"
    case HelpMenu =>
      "I can help with:\n\n\U{2022} Hurricane & storm preparedness\n\U{2022} Evacuation procedures\n\U{2022} Emergency supply kits\n\U{2022} Flood safety\n\U{2022} Power outage tips\n\U{2022} General disaster preparedness\n\nWhat would you like to know more about?"
  }

  /** `getAIResponse` */
  function GetAIResponse(userMessage: string): string
  {
    AdviceText(Classify(userMessage))
  }

  /** Each answer is given exactly when its keywords occur and no earlier group's do. */
  lemma ClassifyPriority(userMessage: string)
    ensures var lower := Lower(userMessage);
      && (Classify(userMessage) == HurricaneTips <==> MentionsHurricane(lower))
      && (Classify(userMessage) == EvacuationTips <==> !MentionsHurricane(lower) && MentionsEvacuation(lower))
      && (Classify(userMessage) == SupplyTips <==>
            !MentionsHurricane(lower) && !MentionsEvacuation(lower) && MentionsSupplies(lower))
      && (Classify(userMessage) == FloodTips <==>
            !MentionsHurricane(lower) && !MentionsEvacuation(lower) && !MentionsSupplies(lower) && MentionsFlood(lower))
      && (Classify(userMessage) == PowerTips <==>
            !MentionsHurricane(lower) && !MentionsEvacuation(lower) && !MentionsSupplies(lower)
            && !MentionsFlood(lower) && MentionsPower(lower))
      && (Classify(userMessage) == HelpMenu <==>
            !MentionsHurricane(lower) && !MentionsEvacuation(lower) && !MentionsSupplies(lower)
            && !MentionsFlood(lower) && !MentionsPower(lower))
  {
  }

  /** Case does not matter: a message and its lower-cased form get the same answer. */
  lemma ClassifyIgnoresCase(userMessage: string)
    ensures Classify(Lower(userMessage)) == Classify(userMessage)
  {
    LowerIdempotent(userMessage);
  }

  /** A keyword typed in capitals anywhere in a message is recognised. */
  lemma {:induction false} CapitalKeywordFound(p: string, upper: string, q: string, keyword: string)
    requires Lower(upper) == keyword
    ensures Contains(Lower(p + upper + q), keyword)
  {
    var lm := Lower(p + upper + q);
    assert lm[|p|..|p| + |upper|] == Lower(upper);
    assert OccursAt(lm, keyword, |p|);
    ContainsIff(lm, keyword);
  }

  /** A message asking about a FLOOD, with no earlier group's keyword, gets the flood answer. */
  lemma FloodInCapitals(p: string, q: string)
    requires var lower := Lower(p + "FLOOD" + q);
      !MentionsHurricane(lower) && !MentionsEvacuation(lower) && !MentionsSupplies(lower)
    ensures GetAIResponse(p + "FLOOD" + q) == AdviceText(FloodTips)
  {
    CapitalKeywordFound(p, "FLOOD", q, "flood");
  }

  /** The single assistant message a completed send appends. */
  function AnswerTo(sent: string, outcome: Backend): Message
  {
    match outcome
    case Ok(reply) => Message(Assistant, reply)
    case NotOk => Message(Assistant, GetAIResponse(sent))
    case Unreachable => Message(Assistant, GetAIResponse(sent))
  }

  /** A failing backend is answered by the widget itself, the same way whatever the failure. */
  lemma FailuresAnsweredLocally(sent: string)
    ensures AnswerTo(sent, NotOk) == AnswerTo(sent, Unreachable) == Message(Assistant, GetAIResponse(sent))
    ensures forall reply :: AnswerTo(sent, Ok(reply)).content == reply
  {
  }

  /** The widget's state. */
  class Chat {
    var isOpen: bool
    var messages: seq<Message>
    var inputMessage: string
    var isLoading: bool

    /** The log always begins with the greeting. */
    predicate Valid()
      reads this
    {
      |messages| >= 1 && messages[0] == Greeting
    }

    constructor ()
      ensures Valid() && messages == [Greeting]
      ensures !isOpen && inputMessage == "" && !isLoading
    {
      isOpen, messages, inputMessage, isLoading := false, [Greeting], "", false;
    }

    /** The chat button and the close button. */
    method SetOpen(open: bool)
      modifies this`isOpen
      ensures isOpen == open
    {
      isOpen := open;
    }

    /** Typing into the input field. */
    method Type(text: string)
      modifies this`inputMessage
      ensures inputMessage == text
    {
      inputMessage := text;
    }

    /**
     * `handleSend` up to the request: a blank input changes nothing and sends
     * nothing; otherwise the raw input is logged as the user's message, the
     * field is cleared, loading starts, and the text to send is returned.
     */
    method BeginSend() returns (pending: string, started: bool)
      requires Valid()
      modifies this`messages, this`inputMessage, this`isLoading
      ensures Valid()
      ensures started <==> !AllSpace(old(inputMessage))
      ensures !started ==> messages == old(messages) && inputMessage == old(inputMessage) && isLoading == old(isLoading)
      ensures started ==>
        && pending == old(inputMessage)
        && messages == old(messages) + [Message(User, old(inputMessage))]
        && inputMessage == "" && isLoading
    {
      TrimEmptyIff(inputMessage);
      if Trim(inputMessage) == "" {
        return "", false;
      }
      pending, started := inputMessage, true;
      messages := messages + [Message(User, inputMessage)];
      inputMessage := "";
      isLoading := true;
    }

    /** The rest of `handleSend`: exactly one assistant message is appended and loading ends. */
    method CompleteSend(sent: string, outcome: Backend)
      requires Valid()
      modifies this`messages, this`isLoading
      ensures Valid()
      ensures messages == old(messages) + [AnswerTo(sent, outcome)]
      ensures !isLoading
    {
      match outcome {
        case Ok(reply) =>
          messages := messages + [Message(Assistant, reply)];
        case NotOk =>
          var fallbackResponse := GetAIResponse(sent);
          messages := messages + [Message(Assistant, fallbackResponse)];
        case Unreachable =>
          var fallbackResponse := GetAIResponse(sent);
          messages := messages + [Message(Assistant, fallbackResponse)];
      }
      isLoading := false;
    }
  }

  /**
   * A whole send as one step: a blank input leaves the log alone; any other
   * input adds the user's message and one answer, and nothing earlier changes.
   */
  method HandleSend(chat: Chat, outcome: Backend)
    requires chat.Valid()
    modifies chat`messages, chat`inputMessage, chat`isLoading
    ensures chat.Valid()
    ensures AllSpace(old(chat.inputMessage)) ==> chat.messages == old(chat.messages)
    ensures !AllSpace(old(chat.inputMessage)) ==>
      && chat.messages == old(chat.messages)
           + [Message(User, old(chat.inputMessage)), AnswerTo(old(chat.inputMessage), outcome)]
      && chat.inputMessage == "" && !chat.isLoading
    ensures chat.messages[..|old(chat.messages)|] == old(chat.messages)
  {
    var pending, started := chat.BeginSend();
    if started {
      chat.CompleteSend(pending, outcome);
    }
  }
}
