/**
 * `POST /api/chat`: the Gemini answer when Gemini is configured and answers,
 * otherwise the rule-based fallback built from the lower-cased message, the
 * active-storm list and the storm analytics.
 */
module ChatRoute {
  import opened Wrappers
  import opened Strings
  import opened ServerEnv
  import opened StormFeeds

  /** The four fallback answers, in the order their keyword tests are tried. */
  datatype Topic = StormInfo | Evacuation | Supplies | Help

  predicate MentionsStorms(lower: string)
  {
    Contains(lower, "hurricane") || Contains(lower, "storm") || Contains(lower, "current") || Contains(lower, "active")
  }

  predicate MentionsEvacuation(lower: string)
  {
    Contains(lower, "evacuat")
  }

  predicate MentionsSupplies(lower: string)
  {
    Contains(lower, "supply") || Contains(lower, "kit")
  }

  /** The if/else-if chain of the fallback, on the lower-cased message. */
  function FallbackTopic(message: string): Topic
  {
    var lower := Lower(message);
    if MentionsStorms(lower) then StormInfo
    else if MentionsEvacuation(lower) then Evacuation
    else if MentionsSupplies(lower) then Supplies
    else Help
  }

  const InfoHeader: string := "**Current Hurricane Information:**\n\n"
  const ActiveStormsHeading: string := "Active Storms:\n"
  const SafetyReminder: string :=
    "\n**Safety Reminder:** If you're in the affected area, follow local evacuation orders and stay informed through official channels."
  const NoActiveStorms: string :=
    "Currently, there are no active hurricane systems being tracked. However, it's always good to stay prepared during hurricane season. Would you like tips on hurricane preparedness?"
  const EvacuationReply: string :=
    "**Evacuation Guidelines:**\n\n1. Follow official evacuation orders immediately\n2. Take your emergency kit\n3. Bring important documents\n4. Tell someone where you're going\n5. Use recommended evacuation routes\n6. Don't drive through flooded areas\n7. Turn off utilities if instructed\n8. Lock your home"
  const SuppliesReply: string :=
    "**Emergency Supply Kit Essentials:**\n\n1. Water (1 gallon per person per day)\n2. Non-perishable food (3-day supply)\n3. First aid kit\n4. Flashlight and extra batteries\n5. Battery-powered radio\n6. Medications (7-day supply)\n7. Important documents in waterproof container\n8. Cash\n9. Phone chargers\n10. Basic tools"
  const HelpReply: string :=
    "I can help with:\n\n\U{2022} Current hurricane information\n\U{2022} Hurricane & storm preparedness\n\U{2022} Evacuation procedures\n\U{2022} Emergency supply kits\n\U{2022} Flood safety\n\U{2022} Power outage tips\n\nWhat would you like to know more about?"

  /** The three lines appended for one active storm. */
  function StormBlock(s: Storm): string
  {
    "\U{2022} " + s.name + " - Category " + IntToString(s.category) + "\n"
    + "  Winds: " + s.windSpeed + " | Pressure: " + s.pressure + "\n"
    + "  Movement: " + s.movement + " | Status: " + s.status + "\n\n"
  }

  /** The blocks of the storms, in list order. */
  function StormBlocks(storms: seq<Storm>): string
  {
    Joined(storms, StormBlock)
  }

  function AnalyticsBlock(a: Analytics): string
  {
    "\nLatest Data for " + a.stormName + ":\n"
    + "\U{2022} Category: " + IntToString(a.currentStats.category) + "\n"
    + "\U{2022} Max Winds: " + a.currentStats.maxWindSpeed + "\n"
    + "\U{2022} Min Pressure: " + a.currentStats.minPressure + "\n"
    + "\U{2022} Movement: " + a.currentStats.movement + "\n\n"
  }

  /** The storm list of the answer: the heading and one block per storm, or nothing without storms. */
  function StormList(storms: seq<Storm>): string
  {
    if |storms| > 0 then ActiveStormsHeading + StormBlocks(storms) else ""
  }

  /** The analytics part of the answer, or nothing without analytics. */
  function AnalyticsPart(analytics: Option<Analytics>): string
  {
    if analytics.Some? then AnalyticsBlock(analytics.value) else ""
  }

  /** The storm-branch answer: the header, the list, the analytics and the reminder, or the "none" text. */
  function StormReply(storms: seq<Storm>, analytics: Option<Analytics>): string
  {
    if |storms| > 0 || analytics.Some? then
      InfoHeader + (StormList(storms) + AnalyticsPart(analytics)) + SafetyReminder
    else NoActiveStorms
  }

  /** The answer given for each topic. */
  function TopicReply(topic: Topic, storms: seq<Storm>, analytics: Option<Analytics>): string
  {
    match topic
    case StormInfo => StormReply(storms, analytics)
    case Evacuation => EvacuationReply
    case Supplies => SuppliesReply
    case Help => HelpReply
  }

  function FallbackText(message: string, storms: seq<Storm>, analytics: Option<Analytics>): string
  {
    TopicReply(FallbackTopic(message), storms, analytics)
  }

  /** The storm branch as the handler computes it: appending to `reply` piece by piece, one block per storm. */
  method StormBranchReply(storms: seq<Storm>, analytics: Option<Analytics>) returns (reply: string)
    ensures reply == StormReply(storms, analytics)
  {
    if |storms| > 0 || analytics.Some? {
      reply := InfoHeader;
      if |storms| > 0 {
        reply := reply + ActiveStormsHeading;
        var i := 0;
        while i < |storms|
          invariant 0 <= i <= |storms|
          invariant reply == InfoHeader + ActiveStormsHeading + StormBlocks(storms[..i])
        {
          AppendJoinedStep(InfoHeader + ActiveStormsHeading, storms, StormBlock, i);
          reply := reply + StormBlock(storms[i]);
          i := i + 1;
        }
        assert storms[..i] == storms;
        AppendAssoc(InfoHeader, ActiveStormsHeading, StormBlocks(storms));
      }
      assert reply == InfoHeader + StormList(storms);
      if analytics.Some? {
        reply := reply + AnalyticsBlock(analytics.value);
      }
      AppendAssoc(InfoHeader, StormList(storms), AnalyticsPart(analytics));
      reply := reply + SafetyReminder;
    } else {
      reply := NoActiveStorms;
    }
  }

  /** The fallback as the handler computes it, trying the keyword groups in order. */
  method FallbackReply(message: string, storms: seq<Storm>, analytics: Option<Analytics>) returns (reply: string)
    ensures reply == FallbackText(message, storms, analytics)
  {
    var lowerMessage := Lower(message);
    if MentionsStorms(lowerMessage) {
      reply := StormBranchReply(storms, analytics);
    } else if MentionsEvacuation(lowerMessage) {
      reply := EvacuationReply;
    } else if MentionsSupplies(lowerMessage) {
      reply := SuppliesReply;
    } else {
      reply := HelpReply;
    }
  }

  datatype ChatResponse = Reply(reply: string) | ServerError

  /**
   * The whole route. `aiReply` is Gemini's answer, `None` when the call threw;
   * `message` is `None` when the body has none, which makes `toLowerCase` throw
   * and the route answer 500.
   */
  method HandleChat(cfg: Config, aiReply: Option<string>, message: Option<string>,
                    storms: seq<Storm>, analytics: Option<Analytics>) returns (resp: ChatResponse)
    ensures HasGenAI(cfg) && aiReply.Some? ==> resp == Reply(aiReply.value)
    ensures !(HasGenAI(cfg) && aiReply.Some?) && message.None? ==> resp == ServerError
    ensures !(HasGenAI(cfg) && aiReply.Some?) && message.Some? ==>
      resp == Reply(FallbackText(message.value, storms, analytics))
  {
    if HasGenAI(cfg) && aiReply.Some? {
      return Reply(aiReply.value);
    }
    if message.None? {
      return ServerError;
    }
    var reply := FallbackReply(message.value, storms, analytics);
    resp := Reply(reply);
  }

  /** A keyword typed in capitals, anywhere in the message, is still recognised. */
  lemma {:induction false} UpperCaseKeywordFound(p: string, upper: string, q: string, keyword: string)
    requires Lower(upper) == keyword
    ensures Contains(Lower(p + upper + q), keyword)
  {
    var m := p + upper + q;
    var lm := Lower(m);
    assert lm[|p|..|p| + |upper|] == Lower(upper);
    assert OccursAt(lm, keyword, |p|);
    ContainsIff(lm, keyword);
  }

  /** The fallback ignores case: a message and its lower-cased form get the same answer. */
  lemma FallbackIgnoresCase(message: string, storms: seq<Storm>, analytics: Option<Analytics>)
    ensures FallbackText(Lower(message), storms, analytics) == FallbackText(message, storms, analytics)
  {
    LowerIdempotent(message);
    assert FallbackTopic(Lower(message)) == FallbackTopic(message);
  }

  /** The storm keywords win over the others: "HURRICANE evacuation kit" gets the storm answer. */
  lemma StormKeywordsFirst(p: string, q: string)
    ensures FallbackTopic(p + "HURRICANE" + q) == StormInfo
  {
    UpperCaseKeywordFound(p, "HURRICANE", q, "hurricane");
  }

  /**
   * The topic is the first in priority order whose keywords occur:
   * each answer is given exactly when its keywords occur and no earlier ones do.
   */
  lemma FallbackPriority(message: string)
    ensures var lower := Lower(message);
      && (FallbackTopic(message) == StormInfo <==> MentionsStorms(lower))
      && (FallbackTopic(message) == Evacuation <==> !MentionsStorms(lower) && MentionsEvacuation(lower))
      && (FallbackTopic(message) == Supplies <==>
            !MentionsStorms(lower) && !MentionsEvacuation(lower) && MentionsSupplies(lower))
      && (FallbackTopic(message) == Help <==>
            !MentionsStorms(lower) && !MentionsEvacuation(lower) && !MentionsSupplies(lower))
  {
  }

  /**
   * In the storm branch the information answer is given when there is an
   * active storm or analytics, starting with the header and ending with the
   * safety reminder; otherwise the "no active systems" answer is given.
   */
  lemma StormReplyShape(storms: seq<Storm>, analytics: Option<Analytics>)
    ensures var r := StormReply(storms, analytics);
      && (storms == [] && analytics.None? ==> r == NoActiveStorms)
      && (storms != [] || analytics.Some? ==>
            |r| >= |InfoHeader| + |SafetyReminder|
            && r[..|InfoHeader|] == InfoHeader
            && r[|r| - |SafetyReminder|..] == SafetyReminder)
  {
    if |storms| > 0 || analytics.Some? {
      Framed(InfoHeader, StormList(storms) + AnalyticsPart(analytics), SafetyReminder);
    }
  }

  /** Every active storm's block appears in the storm answer. */
  lemma StormListed(storms: seq<Storm>, analytics: Option<Analytics>, i: nat)
    requires i < |storms|
    ensures Contains(StormReply(storms, analytics), StormBlock(storms[i]))
  {
    var block := StormBlock(storms[i]);
    JoinedContains(storms, StormBlock, i);
    ContainsWithin(ActiveStormsHeading, StormBlocks(storms), AnalyticsPart(analytics), block);
    ContainsWithin(InfoHeader, StormList(storms) + AnalyticsPart(analytics), SafetyReminder, block);
  }
}
