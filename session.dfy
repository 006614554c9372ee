/**
 * The chat session of t2.py: the fields of the session store that the chat
 * turn reads and writes, and the operations that update them in place.
 */
module Chat {
  import opened Common
  import opened Intents
  import opened Engagement
  import SessionDefaults

  /** Outcome of one call to the completion service: its (stripped) reply, or an exception. */
  datatype Completion = Replied(text: string) | Failed

  /** Reply of the hook generator when the service call raises. */
  const HookFallback: string :=
    "The cosmic patterns suggest examining this from a different angle. Let me analyze further..."

  /** Reply of the exploration generator when the service call raises. */
  const ExplorationFallback: string :=
    "Based on current planetary positions, focusing on systematic progress will yield results."

  /** The fixed reply of the premium gate; no service call is made. */
  const PremiumGateReply: string :=
    "This requires deep analysis. Your chart shows complex patterns that need comprehensive review. Consider our Growth plan for detailed roadmap."

  /** The response layer of a turn, from the new depth and the question's urgency. */
  function SelectLayer(depth: int, urgency: int): (layer: Layer)
    ensures layer == Hook <==> depth == 1 || urgency > 1
    ensures layer == Exploration <==> depth != 1 && urgency <= 1 && depth < 4
    ensures layer == PremiumGate <==> depth != 1 && urgency <= 1 && depth >= 4
  {
    if depth == 1 || urgency > 1 then Hook
    else if depth < 4 then Exploration
    else PremiumGate
  }

  /** The reply text of a layer, given what the completion service did. */
  function LayerReply(layer: Layer, reply: Completion): (text: string)
    requires layer == Hook || layer == Exploration || layer == PremiumGate
    ensures layer == PremiumGate ==> text == PremiumGateReply
    ensures layer != PremiumGate && reply.Replied? ==> text == reply.text
    ensures layer == Hook && reply.Failed? ==> text == HookFallback
    ensures layer == Exploration && reply.Failed? ==> text == ExplorationFallback
  {
    match layer
    case PremiumGate => PremiumGateReply
    case Hook => if reply.Replied? then reply.text else HookFallback
    case Exploration => if reply.Replied? then reply.text else ExplorationFallback
  }

  class Session {
    var messages: seq<Message>
    var conversationDepth: nat
    var engagementScore: nat
    var premiumTriggered: bool
    var dailyQuestionUsed: bool
    /** The day (as a day number) the free question was last counted, if any. */
    var lastQuestionDate: Option<int>
    /** The key the user entered; the empty string when there is none. */
    var apiKey: string
    /** How many times the premium prompt has been rendered in this session. */
    ghost var promptsShown: nat

    /** The score is a percentage, and the prompt has been shown exactly when the latch is set. */
    ghost predicate Valid()
      reads this
    {
      engagementScore <= 100 && promptsShown == (if premiumTriggered then 1 else 0)
    }

    /** The session's fields as entries of the session store (a day number stands for the date). */
    ghost function StoreEntries(): map<string, SessionDefaults.Value>
      reads this
    {
      map[
        "messages" := SessionDefaults.MessageList(messages),
        "conversation_depth" := SessionDefaults.IntValue(conversationDepth),
        "engagement_score" := SessionDefaults.IntValue(engagementScore),
        "premium_triggered" := SessionDefaults.BoolValue(premiumTriggered),
        "daily_question_used" := SessionDefaults.BoolValue(dailyQuestionUsed),
        "last_question_date" := (match lastQuestionDate
                                 case None => SessionDefaults.NoneValue
                                 case Some(day) => SessionDefaults.IntValue(day)),
        "api_key" := SessionDefaults.TextValue(apiKey)
      ]
    }

    /** A fresh session, holding the defaults `init_session_state` writes. */
    constructor ()
      ensures Valid()
      ensures var initialised := SessionDefaults.FillDefaults(map[]);
        forall k :: k in StoreEntries() ==> k in initialised && initialised[k] == StoreEntries()[k]
      ensures messages == [] && conversationDepth == 0 && engagementScore == 0
      ensures !premiumTriggered && !dailyQuestionUsed && lastQuestionDate == None && apiKey == ""
      ensures promptsShown == 0
    {
      messages := [];
      conversationDepth := 0;
      engagementScore := 0;
      premiumTriggered := false;
      dailyQuestionUsed := false;
      lastQuestionDate := None;
      apiKey := "";
      promptsShown := 0;
      SessionDefaults.FreshStore();
    }

    /**
     * `check_daily_limit()` on day `today`: without a key there is no limit;
     * with one, a new day clears the used flag and records the day.
     */
    method CheckDailyLimit(today: int) returns (allowed: bool)
      requires Valid()
      modifies this`dailyQuestionUsed, this`lastQuestionDate
      ensures Valid()
      ensures apiKey == "" ==>
        allowed && dailyQuestionUsed == old(dailyQuestionUsed) && lastQuestionDate == old(lastQuestionDate)
      ensures apiKey != "" ==>
        && lastQuestionDate == Some(today)
        && dailyQuestionUsed == (old(lastQuestionDate) == Some(today) && old(dailyQuestionUsed))
        && allowed == !dailyQuestionUsed
    {
      if apiKey == "" {
        return true;
      }
      if lastQuestionDate != Some(today) {
        dailyQuestionUsed := false;
        lastQuestionDate := Some(today);
      }
      allowed := !dailyQuestionUsed;
    }

    /** `calculate_engagement_score()`, reading the session without changing it. */
    method CalculateEngagementScore() returns (score: nat)
      ensures score == EngagementScore(messages, conversationDepth)
    {
      var ms, depth := messages, conversationDepth;
      score := |ms| * 10 + depth * 20;
      ghost var base := score;
      var start := if |ms| <= 5 then 0 else |ms| - 5;
      var i := start;
      while i < |ms|
        invariant start <= i <= |ms|
        invariant score == base + WindowBonus(ms[start..i])
      {
        var msg := ms[i];
        ghost var before := score;
        if msg.role == User {
          var intent := DetectIntent(msg.content);
          if intent.isBusiness {
            score := score + 15;
          }
          score := score + intent.urgency * 10;
        }
        assert score == before + MessageBonus(msg);
        WindowBonusExtend(ms, start, i);
        i := i + 1;
      }
      assert ms[start..i] == LastFive(ms);
      score := Min(score, 100);
    }

    /**
     * `process_user_message(input)`: record the question, deepen the
     * conversation, rescore it, answer in the selected layer and, without a
     * key, spend the free question. `reply` is what the completion service
     * returned for the generator the layer calls.
     */
    method ProcessUserMessage(input: string, reply: Completion)
      requires Valid()
      modifies this
      ensures Valid()
      ensures var layer := SelectLayer(old(conversationDepth) + 1, DetectIntent(input).urgency);
        messages == old(messages) + [Message(User, input, None), Message(Assistant, LayerReply(layer, reply), Some(layer))]
      ensures conversationDepth == old(conversationDepth) + 1
      ensures engagementScore == EngagementScore(old(messages) + [Message(User, input, None)], conversationDepth)
      ensures dailyQuestionUsed == (old(dailyQuestionUsed) || apiKey == "")
      ensures apiKey == old(apiKey) && premiumTriggered == old(premiumTriggered)
      ensures lastQuestionDate == old(lastQuestionDate) && promptsShown == old(promptsShown)
    {
      messages := messages + [Message(User, input, None)];
      var intent := DetectIntent(input);
      conversationDepth := conversationDepth + 1;
      engagementScore := CalculateEngagementScore();
      var layer := SelectLayer(conversationDepth, intent.urgency);
      var response := LayerReply(layer, reply);
      messages := messages + [Message(Assistant, response, Some(layer))];
      if apiKey == "" {
        dailyQuestionUsed := true;
      }
    }

    /**
     * The message loop of `show_chat_interface()`: at the first assistant
     * message, when the score is above 50, there are more than six messages
     * and the latch is still open, the premium prompt is shown and the latch closes.
     */
    method RenderMessages() returns (promptShown: bool)
      requires Valid()
      modifies this`premiumTriggered, this`promptsShown
      ensures Valid()
      ensures promptShown <==>
        && !old(premiumTriggered) && engagementScore > 50 && |messages| > 6
        && exists k :: 0 <= k < |messages| && messages[k].role != User
      ensures premiumTriggered == (old(premiumTriggered) || promptShown)
      ensures promptsShown == old(promptsShown) + (if promptShown then 1 else 0) && promptsShown <= 1
    {
      promptShown := false;
      for i := 0 to |messages|
        invariant Valid()
        invariant premiumTriggered == (old(premiumTriggered) || promptShown)
        invariant promptsShown == old(promptsShown) + (if promptShown then 1 else 0)
        invariant promptShown <==>
          && !old(premiumTriggered) && engagementScore > 50 && |messages| > 6
          && exists k :: 0 <= k < i && messages[k].role != User
      {
        if messages[i].role != User {
          if engagementScore > 50 && !premiumTriggered {
            if |messages| > 6 {
              promptsShown := promptsShown + 1;
              premiumTriggered := true;
              promptShown := true;
            }
          }
        }
      }
    }

    /**
     * Submitting the chat form with `input` on day `today`. The daily-limit
     * guard asks `check_daily_limit` only when there is no key, and then it
     * always answers yes, so every non-empty question is processed and the
     * day is never recorded on this path.
     */
    method SubmitChat(input: string, today: int, reply: Completion) returns (processed: bool)
      requires Valid()
      modifies this
      ensures Valid()
      ensures processed <==> input != ""
      ensures lastQuestionDate == old(lastQuestionDate)
      ensures premiumTriggered == old(premiumTriggered)
      ensures !processed ==> unchanged(this)
      ensures processed ==>
        var question := Message(User, input, None);
        var layer := SelectLayer(old(conversationDepth) + 1, DetectIntent(input).urgency);
        && messages == old(messages) + [question, Message(Assistant, LayerReply(layer, reply), Some(layer))]
        && conversationDepth == old(conversationDepth) + 1
        && engagementScore == EngagementScore(old(messages) + [question], conversationDepth)
        && dailyQuestionUsed == (old(dailyQuestionUsed) || apiKey == "")
        && apiKey == old(apiKey) && promptsShown == old(promptsShown)
    {
      if input == "" {
        return false;
      }
      if apiKey == "" {
        var allowed := CheckDailyLimit(today);
        if !allowed {
          assert false;
        }
      }
      ProcessUserMessage(input, reply);
      processed := true;
    }
  }
}
