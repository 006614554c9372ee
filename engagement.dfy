/**
 * Chat messages and the engagement score of `calculate_engagement_score`
 * (t2.py:293-307): ten points per message, twenty per turn of depth, and a
 * bonus for each user question among the last five messages, capped at 100.
 */
module Engagement {
  import opened Common
  import opened Intents

  datatype Role = User | Assistant

  /** The `layer` tag of an assistant message. */
  datatype Layer = Welcome | Command | Hook | Exploration | PremiumGate

  /** One chat entry; user messages carry no layer. */
  datatype Message = Message(role: Role, content: string, layer: Option<Layer>)

  /** Bonus of one user question: 15 when it is a business question, plus 10 per urgency point. */
  function QuestionBonus(content: string): (b: nat)
    ensures b <= 45
  {
    var intent := DetectIntent(content);
    (if intent.isBusiness then 15 else 0) + intent.urgency * 10
  }

  /** The bonus in terms of the keyword tables: 15 if some label fires, 10 per distinct urgent word up to 3. */
  lemma QuestionBonusMeaning(content: string)
    ensures QuestionBonus(content) ==
      (if exists i :: Triggered(i, Text.Lower(content)) then 15 else 0)
      + 10 * Min(|PresentWords(UrgentWords, Text.Lower(content))|, 3)
  {
    DetectIntentFlags(content);
    DetectIntentUrgency(content);
  }

  /** What one message of the window adds: nothing unless the user wrote it. */
  function MessageBonus(m: Message): nat {
    if m.role == User then QuestionBonus(m.content) else 0
  }

  /** The bonus loop of the score, message by message from the oldest of the window. */
  function WindowBonus(window: seq<Message>): (total: nat)
    ensures total <= 45 * |window|
  {
    if window == [] then 0
    else WindowBonus(window[..|window| - 1]) + MessageBonus(window[|window| - 1])
  }

  /** Extending a window of `ms` by its next message adds that message's bonus. */
  lemma WindowBonusExtend(ms: seq<Message>, start: nat, i: nat)
    requires start <= i < |ms|
    ensures WindowBonus(ms[start..i + 1]) == WindowBonus(ms[start..i]) + MessageBonus(ms[i])
  {
    var w := ms[start..i + 1];
    assert w[..|w| - 1] == ms[start..i];
    assert w[|w| - 1] == ms[i];
  }

  /** `messages[-5:]`. */
  function LastFive(ms: seq<Message>): (w: seq<Message>)
    ensures |w| == Min(|ms|, 5)
    ensures w == ms[|ms| - |w|..]
  {
    if |ms| <= 5 then ms else ms[|ms| - 5..]
  }

  /** The engagement score of a conversation of `ms` at the given depth. */
  function EngagementScore(ms: seq<Message>, depth: nat): (score: nat)
    ensures score <= 100
    ensures score >= Min(10 * |ms| + 20 * depth, 100)
  {
    Min(10 * |ms| + 20 * depth + WindowBonus(LastFive(ms)), 100)
  }

  // --------------------------------------------- reference definition of the bonus

  /** The user messages of a window, in order. */
  function UserMessages(w: seq<Message>): (u: seq<Message>)
    ensures forall k :: 0 <= k < |u| ==> u[k].role == User
    ensures |u| <= |w|
  {
    if w == [] then []
    else (if w[0].role == User then [w[0]] else []) + UserMessages(w[1..])
  }

  /** Sum of the question bonuses of a list of user messages. */
  function QuestionBonusSum(u: seq<Message>): nat {
    if u == [] then 0 else QuestionBonus(u[0].content) + QuestionBonusSum(u[1..])
  }

  lemma {:induction false} UserMessagesAppend(a: seq<Message>, b: seq<Message>)
    ensures UserMessages(a + b) == UserMessages(a) + UserMessages(b)
  {
    if a != [] {
      assert (a + b)[1..] == a[1..] + b;
      UserMessagesAppend(a[1..], b);
    } else {
      assert a + b == b;
    }
  }

  lemma {:induction false} QuestionBonusSumAppend(a: seq<Message>, b: seq<Message>)
    ensures QuestionBonusSum(a + b) == QuestionBonusSum(a) + QuestionBonusSum(b)
  {
    if a != [] {
      assert (a + b)[1..] == a[1..] + b;
      QuestionBonusSumAppend(a[1..], b);
    } else {
      assert a + b == b;
    }
  }

  /** The bonus is the sum over the user messages of the window only: assistant replies add nothing. */
  lemma {:induction false} WindowBonusCountsUserMessages(w: seq<Message>)
    ensures WindowBonus(w) == QuestionBonusSum(UserMessages(w))
  {
    if w != [] {
      var init, last := w[..|w| - 1], w[|w| - 1];
      assert w == init + [last];
      WindowBonusCountsUserMessages(init);
      UserMessagesAppend(init, [last]);
      QuestionBonusSumAppend(UserMessages(init), UserMessages([last]));
    }
  }

  /**
   * The score is the weighted sum 10*|messages| + 20*depth + (bonus of the user
   * questions among the last five messages) whenever that is at most 100, and
   * 100 otherwise.
   */
  lemma ScoreIsWeightedSum(ms: seq<Message>, depth: nat)
    ensures var raw := 10 * |ms| + 20 * depth + QuestionBonusSum(UserMessages(LastFive(ms)));
            EngagementScore(ms, depth) == if raw <= 100 then raw else 100
  {
    WindowBonusCountsUserMessages(LastFive(ms));
  }

  /** Messages older than the last five count only by their number, never by their content. */
  lemma OnlyRecentContentCounts(p: seq<Message>, q: seq<Message>, recent: seq<Message>, depth: nat)
    requires |p| == |q| && |recent| >= 5
    ensures EngagementScore(p + recent, depth) == EngagementScore(q + recent, depth)
  {
    assert LastFive(p + recent) == LastFive(recent) == LastFive(q + recent);
  }
}
