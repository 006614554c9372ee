/**
 * The keyword intent classifier `detect_intent` (t2.py:149-180): a pure
 * function of the question text and two static keyword tables.
 */
module Intents {
  import opened Common
  import opened Text

  /** The labels of the intent table, in the order the table declares them. */
  datatype Intent = LaunchTiming | Pricing | Market | Team | Funding | Growth | Problem | Decision

  /** The declaration order of the intent table; a report lists intents in this order. */
  const IntentOrder: seq<Intent> := [LaunchTiming, Pricing, Market, Team, Funding, Growth, Problem, Decision]

  /** Position of a label in the intent table. */
  function Rank(i: Intent): (r: nat)
    ensures r < |IntentOrder| && IntentOrder[r] == i
  {
    match i
    case LaunchTiming => 0
    case Pricing => 1
    case Market => 2
    case Team => 3
    case Funding => 4
    case Growth => 5
    case Problem => 6
    case Decision => 7
  }

  /** The keywords of each label; any one of them occurring in the text triggers the label. */
  function Keywords(i: Intent): seq<string> {
    match i
    case LaunchTiming => ["when", "launch", "start", "begin", "timing", "muhurat"]
    case Pricing => ["price", "charge", "cost", "rate", "fee", "pricing"]
    case Market => ["market", "niche", "audience", "customer", "segment"]
    case Team => ["hire", "team", "partner", "cofounder", "employee"]
    case Funding => ["investor", "funding", "raise", "capital", "investment"]
    case Growth => ["grow", "scale", "expand", "increase", "boost"]
    case Problem => ["problem", "issue", "challenge", "stuck", "difficult"]
    case Decision => ["should", "decide", "choice", "option", "vs"]
  }

  /** The words that each add one point of urgency. */
  const UrgentWords: seq<string> := ["urgent", "immediately", "now", "today", "tomorrow", "asap", "quickly"]

  /** The label fires on the (lower-cased) text: one of its keywords is a substring of it. */
  predicate Triggered(i: Intent, lowered: string) {
    exists k | k in Keywords(i) :: Contains(lowered, k)
  }

  /** The labels listed in strictly increasing table position: declaration order, no repeats. */
  predicate InTableOrder(s: seq<Intent>) {
    forall a, b :: 0 <= a < b < |s| ==> Rank(s[a]) < Rank(s[b])
  }

  /** The labels of `order` that fire on the text, keeping their relative order. */
  function Detect(order: seq<Intent>, lowered: string): (found: seq<Intent>)
    ensures forall i :: i in found <==> i in order && Triggered(i, lowered)
  {
    if order == [] then []
    else (if Triggered(order[0], lowered) then [order[0]] else []) + Detect(order[1..], lowered)
  }

  /** Filtering a list in table order leaves it in table order. */
  lemma {:induction false} DetectKeepsOrder(order: seq<Intent>, lowered: string)
    requires InTableOrder(order)
    ensures InTableOrder(Detect(order, lowered))
  {
    if order != [] {
      var rest := Detect(order[1..], lowered);
      assert InTableOrder(order[1..]);
      DetectKeepsOrder(order[1..], lowered);
      forall i | i in rest ensures Rank(order[0]) < Rank(i) {
        var b :| 0 <= b < |order[1..]| && order[1..][b] == i;
        assert order[b + 1] == i;
      }
    }
  }

  /** The urgent words present in the text. */
  ghost function PresentWords(words: seq<string>, lowered: string): set<string> {
    set w | w in words && Contains(lowered, w)
  }

  /** `sum(1 for word in words if word in lowered)`. */
  function CountPresent(words: seq<string>, lowered: string): (n: nat)
    ensures n <= |words|
  {
    if words == [] then 0
    else (if Contains(lowered, words[0]) then 1 else 0) + CountPresent(words[1..], lowered)
  }

  /** No word is listed twice. */
  predicate Distinct(words: seq<string>) {
    forall a, b :: 0 <= a < b < |words| ==> words[a] != words[b]
  }

  /** Over a list without repeats, the count is the number of distinct words present. */
  lemma {:induction false} CountPresentIsDistinctCount(words: seq<string>, lowered: string)
    requires Distinct(words)
    ensures CountPresent(words, lowered) == |PresentWords(words, lowered)|
  {
    if words != [] {
      var w, rest := words[0], words[1..];
      assert Distinct(rest);
      CountPresentIsDistinctCount(rest, lowered);
      assert w !in rest;
      var head := if Contains(lowered, w) then {w} else {};
      assert PresentWords(words, lowered) == head + PresentWords(rest, lowered);
      assert head !! PresentWords(rest, lowered);
    }
  }

  /** The result of `detect_intent`. */
  datatype IntentReport = IntentReport(intents: seq<Intent>, urgency: nat, isBusiness: bool, complexity: bool)

  /** `detect_intent(text)`. */
  function DetectIntent(text: string): (r: IntentReport)
    ensures r.urgency <= 3
  {
    var lowered := Lower(text);
    var found := Detect(IntentOrder, lowered);
    IntentReport(found, Min(CountPresent(UrgentWords, lowered), 3), |found| > 0, |Split(text)| > 20)
  }

  /** The table lists each label once, at its rank. */
  lemma IntentOrderInTableOrder()
    ensures InTableOrder(IntentOrder)
  {
    forall k | 0 <= k < |IntentOrder| ensures Rank(IntentOrder[k]) == k {
    }
  }

  lemma EveryIntentListed()
    ensures forall i :: i in IntentOrder
  {
    forall i ensures i in IntentOrder {
      assert IntentOrder[Rank(i)] == i;
    }
  }

  /**
   * A label is reported exactly when one of its keywords occurs in the
   * lower-cased text, and the labels come in table order without repeats.
   */
  lemma DetectIntentLabels(text: string)
    ensures forall i :: i in DetectIntent(text).intents <==> Triggered(i, Lower(text))
    ensures InTableOrder(DetectIntent(text).intents)
  {
    EveryIntentListed();
    IntentOrderInTableOrder();
    DetectKeepsOrder(IntentOrder, Lower(text));
  }

  /** Urgency is the number of distinct urgent words in the text, capped at 3. */
  lemma DetectIntentUrgency(text: string)
    ensures DetectIntent(text).urgency == Min(|PresentWords(UrgentWords, Lower(text))|, 3)
  {
    assert Distinct(UrgentWords);
    CountPresentIsDistinctCount(UrgentWords, Lower(text));
  }

  /**
   * A question is a business question exactly when some label fires, and it is
   * complex exactly when it splits into more than 20 words.
   */
  lemma DetectIntentFlags(text: string)
    ensures DetectIntent(text).isBusiness <==> exists i :: Triggered(i, Lower(text))
    ensures DetectIntent(text).complexity <==> |Split(text)| > 20
  {
    var found := DetectIntent(text).intents;
    EveryIntentListed();
    assert |found| > 0 ==> Triggered(found[0], Lower(text));
  }

  /**
   * Keywords match inside longer words: "know" carries the urgent word "now",
   * and "separate" fires the pricing label through "rate".
   */
  lemma KeywordsMatchInsideWords()
    ensures "now" in PresentWords(UrgentWords, Lower("I know"))
    ensures Triggered(Pricing, Lower("separate"))
  {
    var know, separate := Lower("I know"), Lower("separate");
    assert know == "i know";
    assert OccursAt(know, "now", 3);
    ContainsIffOccurs(know, "now");
    assert separate == "separate";
    assert OccursAt(separate, "rate", 4);
    ContainsIffOccurs(separate, "rate");
  }

  /** Classification ignores case: a lower-cased question gets the same report. */
  lemma DetectIntentIgnoresCase(text: string)
    ensures DetectIntent(Lower(text)) == DetectIntent(text)
  {
    LowerIdempotent(text);
    SplitCountIgnoresCase(text);
  }
}
