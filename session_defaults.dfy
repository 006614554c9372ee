/**
 * `init_session_state` (t2.py:125-143): the session store is a key/value
 * store, and initialisation writes the default of every key that is still
 * missing, leaving keys already present untouched.
 */
module SessionDefaults {
  import opened Engagement

  /** The values the defaults table holds. */
  datatype Value =
    | NoneValue
    | BoolValue(b: bool)
    | IntValue(n: int)
    | TextValue(s: string)
    | MessageList(items: seq<Message>)
    | Profile(fields: map<string, string>)

  /** The defaults table. */
  const Defaults: map<string, Value> := map[
    "messages" := MessageList([]),
    "user_profile" := Profile(map[]),
    "onboarded" := BoolValue(false),
    "challenge" := NoneValue,
    "api_key" := TextValue(""),
    "conversation_depth" := IntValue(0),
    "last_topic" := NoneValue,
    "engagement_score" := IntValue(0),
    "premium_triggered" := BoolValue(false),
    "daily_question_used" := BoolValue(false),
    "last_question_date" := NoneValue
  ]

  /** The store after initialisation: the defaults, overridden by every entry already present. */
  function FillDefaults(store: map<string, Value>): (filled: map<string, Value>)
    ensures filled.Keys == store.Keys + Defaults.Keys
    ensures forall k :: k in store ==> filled[k] == store[k]
    ensures forall k :: k in Defaults && k !in store ==> filled[k] == Defaults[k]
  {
    Defaults + store
  }

  /** Initialising an empty store writes the default of every key that the chat state holds. */
  lemma FreshStore()
    ensures var initial := FillDefaults(map[]);
      && initial == Defaults
      && initial["messages"] == MessageList([])
      && initial["conversation_depth"] == IntValue(0)
      && initial["engagement_score"] == IntValue(0)
      && initial["premium_triggered"] == BoolValue(false)
      && initial["daily_question_used"] == BoolValue(false)
      && initial["last_question_date"] == NoneValue
      && initial["api_key"] == TextValue("")
  {
  }

  /** Initialising an initialised store changes nothing. */
  lemma FillDefaultsIdempotent(store: map<string, Value>)
    ensures FillDefaults(FillDefaults(store)) == FillDefaults(store)
  {
  }

  /** The session-scoped store that persists across reruns of the page. */
  class SessionStore {
    var state: map<string, Value>

    constructor (initial: map<string, Value>)
      ensures state == initial
    {
      state := initial;
    }

    /** `init_session_state()`: one pass over the defaults, writing each missing key. */
    method InitSessionState()
      modifies this
      ensures state == FillDefaults(old(state))
    {
      var pending := Defaults.Keys;
      while pending != {}
        invariant pending <= Defaults.Keys
        invariant state.Keys == old(state).Keys + (Defaults.Keys - pending)
        invariant forall k :: k in old(state) ==> state[k] == old(state)[k]
        invariant forall k :: k in state && k !in old(state) ==> k in Defaults && state[k] == Defaults[k]
        decreases pending
      {
        var key :| key in pending;
        if key !in state {
          state := state[key := Defaults[key]];
        }
        pending := pending - {key};
      }
      assert state.Keys == FillDefaults(old(state)).Keys;
    }
  }
}
