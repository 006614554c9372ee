# Cosmic Guide chat session, modelled in Dafny

This project models the deterministic session logic of the Cosmic Guide
Streamlit app (`t2.py`), a chat front end to an "astrology business advisor".
Under the page layout and the completion-service calls sits a small state
machine. The model covers five parts of it:

- **Intent classifier** (`detect_intent`). It lower-cases the question. It
  reports every label of the intent table that has one of its keywords as a
  substring, in table order. It counts the urgent words present, capped at 3.
  A question is a business question when some label fires. It is complex when
  it splits into more than 20 words.
- **Engagement score** (`calculate_engagement_score`). It gives 10 points per
  message and 20 per turn of conversation depth. Each user question among the
  last five messages adds 15 when it is a business question and 10 per urgency
  point. The total is capped at 100.
- **Daily free-question latch** (`check_daily_limit`). Without an API key
  there is no limit. With a key, a new day clears the used flag and records
  the day.
- **Turn processor** (`process_user_message`). It appends the question,
  deepens the conversation and rescores it. It then picks a response layer:
  `hook` on the first turn or when the question's urgency is above 1 (two
  or more distinct urgent words), `exploration` before depth 4, the fixed
  `premium_gate` reply after that. It appends the reply. Without a key it
  marks the free question as used.
- **Session defaults and the premium latch**. `init_session_state` writes only
  the missing keys. The premium prompt is shown once, when the score is above
  50 and there are more than six messages.

The modules follow these parts. `Text` holds ASCII lower-casing, Python's
substring test and `str.split()`. `Intents` holds the classifier. `Engagement`
holds the messages and the score. `SessionDefaults` holds the key/value store
and its initialisation. `Chat` holds the `Session` class. The class has the
fields the turn updates in place, and its methods carry `modifies` clauses.

A completion-service call is a `Completion` parameter: `Replied(text)` or
`Failed`. On `Failed` the reply is the generator's fixed fallback sentence.
The current day is an integer parameter, `today`.

Some consequences of the code as written are proved here:

- The daily-limit guard of the chat form never blocks a question. With an
  empty key, `check_daily_limit` returns true at once. With a key, the guard
  does not call it at all, because `and` short-circuits. So the chat path
  never records `last_question_date` (`Chat.Session.SubmitChat`).
- Keywords match as substrings, as in the source. "know" contains the urgent
  word "now", and "separate" fires the pricing label through "rate"
  (`Intents.KeywordsMatchInsideWords`).
- The score bonus counts the user messages among the last five messages. It
  does not count the last five user messages. An assistant reply in the
  window takes a place but adds nothing. Reading the score as "the last five
  user messages" would differ from the code; the model follows the code.

## Model

| member | source | states |
|---|---|---|
| `Text.LowerIdempotent` | t2.py:151 | Lower-casing twice equals lower-casing once, and no upper-case ASCII letter remains. |
| `Text.ContainsIffOccurs` | t2.py:168 | The substring test holds exactly when the keyword occurs at some offset of the text. |
| `Text.Split` | t2.py:179 | Every piece of `split()` is non-empty and free of whitespace. |
| `Text.WordLength` | t2.py:179 | A word piece is the longest whitespace-free prefix: all characters before it are non-space, and it ends at the end of the text or at whitespace. |
| `Text.SplitJoin` | t2.py:179 | Splitting a single-space join of well-formed words gives back those words. |
| `Text.SplitCountByPattern` | t2.py:179 | Two texts with whitespace at the same positions have the same word count. |
| `Text.SplitCountsWordStarts` | t2.py:179 | For every text, `split()` returns exactly as many words as there are word starts: a non-space character at the start or after whitespace. This holds with leading, trailing and repeated whitespace. |
| `Text.SplitCountsWordStartsFrom` | t2.py:179 | Splitting from any position that is not inside a word yields one word per word start from that position on, with the word starts counted position by position. |
| `Text.SplitCountIgnoresCase` | t2.py:151-179 | Lower-casing does not change the word count that decides `complexity`. |
| `Intents.Rank` | t2.py:153-162 | Each label sits at its rank in the table's declaration order. |
| `Intents.IntentOrderInTableOrder` | t2.py:153-162 | The intent table lists each label once, in declaration order. |
| `Intents.Detect` | t2.py:164-169 | A label is in the result exactly when it is in the scanned table and one of its keywords occurs in the text. |
| `Intents.DetectKeepsOrder` | t2.py:167-169 | Scanning a table in declaration order yields labels in declaration order, with no repeats. |
| `Intents.CountPresent` | t2.py:173 | The urgency count never exceeds the number of urgent words. |
| `Intents.CountPresentIsDistinctCount` | t2.py:172-173 | For a word list without repeats, the count equals the number of distinct words present. |
| `Intents.DetectIntent` | t2.py:149-180 | The reported urgency lies in [0, 3]. |
| `Intents.DetectIntentLabels` | t2.py:151-169 | A label is reported exactly when one of its keywords is a substring of the lower-cased text. Labels come in table order without repeats. |
| `Intents.DetectIntentUrgency` | t2.py:172-177 | Urgency equals the number of distinct urgent words present, capped at 3. |
| `Intents.DetectIntentFlags` | t2.py:178-179 | `is_business` holds exactly when some label fires. `complexity` holds exactly when the text splits into more than 20 words. |
| `Intents.KeywordsMatchInsideWords` | t2.py:168-173 | Matching is by substring: "I know" contains the urgent word "now", and "separate" fires the pricing label. |
| `Intents.DetectIntentIgnoresCase` | t2.py:149-180 | A lower-cased question gets the same report as the original. |
| `Engagement.QuestionBonus` | t2.py:301-305 | One user question adds at most 45 points. |
| `Engagement.QuestionBonusMeaning` | t2.py:301-305 | The bonus is 15 when some intent label fires, plus 10 per distinct urgent word up to 3. |
| `Engagement.WindowBonus` | t2.py:300-305 | The window bonus is at most 45 points per message. |
| `Engagement.LastFive` | t2.py:300 | The window holds the last min(n, 5) messages. |
| `Engagement.EngagementScore` | t2.py:293-307 | The score lies in [0, 100], and it is at least min(10·messages + 20·depth, 100). |
| `Engagement.WindowBonusCountsUserMessages` | t2.py:300-305 | The bonus equals the sum over the window's user messages only. Assistant messages add nothing. |
| `Engagement.ScoreIsWeightedSum` | t2.py:293-307 | The score is 10·messages + 20·depth + (sum over the user messages of the last five), when that is at most 100. Otherwise it is 100. |
| `Engagement.OnlyRecentContentCounts` | t2.py:300-307 | Messages older than the last five affect the score only through their number. |
| `SessionDefaults.FillDefaults` | t2.py:127-143 | After initialisation the store has its old keys plus every default key. Existing entries are untouched. Missing keys hold their defaults. |
| `SessionDefaults.FillDefaultsIdempotent` | t2.py:141-143 | Initialising an already initialised store changes nothing. |
| `SessionDefaults.SessionStore.InitSessionState` | t2.py:125-143 | The loop over the defaults leaves the store equal to the old store with its missing default keys filled in. |
| `Chat.SelectLayer` | t2.py:469-485 | The layer is `hook` exactly when the depth is 1 or urgency exceeds 1. Otherwise it is `exploration` exactly when depth < 4, and `premium_gate` else. |
| `Chat.LayerReply` | t2.py:468-485 | The premium gate reply is the fixed text. Other layers reply with the service's text, or with their fixed fallback when the call fails. |
| `Chat.Session.constructor` | t2.py:125-143 | A fresh session holds the defaults: no messages, depth 0, score 0, both latches off, no date, empty key. Each field equals the entry that initialising an empty store writes for its key. |
| `Chat.Session.CheckDailyLimit` | t2.py:281-291 | With an empty key: returns true and changes nothing. With a key: records today; the used flag survives only on the same day; returns whether the question is unused. |
| `Chat.Session.CalculateEngagementScore` | t2.py:293-307 | The loop over the last five messages returns the engagement score of the current messages and depth. |
| `Chat.Session.ProcessUserMessage` | t2.py:452-497 | Messages grow by exactly the question and the reply of the selected layer. Depth grows by 1. The score is that of the conversation including the question. Without a key the free question is marked used. Nothing else changes. |
| `Chat.Session.RenderMessages` | t2.py:417-430 | The prompt is shown exactly when the latch was open, the score exceeds 50, there are more than six messages and one of them is an assistant message. The latch is then set and never cleared. The count of prompts shown in the session grows by one exactly then, and stays at most 1. |
| `Chat.Session.SubmitChat` | t2.py:443-450 | Every non-empty question is processed: the daily-limit guard never blocks. The new messages, depth, score and daily flag are then those of `process_user_message`. The question date is never recorded on this path, and the premium latch is untouched. An empty question changes nothing. |

## Left out

- Page configuration, CSS (t2.py:24-122), all widgets, columns, forms and `st.rerun`: presentation only.
- The HTML rendering of chat bubbles (t2.py:418-424). Only the premium latch inside that loop is modelled.
- The completion-service client and calls (t2.py:182-279): foreign network calls. The prompt text, `json.dumps`, model names, temperatures and token limits are left out. A call becomes a `Completion` parameter. `.strip()` of the reply is assumed done by the service side, so `Replied` carries stripped text.
- The exploration layer's context (the last three message contents, t2.py:478): it only feeds the prompt.
- `date.today()` and `datetime.now()`: wall-clock input. The day is an integer parameter.
- Unicode-aware `str.lower()` and `str.split()`: only ASCII letters are lower-cased, and only ASCII whitespace separates words.
- The onboarding form and the command-center buttons (t2.py:311-412): UI handlers that, among the modelled fields, only append messages. This includes `generate_business_command` and its fallback (t2.py:242-279), and the `'_'` to `' '` replacement in the welcome text.
- `show_premium_prompt` (t2.py:499-515): HTML output, and the file is truncated at its end.
- The `user_profile`, `onboarded`, `challenge` and `last_topic` keys are not fields of `Session`. `challenge`, `user_profile` and `onboarded` are written by the onboarding form (t2.py:316-375). `user_profile` is read only to build prompts (t2.py:401, 471, 477). `last_topic` is never used after its default. The form and the prompts are left out, so in this model these keys appear only among the store defaults.
- Entering the API key: that widget is not in the file. A caller assigns `Session.apiKey`.
- The `submitted` flag of the chat form: `SubmitChat` models a submitted form. An empty `input` is the falsy `user_input`.
- Iteration order of the defaults table: keys are distinct, so `InitSessionState` takes them in any order.
- The unused imports (`hashlib`, `random`, `pytz`, `re`).
