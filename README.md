# Personality scoring and chat window of the voice chat server

This project models the part of `app.py` that holds state: the
`PersonalityManager` and the chat-history window that `/api/chat` and
`/api/reset` maintain.

The `PersonalityManager` keeps five integer counters: kind, funny, cool, angry
and childlike. `update_points` lower-cases the user's message and checks six
fixed keyword lists in a fixed order, by substring containment:

- love keywords set `angry` to `max(0, angry - 3)` and add the increment to
  `childlike`;
- hate, thanks, funny, cool and childlike keywords each add the increment to
  one counter.

Every rule whose list matches fires, and each fired rule appends one line to a
change log. When no rule fires, the log is the single "nothing detected" line.

The current personality is worked out from the counters:

- It is `NEUTRAL` when all five counters are zero.
- Otherwise it is the first maximal counter in the counter map's insertion
  order: KIND, FUNNY, COOL, ANGRY, CHILDLIKE.

`get_personality_data` reports the current personality with its color, its
system prompt and the counters.

`/api/chat` handles a message in this order:

1. It rejects an empty message before changing anything.
2. It updates the counters with an increment of 5.
3. It puts the current prompt into a system entry at index 0. An existing
   system entry is replaced; otherwise one is inserted.
4. It appends the user entry.
5. Only when the language model answers does it append the reply. Then, if
   the history has more than 21 entries, it keeps entry 0 plus the last 20.

`/api/reset` zeroes every counter and empties the history.

Files:

- `keywords.dfy` (module `Keywords`): the six categories and their keyword
  lists, substring containment, ASCII lower-casing, and the classifier
  `Classify`.
- `personality.dfy` (module `Personality`):
  - the counters, the configurations and the tie-breaking maximum `Current`;
  - the rules, written as a specification (`Fire`, `Line`, `Step`, `RunRules`,
    `Apply`, `Update`) together with lemmas about them;
  - the class `PersonalityManager`. Its method `UpdatePoints` changes the
    counters in place, rule after rule, and is proved equal to `Update`. The
    six inline rule blocks of `update_points` become one loop over the
    categories in rule order. Each pass tests the category's keyword list,
    and `ApplyRule` holds the body of a rule that fires.
- `chat.dfy` (module `Chat`):
  - the history as a `seq<Message>`, with the pure operations `Synced`,
    `Truncated` and `Exchange` and lemmas about them;
  - the class `ChatServer`, which owns one `PersonalityManager` and the
    history. Its `Chat` and `Reset` methods keep the invariant `Valid`: the
    counters are non-negative, and the only system entry is at index 0 and
    holds the current prompt.

The language model's answer is a parameter of `Chat`: `Some(reply)` when the
provider answered, `None` when the call raised.

The comment `# 履歴の長さ制限` ("history length limit", `app.py:207`) marks
lines 208-209 as the length cap, but the cap runs only after a successful reply
(`app.py:205-209`). When a call fails, the user entry appended at `app.py:193`
stays, the handler returns the error (`app.py:218-219`) and nothing is cut, so
repeated failures grow the history past 21 entries without bound. The model
follows the code:

- `Chat.ConverseAnswered` proves the bound of 21 when every call succeeds.
- `Chat.ConverseFailing` proves that the length grows by one per failed
  message.

## Model

| member | source | states |
|---|---|---|
| Keywords.Lower | app.py:82 | `user_input.lower()` on ASCII letters: same length, each character mapped by the ASCII lower-case rule |
| Keywords.HitsAmongMembers | app.py:87-126 | a category is collected exactly when it is among the tested ones and one of its keywords occurs in the text |
| Keywords.Classify | app.py:82-126 | the hit categories are exactly those with a keyword occurring in the lower-cased message |
| Keywords.OccursIgnoresCase | app.py:82 | lower-casing the message never changes whether a keyword without ASCII letters occurs in it |
| Keywords.KeywordsCaseFree | app.py:86-125 | no keyword of the six lists contains an ASCII letter |
| Keywords.ClassifyIgnoresCase | app.py:82-126 | classifying the lower-cased message gives the same categories as matching the raw message |
| Personality.SetScore | app.py:248-249 | assigning one counter sets it to the new value and leaves the other four unchanged |
| Personality.Rank | app.py:38-44 | each scored variant has one position in the insertion order KIND, FUNNY, COOL, ANGRY, CHILDLIKE |
| Personality.FirstMax | app.py:144 | the scan of `max(points, key=points.get)` returns a maximal counter that is strictly greater than every counter before it |
| Personality.Current | app.py:139-145 | NEUTRAL iff every counter is 0; otherwise a variant whose counter is at least every other, and strictly above every counter earlier in the order |
| Personality.CurrentIsUnique | app.py:141-144 | the tie-break is deterministic: any non-neutral variant with those two properties is the one returned |
| Personality.RunRulesInOrder | app.py:85-129 | the six rules run once each in the order love, hate, thanks, funny, cool, childlike |
| Personality.ApplyCounters | app.py:85-129 | each counter ends at its old value plus the increment once per hit rule targeting it; love first clamps angry at `max(0, angry - 3)`; love and childlike both add to childlike; untouched counters keep their value |
| Personality.RunRulesLog | app.py:94-129 | running rules appends one log line per hit category, in rule order, and keeps the earlier lines |
| Personality.FiredIffHit | app.py:131 | some rule fires exactly when some category is hit |
| Personality.ApplyLog | app.py:94-132 | the log is exactly the single "nothing detected" line iff no category is hit; otherwise it has one line per hit category, in rule order, and no "nothing detected" line |
| Personality.ApplyLogValues | app.py:88-129 | when some category is hit, the log is exactly the lines of the hit categories in rule order, each carrying its counters' before and after values: love reports angry `a → max(0, a - 3)` and childlike `c → c + delta`; hate reports angry from the value love left; childlike reports from the value love left; the others from the old counters |
| Personality.NoKeywordNoChange | app.py:131-132 | a message without keywords leaves all counters unchanged and logs only the "nothing detected" line |
| Personality.ApplyNonNegative | app.py:91-128 | with a non-negative increment, non-negative counters stay non-negative after an update |
| Personality.ReplayNonNegative | app.py:80-137 | any sequence of updates with non-negative increments and resets keeps every counter non-negative |
| Personality.PersonalityManager.constructor | app.py:37-44 | all five counters start at 0 |
| Personality.PersonalityManager.ApplyRule | app.py:87-129 | the body of one fired rule moves that rule's counters and returns its log line with before and after values |
| Personality.PersonalityManager.UpdatePoints | app.py:80-137 | the in-place rule-by-rule update returns, and leaves in `points`, exactly the counters and log of the specification `Update` |
| Personality.PersonalityManager.CurrentPersonality | app.py:139-145 | returns `Current` of the counters together with that variant's configuration |
| Personality.PersonalityManager.PersonalityData | app.py:147-156 | reports the current variant, its color and its prompt, and the counters |
| Chat.Synced | app.py:186-190 | index 0 holds the current prompt as a system entry; an existing system entry is replaced (same length, other entries kept), otherwise every old entry shifts right by one |
| Chat.Truncated | app.py:208-209 | the length becomes `min(len, 21)`; entry 0 is kept, and the other entries are the old last ones in their order |
| Chat.TruncatedIdempotent | app.py:208-209 | cutting a history that is already cut changes nothing |
| Chat.SyncedIdempotent | app.py:186-190 | syncing twice with the same prompt equals syncing once |
| Chat.SyncedShaped | app.py:186-190 | syncing a history whose only system entry is at index 0 keeps it that way |
| Chat.TruncatedShaped | app.py:208-209 | cutting a history whose only system entry is at index 0 keeps it that way |
| Chat.ExchangeShape | app.py:186-209 | after one message the only system entry is at index 0 and holds the prompt; the history ends with the user entry, followed by the reply when there is one |
| Chat.ExchangeLength | app.py:186-209 | after one message: on failure, the synced length plus one; on success, the synced length plus two, capped at 21 |
| Chat.ConverseAnswered | app.py:186-209 | after n answered messages the length is `min(synced length + 2n, 21)` |
| Chat.ConverseFailing | app.py:193-219 | after n failed messages the length is the synced length plus n, never cut |
| Chat.ChatServer.constructor | app.py:159-160 | a fresh manager with zero counters and an empty history |
| Chat.ChatServer.Chat | app.py:168-219 | an empty message changes nothing; otherwise the counters take `Update` with increment 5, the history becomes `Exchange` with the new personality's prompt, and the answer carries the reply, the personality data and the change log, or the provider error; `Valid` is kept |
| Chat.ChatServer.Reset | app.py:245-255 | every counter is 0, the history is empty, and the reported personality is NEUTRAL |

## Left out

- Flask plumbing is left out: routes, `request.json`, `jsonify`, HTTP status codes and the index page. The empty-message 400 and the provider 500 are the response variants `EmptyMessage` and `ProviderError`.
- The OpenAI call (`app.py:197-204`) is not modelled. Its answer is an `Option<string>` parameter. The model name, token limit and temperature are dropped, and so is the error text of the 500 response.
- `/api/synthesize` (`app.py:221-242`) is not modelled: it is speech synthesis, temporary files and a file download.
- Start-up is not modelled: `load_dotenv`, the API key and `PORT` environment variables, and `app.run`.
- `voice_speed` is not modelled. It is a floating-point field of each configuration and of `get_personality_data`.
- The change-log lines are not formatted text. Each line is a record naming the category and each counter's value before and after.
- Keywords.Lower: only ASCII letters are lower-cased, not Python's full Unicode case mapping. `Keywords.ClassifyIgnoresCase` proves, for this ASCII-only `Lower`, that lower-casing never changes the classification. Full Unicode lower-casing cannot change it either: every keyword is kana or kanji (plus the long-vowel mark), characters that have no case, so no case mapping produces or removes them, and a mapping of other characters cannot create or destroy an occurrence of a keyword.
- The counter map's string keys in the JSON reply are left out. The counters are a record with one field per variant.
- A `message` value that is not a string is left out. Only string messages are modelled.
- The global singletons and concurrent requests are left out. One sequential `ChatServer` owns the manager and the history.
