# Chat reply service: a Dafny model

This project models the reply generator of the chat application,
`server/ai_service.py`. When a user posts a message in a room, the
service produces a reply and the name it is sent under. It asks a remote
language model (the Gemini API) for the reply when an API key is
configured. Otherwise, or whenever the call fails or answers in an
unexpected shape, it uses a rule-based fallback responder. The module also
has a connection test that reports whether the remote model answers in the
expected shape.

The model has five modules:

- `Text` (`text.dfy`) defines the string primitives the service relies on:
  - Python's `str.strip()`, with the full `str.isspace()` character set;
  - `str.lower()`, restricted to ASCII letters;
  - the `in` operator on strings, both as a character-by-character scan
    and as a declarative "occurs at position p" predicate, shown equivalent;
  - the code-point sum `sum(ord(c) for c in s)`.
- `FallbackResponder` (`fallback.dfy`) is `get_fallback_response`:
  - The `if` chain becomes an explicit ordered table `RULES` of 46 rules,
    in ten groups that follow the source's comments.
  - Each rule is an exact-match test or a keyword test with a reply.
  - A first-match evaluator runs the table against the lower-cased,
    stripped text.
  - When no rule matches, the code-point sum of the original message,
    modulo 30, indexes the default pool.
  - The draw of `random.choice` over the jokes is an injected number
    `jokePick`.
- `FallbackFacts` (`fallback_facts.dfy`) holds the lemmas about the rule
  order:
  - exact matches;
  - which keyword is caught by which earlier rule;
  - rules that can never fire;
  - how the default reply is chosen;
  - totality.
- `AiService` (`ai_service.dfy`) covers `generate_ai_response`,
  `test_gemini_connection` and `CHAT_ROOM_NAMES`:
  - The decoded JSON body is a `Json` datatype.
  - The remote call is a function parameter from the `Request` sent to an
    `Outcome`: timeout, request error, other error, or a status with a
    body that may not be JSON.
  - The configured key is an `Option<string>`.
  - The draw of a sender name is an injected number `roomPick`.
  - The shape check is evaluated as Python evaluates it, short-circuit and
    exceptions included.
- `AiServiceFacts` (`ai_service_facts.dfy`) holds the lemmas about the
  sender, the key check, the fallback policy and the connection test.

## Model

| member | source | states |
|---|---|---|
| Text.LeadingSpaces | server/ai_service.py:88 | the count of leading characters is within the text, all of them are whitespace, and the next one is not |
| Text.TrailingSpaces | server/ai_service.py:88 | the same for the trailing characters |
| Text.Strip | server/ai_service.py:88 | `strip()` returns a slice of the text with only whitespace cut from either end; a non-empty result starts and ends with non-whitespace; the result is empty exactly when the text is all whitespace |
| Text.StripBounds | server/ai_service.py:88 | the leading and trailing whitespace runs do not overlap, and they meet exactly when the text is all whitespace |
| Text.LowerChar | server/ai_service.py:88 | a lowered character is never a capital, and a character that is not a capital is unchanged |
| Text.LowerCharAlphabet | server/ai_service.py:88 | the capitals are exactly the 26 letters A to Z, and each is lowered to the small letter at the same place of the alphabet |
| Text.Lower | server/ai_service.py:88 | `lower()` keeps the length and lowers each character in place |
| Text.LowerOfNoUpper | server/ai_service.py:88 | lower-casing a text without capitals changes nothing |
| Text.LowerHasNoUpper | server/ai_service.py:88 | a lower-cased text has no capitals |
| Text.StripOfTrimmed | server/ai_service.py:62 | stripping a text whose ends are not whitespace changes nothing |
| Text.Normalize | server/ai_service.py:88 | the normalized text has no capitals, and a non-empty one starts and ends with non-whitespace |
| Text.NormalizeIdempotent | server/ai_service.py:88 | normalizing (`lower().strip()`) an already normalized text changes nothing |
| Text.MatchesAtIff | server/ai_service.py:93 | the character scan at a position agrees with slice equality there |
| Text.ContainsFromIff | server/ai_service.py:93 | the scan from a position finds the word exactly when it occurs at that position or later |
| Text.Contains | server/ai_service.py:93 | a word longer than the text is never in it |
| Text.ContainsIff | server/ai_service.py:93 | `word in text` holds exactly when the word occurs at some position of the text |
| Text.ContainsTransitive | server/ai_service.py:129-132 | a text containing a word contains every word inside that word |
| Text.CodePointSum | server/ai_service.py:245 | the sum of the empty message is 0, and the sum of a one-character message is that character's code point |
| Text.CodePointSumAppend | server/ai_service.py:245 | the sum of a concatenation is the sum of its parts; with the two facts above this fixes the sum uniquely |
| Text.SumFromIsCodePointSum | server/ai_service.py:245 | a front-to-back running total, started at `acc` at position i, ends at `acc` plus the sum of the rest |
| Text.CodePointSumIsPythonSum | server/ai_service.py:245 | the sum equals Python's `sum(ord(char) for char in user_message)`, evaluated from the front with a running total that starts at 0 |
| FallbackResponder.AnyContainedFromIff | server/ai_service.py:109 | `any(word in text for word in words)` holds exactly when some listed word is in the text |
| FallbackResponder.AnyOfMatches | server/ai_service.py:109 | a keyword rule matches exactly when one of its keywords is in the text |
| FallbackResponder.FirstMatchFromSpec | server/ai_service.py:90-207 | the evaluator returns the first matching rule: that rule matches and none before it does; it returns nothing only when no rule matches |
| FallbackResponder.FirstMatch | server/ai_service.py:90-207 | the evaluator returns the first matching rule: its test holds and no earlier rule's does; it returns nothing only when no rule matches |
| FallbackResponder.FirstMatchAppend | server/ai_service.py:90-207 | a table made of two parts is decided by the first part when a rule there matches, and otherwise by the second part, at positions shifted by the first part's length |
| FallbackResponder.Fired | server/ai_service.py:90-207 | a fired rule is a rule of the table whose test holds for the text |
| FallbackResponder.Answer | server/ai_service.py:165-173 | a fixed reply answers with its own text; the joke reply answers with a non-empty member of the joke list |
| FallbackResponder.RuleTextsNonEmpty | server/ai_service.py:90-207 | every fixed reply of the chain is a non-empty text |
| FallbackResponder.JokesNonEmpty | server/ai_service.py:166-172 | every joke is a non-empty text |
| FallbackResponder.PoolNonEmpty | server/ai_service.py:210-241 | every entry of the default pool is a non-empty text |
| FallbackResponder.PoolIndex | server/ai_service.py:245 | the default-pool index is always a valid position in the pool |
| FallbackResponder.GetFallbackResponse | server/ai_service.py:80-249 | every message, whatever the draw, gets a non-empty reply |
| FallbackFacts.Positions | server/ai_service.py:90-207 | the table has 46 rules, and the rules the lemmas talk about sit at their places in the chain |
| FallbackFacts.FirstMatchIs | server/ai_service.py:90-207 | a position whose rule matches, with no matching rule before it, is the one the evaluator returns |
| FallbackFacts.MissAll | server/ai_service.py:90-207 | a table none of whose rules matches fires nothing |
| FallbackFacts.HitAt | server/ai_service.py:90-207 | a matching rule with no matching rule before it fires |
| FallbackFacts.NoRuleFires | server/ai_service.py:90-207 | the whole chain fires nothing when none of its ten groups does |
| FallbackFacts.EarlyGroupsDecide | server/ai_service.py:90-152 | a match in the greetings, emotions, time-and-place or personal groups decides the reply, and later groups are never consulted |
| FallbackFacts.CaughtNoLaterThan | server/ai_service.py:90-207 | a text containing the keyword of the rule at position k fires some rule at position k or earlier |
| FallbackFacts.ReplyWhenFired | server/ai_service.py:90-207 | the fired rule decides the reply: its fixed text, or the drawn joke |
| FallbackFacts.PoolSize | server/ai_service.py:210-241 | the default pool has 30 replies |
| FallbackFacts.DefaultWhenNoneFires | server/ai_service.py:245-249 | with no rule fired, the reply is the pool entry at the message's index |
| FallbackFacts.SayUnlessJoke | server/ai_service.py:165-173 | every rule except the joke rule has one fixed reply |
| FallbackFacts.FiredMatches | server/ai_service.py:90-207 | a fired rule is a rule of the table whose test holds; nothing fires exactly when no rule's test holds |
| FallbackFacts.ExactGreeting | server/ai_service.py:88-92 | the greeting rule fires exactly when the normalized text is one of hi, hello, hey, hiya or yo, and then gives "Hi there! How's your day going?" |
| FallbackFacts.SupFires | server/ai_service.py:101-102 | the normalized text "sup" is answered by the `text == 'sup'` rule |
| FallbackFacts.ExactSup | server/ai_service.py:101-102 | the `sup` rule fires exactly when the normalized text is "sup", and then gives "Sup! How's it going?" |
| FallbackFacts.GoodNightBeforeNight | server/ai_service.py:93-181 | a text containing "good night" is answered by the good-night rule (or the good-morning rule before it), never by the `'night'` rule of line 180 |
| FallbackFacts.GoodNightReply | server/ai_service.py:95-96 | a message containing "good night" but not "good morning" gets "Good night! Sweet dreams 😴" |
| FallbackFacts.DayOfTheWeekNeverFires | server/ai_service.py:129-132 | the "day of the week" rule never fires, because the `'day'` keyword before it catches every such text |
| FallbackFacts.WhoMadeYouNeverFires | server/ai_service.py:117-144 | the "who made you" rule never fires, because "made" contains the `'mad'` keyword of line 117 |
| FallbackFacts.GoodbyeCaughtByGood | server/ai_service.py:111-177 | a text containing "goodbye" fires a rule no later than the `'good'` rule, so never the goodbye rule |
| FallbackFacts.ColdCaughtByOld | server/ai_service.py:141-160 | a text containing "cold" fires a rule no later than the `'old'` rule, so never the cold rule |
| FallbackFacts.EncourageCaughtByAge | server/ai_service.py:141-193 | a text containing "encourage" fires a rule no later than the `'age'` rule, so never the motivation rule |
| FallbackFacts.GoodbyeInGroups | server/ai_service.py:90-112 | for "goodbye" no greeting rule fires and the third emotion rule does |
| FallbackFacts.GoodbyeReply | server/ai_service.py:111-112 | the message "goodbye" gets "Yay! That's awesome 😃", not the goodbye reply |
| FallbackFacts.ColdInLaterGroups | server/ai_service.py:126-142 | for "cold" no time rule fires and the `age`/`old` rule does |
| FallbackFacts.ColdReply | server/ai_service.py:141-142 | the message "cold" gets "I'm timeless 😎", not the cold reply |
| FallbackFacts.NothingFiresForEmpty | server/ai_service.py:90-207 | no rule fires for the empty text |
| FallbackFacts.NothingFiresForAbc | server/ai_service.py:90-207 | no rule fires for "abc" |
| FallbackFacts.PoolIndexExamples | server/ai_service.py:245 | "" sums to 0 and gets index 0; "abc" sums to 294 and gets index 24; " abc" sums to 326 and gets index 26 |
| FallbackFacts.PoolExamples | server/ai_service.py:210-241 | entries 0, 24 and 26 of the pool |
| FallbackFacts.LeadingSpaceStripped | server/ai_service.py:88 | " abc" normalizes to "abc" |
| FallbackFacts.EmptyMessage | server/ai_service.py:245-249 | the empty message gets "Interesting… tell me more!" |
| FallbackFacts.AbcReply | server/ai_service.py:245-249 | "abc" gets "Fascinating! Tell me more." |
| FallbackFacts.SpaceAbcReply | server/ai_service.py:245-249 | " abc" gets "Oh! That's unexpected 😮" |
| FallbackFacts.PoolUsesRawMessage | server/ai_service.py:245 | " abc" and "abc" normalize alike but get different default replies, because the index uses the original message |
| FallbackFacts.CodePointSumPermutation | server/ai_service.py:245 | messages with the same characters in any order have the same sum |
| FallbackFacts.DefaultReplyIgnoresOrder | server/ai_service.py:245-249 | when no rule fires for either message, anagrams get the same default reply |
| FallbackFacts.DeterministicUnlessJoke | server/ai_service.py:80-249 | unless the joke rule fires, the reply does not depend on the random draw |
| FallbackFacts.RuleReplyKnown | server/ai_service.py:90-207 | a fired rule other than the joke rule answers with its own fixed text |
| FallbackFacts.JokeReplyKnown | server/ai_service.py:165-173 | the joke rule answers with one of the five jokes |
| FallbackFacts.ReplyIsKnown | server/ai_service.py:80-249 | every message gets a reply, and the reply is a rule's fixed text, a joke, or a default-pool entry |
| FallbackFacts.JokeFires | server/ai_service.py:165 | a text with joke, funny, haha or lol fires the joke rule when no earlier rule fires |
| FallbackFacts.JokeRequest | server/ai_service.py:165-173 | such a message gets a member of the joke list, and draw i gives joke i mod 5 |
| AiService.ResolveSender | server/ai_service.py:23 | the sender is the room name when it is non-empty, and otherwise a member of `CHAT_ROOM_NAMES` |
| AiService.Prompt | server/ai_service.py:36 | the prompt starts with "You are ", then the sender's name, and ends with the message in double quotes |
| AiService.CheckShape | server/ai_service.py:54-58 | Python's short-circuit shape check passes exactly for the declaratively described shape, and yields `data['candidates'][0]['content']['parts']` |
| AiService.ReplyText | server/ai_service.py:60-62 | a reply taken from the answer starts and ends with non-whitespace |
| AiService.RemoteReply | server/ai_service.py:50-66 | the remote text is used exactly when the status is 200, the body is JSON, the shape check passes and `parts[0]['text']` is a string |
| AiService.GenerateAiResponse | server/ai_service.py:16-78 | the second component is the resolved sender |
| AiService.KeyUsable | server/ai_service.py:28 | a key is usable exactly when it is present, is not the placeholder, and has a non-whitespace character |
| AiServiceFacts.SenderIsRoomOrChatName | server/ai_service.py:23 | the reply is sent under the room name when it is non-empty, and otherwise under a name from `CHAT_ROOM_NAMES` |
| AiServiceFacts.SenderOnEveryPath | server/ai_service.py:23-78 | the sender is the same whatever the message, key, remote outcome or joke draw |
| AiServiceFacts.UnusableKeyFallsBack | server/ai_service.py:28-30 | without a usable key the reply is the fallback reply, whatever the remote would answer |
| AiServiceFacts.UnusableKeyReplyNonEmpty | server/ai_service.py:28-30 | without a usable key every message gets a non-empty reply |
| AiServiceFacts.WellShapedPassesTests | server/ai_service.py:54-58 | a body of the declared shape passes each test of the condition in turn: `candidates` truthy with a first element, `content` truthy, `parts` truthy with a length |
| AiServiceFacts.FailureFallsBack | server/ai_service.py:63-78 | a timeout, a request error, any other error, a status other than 200, a non-JSON body or a malformed body gives no remote text |
| AiServiceFacts.UsableKeyReply | server/ai_service.py:50-78 | with a usable key the reply is the remote text when there is one, and the fallback reply otherwise |
| AiServiceFacts.RemoteTextUsed | server/ai_service.py:60-62 | a status-200 answer with a string under `parts[0]['text']` is answered with that string stripped |
| AiServiceFacts.TextOfAnswer | server/ai_service.py:54-62 | such an answer yields exactly the stripped string |
| AiServiceFacts.RemoteReplyTrimmed | server/ai_service.py:62 | stripping the remote text again changes nothing |
| AiServiceFacts.ReplyCases | server/ai_service.py:16-78 | every reply is the fallback reply or a text with nothing left to strip |
| AiServiceFacts.PromptNamesSender | server/ai_service.py:36 | the prompt contains the sender's name and the message |
| AiService.TestGeminiConnection | server/ai_service.py:251-297 | the connection test succeeds exactly when the key is usable, the status is 200, the body is JSON and the shape check passes |
| AiServiceFacts.BlankAnswer | server/ai_service.py:60-62 | an answer whose `parts[0]['text']` is a single space carries the remote text "" |
| AiServiceFacts.BlankRemoteTextGivesEmptyReply | server/ai_service.py:60-62 | with a usable key the reply can be empty: an all-whitespace remote text is used, stripped to "", instead of the fallback reply |
| AiServiceFacts.StringPartsShape | server/ai_service.py:280-284 | a body whose `parts` is a non-empty string passes the shape check but yields no reply text |
| AiServiceFacts.TestPassesWhileReplyFallsBack | server/ai_service.py:280-287 | for such a body the connection test succeeds while every reply falls back |

## Left out

- The HTTP call (`requests.post`), the URL's query string as sent on the wire and the headers: the remote is a parameter. It receives a `Request` with the URL, the prompt and the timeout, and returns an `Outcome`. The payload nesting around the prompt (`contents[0].parts[0].text`) is not modelled.
- The timeouts themselves (10 s and 5 s) are fields of the request. How long a call takes is not modelled, only that it may end in `Timeout`.
- Reading `GEMINI_API_KEY` from the environment at import time: the key is a parameter, `None` when unset.
- `random.choice`: each draw is an injected number reduced modulo the list's length. The model does not capture that draws are uniform or independent.
- The `print` logging on every path: it has no effect on the results.
- Text.Lower: only ASCII letters are lower-cased. Python's `lower()` also maps other cased letters (and can change a string's length), so messages with non-ASCII capitals may normalize differently.
- JSON numbers are integers. A float in the body (for example `0.0` under `candidates`) would only change which branch of the shape check fails, not whether it passes.
- The regular expression `^(hi|hello|hey|hiya|yo)$` at line 91 is modelled as equality with one of the five words. This is exact for the stripped text: `$` could also match before a final newline, but stripping has removed any newline.
- The emoji and other non-ASCII characters inside replies are kept as they are. They are opaque constants.
- The rest of the application (Flask routes, the SQLite store, authentication, start-up) is not part of this model.
