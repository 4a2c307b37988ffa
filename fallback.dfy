/** The fallback responder: `get_fallback_response` in server/ai_service.py.
    The chain of `if` tests is an explicit ordered table of rules, evaluated
    top to bottom against the normalized text; the first rule that matches
    decides the reply. When none matches, the code-point sum of the ORIGINAL
    message selects an entry of a fixed pool. */
module FallbackResponder {
  import opened Text

  datatype Option<T> = None | Some(value: T)

  /** What a rule tests of the normalized text. */
  datatype Test =
    | Exactly(words: seq<string>)  // the text is one of the words
    | AnyOf(words: seq<string>)    // some word is a substring of the text

  /** What a rule answers. */
  datatype Reply =
    | Say(text: string)  // one fixed reply
    | TellJoke           // a random member of JOKES

  datatype Rule = Rule(test: Test, reply: Reply)

  /** Python's `any(word in text for word in words[i..])`. */
  predicate AnyContainedFrom(text: string, words: seq<string>, i: nat)
    decreases |words| - i
  {
    i < |words| && (Contains(text, words[i]) || AnyContainedFrom(text, words, i + 1))
  }

  lemma {:induction false} AnyContainedFromIff(text: string, words: seq<string>, i: nat)
    ensures AnyContainedFrom(text, words, i) <==> exists k :: i <= k < |words| && Contains(text, words[k])
    decreases |words| - i
  {
    if i < |words| {
      AnyContainedFromIff(text, words, i + 1);
    }
  }

  predicate Matches(t: Test, text: string) {
    match t
    case Exactly(words) => text in words
    case AnyOf(words) => AnyContainedFrom(text, words, 0)
  }

  /** A rule with keywords fires exactly when one of its keywords is a
      substring of the text. */
  lemma AnyOfMatches(words: seq<string>, text: string)
    ensures Matches(AnyOf(words), text) <==> exists k :: 0 <= k < |words| && Contains(text, words[k])
  {
    AnyContainedFromIff(text, words, 0);
  }

  // One constant per `if` of the chain, named after its first keyword.
  // lines 91-92
  const HI := Rule(Exactly(["hi", "hello", "hey", "hiya", "yo"]),
    Say("Hi there! How's your day going?"))
  // lines 93-94
  const GOOD_MORNING := Rule(AnyOf(["good morning"]),
    Say("Good morning! Did you sleep well?"))
  // lines 95-96
  const GOOD_NIGHT := Rule(AnyOf(["good night"]), Say("Good night! Sweet dreams 😴"))
  // lines 97-98
  const HEY_THERE := Rule(AnyOf(["hey there"]), Say("Hey! Nice to see you."))
  // lines 99-100
  const WHATS_UP := Rule(AnyOf(["what's up"]),
    Say("Not much, just chatting with you! How about you?"))
  // lines 101-102
  const SUP := Rule(Exactly(["sup"]), Say("Sup! How's it going?"))
  // lines 103-104
  const HOWDY := Rule(AnyOf(["howdy"]), Say("Howdy! How are you today?"))
  // lines 107-108
  const HOW_ARE_YOU := Rule(AnyOf(["how are you"]), Say("I'm good, thanks! How about you?"))
  // lines 109-110
  const SAD := Rule(AnyOf(["sad", "upset", "depressed"]),
    Say("Oh no! Want to talk about it?"))
  // lines 111-112
  const HAPPY := Rule(AnyOf(["happy", "excited", "good"]), Say("Yay! That's awesome 😃"))
  // lines 113-114
  const BORED := Rule(AnyOf(["bored", "nothing to do"]),
    Say("Same here… Want to play a game or chat?"))
  // lines 115-116
  const TIRED := Rule(AnyOf(["tired", "sleepy", "exhausted"]),
    Say("You should rest! I can keep the chat going while you nap 😴"))
  // lines 117-118
  const ANGRY := Rule(AnyOf(["angry", "mad", "frustrated"]),
    Say("Take a deep breath… want to vent a little?"))
  // lines 119-120
  const LONELY := Rule(AnyOf(["lonely", "alone"]), Say("I'm here for you! Let's chat."))
  // lines 121-122
  const STRESS := Rule(AnyOf(["stress", "stressed"]),
    Say("Try taking a break or a deep breath. Want to talk about it?"))
  // lines 123-124
  const SCARED := Rule(AnyOf(["scared", "afraid"]),
    Say("It's okay to feel scared. I'm here with you."))
  // lines 127-128
  const TIME := Rule(AnyOf(["time"]), Say("I don't know… you tell me ⏰"))
  // lines 129-130
  const DATE := Rule(AnyOf(["date", "day"]), Say("Hmm… probably today? Time flies, right?"))
  // lines 131-132
  const DAY_OF_THE_WEEK := Rule(AnyOf(["day of the week"]),
    Say("Isn't every day amazing? But maybe Tuesday? 😉"))
  // lines 133-134
  const WHERE_ARE_YOU := Rule(AnyOf(["where are you"]),
    Say("I'm everywhere and nowhere at the same time 🤖"))
  // lines 135-136
  const LOCATION := Rule(AnyOf(["location"]), Say("Somewhere in the cloud ☁️"))
  // lines 139-140
  const YOUR_NAME := Rule(AnyOf(["your name"]),
    Say("I'm your friendly chat buddy! You can call me ChatBot."))
  // lines 141-142
  const AGE := Rule(AnyOf(["age", "old"]), Say("I'm timeless 😎"))
  // lines 143-144
  const WHO_MADE_YOU := Rule(AnyOf(["who made you"]),
    Say("Some brilliant programmer, probably with too much coffee ☕"))
  // lines 145-146
  const LIKE_ME := Rule(AnyOf(["do you like me"]),
    Say("Of course! You're fun to chat with 😄"))
  // lines 147-148
  const LOVE_YOU := Rule(AnyOf(["love you"]), Say("Aww, love you too 💖"))
  // lines 149-150
  const MARRIED := Rule(AnyOf(["married", "partner"]), Say("I'm single… chat problems 😅"))
  // lines 151-152
  const FRIENDS := Rule(AnyOf(["friends"]),
    Say("You're my friend! And I love chatting with you."))
  // lines 155-156
  const WEATHER := Rule(AnyOf(["weather", "temperature"]),
    Say("Hmm… looks sunny in your imagination ☀️"))
  // lines 157-158
  const RAIN := Rule(AnyOf(["rain"]),
    Say("Better bring an umbrella… or just imagine it raining ☔"))
  // lines 159-160
  const COLD := Rule(AnyOf(["cold", "hot"]), Say("Temperature is relative, right?"))
  // lines 161-162
  const STORM := Rule(AnyOf(["storm", "wind"]),
    Say("Sounds like a good day for staying inside ☕"))
  // lines 165-173
  const JOKE := Rule(AnyOf(["joke", "funny", "haha", "lol"]), TellJoke)
  // lines 176-177
  const BYE := Rule(AnyOf(["bye", "goodbye"]), Say("Bye! Talk to you later!"))
  // lines 178-179
  const SEE_YOU := Rule(AnyOf(["see you", "later"]),
    Say("See you soon! Don't forget to smile 😁"))
  // lines 180-181
  const NIGHT := Rule(AnyOf(["night"]), Say("Good night! Sleep well 🌙"))
  // lines 184-185
  const THANKS := Rule(AnyOf(["thanks", "thank you", "thx"]), Say("You're welcome! 😊"))
  // lines 186-187
  const GREAT := Rule(AnyOf(["great", "awesome", "amazing"]),
    Say("Thanks! You're pretty awesome too!"))
  // lines 190-191
  const ADVICE := Rule(AnyOf(["advice", "help", "tips"]),
    Say("I'd say… always try your best and don't stress too much!"))
  // lines 192-193
  const MOTIVATE := Rule(AnyOf(["motivate", "encourage", "confidence"]),
    Say("You got this! Keep going and believe in yourself 💪"))
  // lines 194-195
  const STUDY := Rule(AnyOf(["study", "work", "exam"]),
    Say("Breaks are important too. Balance is key!"))
  // lines 198-199
  const FAVORITE_COLOR := Rule(AnyOf(["favorite color"]),
    Say("I like the color of code… green? 😎"))
  // lines 200-201
  const FAVORITE_FOOD := Rule(AnyOf(["favorite food"]),
    Say("I love… data bytes! Just kidding 😆"))
  // lines 202-203
  const MOVIE := Rule(AnyOf(["favorite movie", "movie"]),
    Say("Anything with robots is cool 🤖"))
  // lines 204-205
  const MUSIC := Rule(AnyOf(["music", "song"]), Say("I enjoy… the sound of typing 🎵"))
  // lines 206-207
  const SPORTS := Rule(AnyOf(["sports", "game"]),
    Say("I'm more of a spectator in the cloud 😄"))

  // The chain in the groups its comments name (lines 90, 106, 126, 138,
  // 154, 164, 175, 183, 189 and 197).
  const GREETINGS := [HI, GOOD_MORNING, GOOD_NIGHT, HEY_THERE, WHATS_UP, SUP, HOWDY]
  const EMOTIONS := [HOW_ARE_YOU, SAD, HAPPY, BORED, TIRED, ANGRY, LONELY, STRESS, SCARED]
  const TIME_AND_PLACE := [TIME, DATE, DAY_OF_THE_WEEK, WHERE_ARE_YOU, LOCATION]
  const PERSONAL := [YOUR_NAME, AGE, WHO_MADE_YOU, LIKE_ME, LOVE_YOU, MARRIED, FRIENDS]
  const WEATHER_TALK := [WEATHER, RAIN, COLD, STORM]
  const JOKE_REQUESTS := [JOKE]
  const GOODBYES := [BYE, SEE_YOU, NIGHT]
  const THANKS_AND_PRAISE := [THANKS, GREAT]
  const ADVICE_REQUESTS := [ADVICE, MOTIVATE, STUDY]
  const RANDOM_QUESTIONS := [FAVORITE_COLOR, FAVORITE_FOOD, MOVIE, MUSIC, SPORTS]

  /** The rule table, in the order of the source's `if` chain. */
  const RULES: seq<Rule> :=
    GREETINGS + EMOTIONS + TIME_AND_PLACE + PERSONAL + WEATHER_TALK + JOKE_REQUESTS
    + GOODBYES + THANKS_AND_PRAISE + ADVICE_REQUESTS + RANDOM_QUESTIONS

  /** The jokes of lines 166-172. */
  const JOKES: seq<string> := [
      "Why did the programmer quit his job? Because he didn't get arrays 😆",
      "Why do Java developers wear glasses? Because they don't C#! 😂",
      "I would tell you a UDP joke… but you might not get it!",
      "Why did the chat bot cross the road? To optimize the chicken crossing! 🐔",
      "I tried to write a joke about recursion… but it keeps calling itself!"
    ]

  /** The default pool `witty_responses` of lines 210-241. */
  const WITTY_RESPONSES: seq<string> := [
      "Interesting… tell me more!",
      "Haha, I like the way you think 😏",
      "Oh really? Go on…",
      "Hmm… I need to process that 🤔",
      "I don't have all the answers, but I'm learning from you!",
      "That sounds cool! Explain more.",
      "I see! You're full of surprises.",
      "Haha, you're funny! Keep going.",
      "Hmm… I'm just a chat bot, but I'm listening.",
      "Whoa! That's something I didn't expect.",
      "Really? Tell me more!",
      "I never thought of that! 😲",
      "Haha, good one!",
      "Oh wow… mind blown 🤯",
      "I see! Let's keep talking.",
      "Interesting perspective!",
      "You're full of ideas today!",
      "Haha, classic!",
      "I like that! 😎",
      "Hmm, tell me why you think that.",
      "Oh, that's clever!",
      "Keep going, I'm intrigued!",
      "Wow, didn't see that coming!",
      "Haha, I love your sense of humor!",
      "Fascinating! Tell me more.",
      "I'm curious… what happens next?",
      "Oh! That's unexpected 😮",
      "Haha, clever thinking!",
      "Very interesting… I like it!",
      "Wow, you keep surprising me!"
    ]

  /** Every fixed reply of `rules` is a non-empty text. */
  predicate FixedRepliesNonEmpty(rules: seq<Rule>) {
    forall i :: 0 <= i < |rules| && rules[i].reply.Say? ==> rules[i].reply.text != ""
  }

  lemma FixedRepliesAppend(a: seq<Rule>, b: seq<Rule>)
    requires FixedRepliesNonEmpty(a) && FixedRepliesNonEmpty(b)
    ensures FixedRepliesNonEmpty(a + b)
  {
    forall i | 0 <= i < |a + b| && (a + b)[i].reply.Say?
      ensures (a + b)[i].reply.text != ""
    {
      if i >= |a| {
        assert (a + b)[i] == b[i - |a|];
      }
    }
  }

  /** Every fixed reply of the table is a non-empty text. */
  lemma RuleTextsNonEmpty()
    ensures FixedRepliesNonEmpty(RULES)
  {
    var p := GREETINGS;
    assert FixedRepliesNonEmpty(p);
    assert FixedRepliesNonEmpty(EMOTIONS);
    FixedRepliesAppend(p, EMOTIONS);
    p := p + EMOTIONS;
    assert FixedRepliesNonEmpty(TIME_AND_PLACE);
    FixedRepliesAppend(p, TIME_AND_PLACE);
    p := p + TIME_AND_PLACE;
    assert FixedRepliesNonEmpty(PERSONAL);
    FixedRepliesAppend(p, PERSONAL);
    p := p + PERSONAL;
    assert FixedRepliesNonEmpty(WEATHER_TALK);
    FixedRepliesAppend(p, WEATHER_TALK);
    p := p + WEATHER_TALK;
    assert FixedRepliesNonEmpty(JOKE_REQUESTS);
    FixedRepliesAppend(p, JOKE_REQUESTS);
    p := p + JOKE_REQUESTS;
    assert FixedRepliesNonEmpty(GOODBYES);
    FixedRepliesAppend(p, GOODBYES);
    p := p + GOODBYES;
    assert FixedRepliesNonEmpty(THANKS_AND_PRAISE);
    FixedRepliesAppend(p, THANKS_AND_PRAISE);
    p := p + THANKS_AND_PRAISE;
    assert FixedRepliesNonEmpty(ADVICE_REQUESTS);
    FixedRepliesAppend(p, ADVICE_REQUESTS);
    p := p + ADVICE_REQUESTS;
    assert FixedRepliesNonEmpty(RANDOM_QUESTIONS);
    FixedRepliesAppend(p, RANDOM_QUESTIONS);
  }

  /** Every joke is a non-empty text. */
  lemma JokesNonEmpty()
    ensures forall joke :: joke in JOKES ==> joke != ""
  {
  }

  /** Every entry of the default pool is a non-empty text. */
  lemma PoolNonEmpty()
    ensures forall i :: 0 <= i < |WITTY_RESPONSES| ==> WITTY_RESPONSES[i] != ""
  {
  }

  /** The first rule at position `k` or later that matches `text`. */
  function FirstMatchFrom(rules: seq<Rule>, text: string, k: nat): Option<nat>
    requires k <= |rules|
    decreases |rules| - k
  {
    if k == |rules| then None
    else if Matches(rules[k].test, text) then Some(k)
    else FirstMatchFrom(rules, text, k + 1)
  }

  /** The scan finds the first matching rule at position `k` or later, and
      finds none only when no rule there matches. */
  lemma {:induction false} FirstMatchFromSpec(rules: seq<Rule>, text: string, k: nat)
    requires k <= |rules|
    ensures var r := FirstMatchFrom(rules, text, k);
            && (r.Some? ==> k <= r.value < |rules| && Matches(rules[r.value].test, text))
            && (r.Some? ==> forall j :: k <= j < r.value ==> !Matches(rules[j].test, text))
            && (r.None? ==> forall j :: k <= j < |rules| ==> !Matches(rules[j].test, text))
    decreases |rules| - k
  {
    if k < |rules| && !Matches(rules[k].test, text) {
      FirstMatchFromSpec(rules, text, k + 1);
    }
  }

  /** The position of the first rule that matches `text`: its rule's test
      holds and no earlier rule's does; None only when no rule matches. */
  function FirstMatch(rules: seq<Rule>, text: string): (r: Option<nat>)
    ensures r.Some? ==> r.value < |rules| && Matches(rules[r.value].test, text)
    ensures r.Some? ==> forall j :: 0 <= j < r.value ==> !Matches(rules[j].test, text)
    ensures r.None? ==> forall j :: 0 <= j < |rules| ==> !Matches(rules[j].test, text)
  {
    FirstMatchFromSpec(rules, text, 0);
    FirstMatchFrom(rules, text, 0)
  }

  function Shift(o: Option<nat>, n: nat): Option<nat> {
    match o
    case None => None
    case Some(i) => Some(i + n)
  }

  /** Evaluating a table made of two parts: the first part is tried in full
      before the second, whose positions come after the first's. */
  lemma FirstMatchAppend(a: seq<Rule>, b: seq<Rule>, text: string)
    ensures FirstMatch(a + b, text)
            == if FirstMatch(a, text).Some? then FirstMatch(a, text)
               else Shift(FirstMatch(b, text), |a|)
  {
    var ab := a + b;
    var r, ra, rb := FirstMatch(ab, text), FirstMatch(a, text), FirstMatch(b, text);
    FirstMatchFromSpec(ab, text, 0);
    FirstMatchFromSpec(a, text, 0);
    FirstMatchFromSpec(b, text, 0);
    assert forall j :: 0 <= j < |a| ==> ab[j] == a[j];
    assert forall j :: 0 <= j < |b| ==> ab[|a| + j] == b[j];
    if ra.Some? {
      assert Matches(ab[ra.value].test, text);
    } else if rb.Some? {
      assert Matches(ab[|a| + rb.value].test, text);
    }
  }

  /** The rule that decides the reply for `text`, if any: a rule of the
      table whose test holds. */
  function Fired(text: string): (r: Option<Rule>)
    ensures r.Some? ==> r.value in RULES && Matches(r.value.test, text)
  {
    match FirstMatch(RULES, text)
    case None => None
    case Some(i) => Some(RULES[i])
  }

  /** The reply a fired rule gives; `pick` stands for the draw of
      `random.choice`. */
  function Answer(reply: Reply, pick: nat): (r: string)
    ensures reply.Say? ==> r == reply.text
    ensures reply.TellJoke? ==> r in JOKES && r != ""
  {
    JokesNonEmpty();
    match reply
    case Say(text) => text
    case TellJoke => JOKES[pick % |JOKES|]
  }

  /** The index `sum(ord(c) for c in user_message) % len(witty_responses)`. */
  function PoolIndex(userMessage: string): (i: nat)
    ensures i < |WITTY_RESPONSES|
  {
    CodePointSum(userMessage) % |WITTY_RESPONSES|
  }

  /** `get_fallback_response(user_message)`, with `jokePick` for the one
      random draw it may make. */
  function GetFallbackResponse(userMessage: string, jokePick: nat): (r: string)
    ensures r != ""
  {
    RuleTextsNonEmpty();
    PoolNonEmpty();
    match Fired(Normalize(userMessage))
    case Some(rule) => Answer(rule.reply, jokePick)
    case None => WITTY_RESPONSES[PoolIndex(userMessage)]
  }
}
