/** What the rule order of `get_fallback_response` (server/ai_service.py,
    lines 80-249) implies: which rules can fire, which keyword is caught by
    which earlier rule, and how the default reply is chosen. */
module FallbackFacts {
  import opened Text
  import opened FallbackResponder

  // Positions in RULES of the rules these facts are about.
  const HI_AT := 0
  const GOOD_MORNING_AT := 1
  const GOOD_NIGHT_AT := 2
  const SUP_AT := 5
  const HAPPY_AT := 9
  const ANGRY_AT := 12
  const DATE_AT := 17
  const DAY_OF_THE_WEEK_AT := 18
  const AGE_AT := 22
  const WHO_MADE_YOU_AT := 23
  const COLD_AT := 30
  const JOKE_AT := 32
  const BYE_AT := 33
  const NIGHT_AT := 35
  const MOTIVATE_AT := 39

  /** Where the rules these facts are about sit in the table. */
  lemma Positions()
    ensures |RULES| == 46
    ensures RULES[HI_AT] == HI && RULES[GOOD_MORNING_AT] == GOOD_MORNING
    ensures RULES[GOOD_NIGHT_AT] == GOOD_NIGHT && RULES[SUP_AT] == SUP
    ensures RULES[HAPPY_AT] == HAPPY && RULES[ANGRY_AT] == ANGRY
    ensures RULES[DATE_AT] == DATE && RULES[DAY_OF_THE_WEEK_AT] == DAY_OF_THE_WEEK
    ensures RULES[AGE_AT] == AGE && RULES[WHO_MADE_YOU_AT] == WHO_MADE_YOU
    ensures RULES[COLD_AT] == COLD && RULES[JOKE_AT] == JOKE
    ensures RULES[BYE_AT] == BYE && RULES[NIGHT_AT] == NIGHT
    ensures RULES[MOTIVATE_AT] == MOTIVATE
  {
    EarlyPositions();
    LatePositions();
  }

  /** The size of the table and the positions of its first rules. */
  lemma EarlyPositions()
    ensures |RULES| == 46
    ensures RULES[HI_AT] == HI && RULES[GOOD_MORNING_AT] == GOOD_MORNING
    ensures RULES[GOOD_NIGHT_AT] == GOOD_NIGHT && RULES[SUP_AT] == SUP
    ensures RULES[HAPPY_AT] == HAPPY && RULES[ANGRY_AT] == ANGRY
    ensures RULES[DATE_AT] == DATE && RULES[DAY_OF_THE_WEEK_AT] == DAY_OF_THE_WEEK
  {
  }

  /** The positions of its later rules. */
  lemma LatePositions()
    ensures RULES[AGE_AT] == AGE && RULES[WHO_MADE_YOU_AT] == WHO_MADE_YOU
    ensures RULES[COLD_AT] == COLD && RULES[JOKE_AT] == JOKE
    ensures RULES[BYE_AT] == BYE && RULES[NIGHT_AT] == NIGHT
    ensures RULES[MOTIVATE_AT] == MOTIVATE
  {
  }

  /** The first-match evaluator returns the position its specification
      describes, and no other. */
  lemma FirstMatchIs(rules: seq<Rule>, text: string, i: nat)
    requires i < |rules| && Matches(rules[i].test, text)
    requires forall j :: 0 <= j < i ==> !Matches(rules[j].test, text)
    ensures FirstMatch(rules, text) == Some(i)
  {
  }

  /** A table none of whose rules matches `text` fires nothing. */
  lemma MissAll(rules: seq<Rule>, text: string)
    requires forall r :: r in rules ==> !Matches(r.test, text)
    ensures FirstMatch(rules, text) == None
  {
    forall j | 0 <= j < |rules|
      ensures !Matches(rules[j].test, text)
    {
      assert rules[j] in rules;
    }
  }

  /** The rule at position `i` fires when it matches and none before it
      does. */
  lemma HitAt(rules: seq<Rule>, text: string, i: nat)
    requires i < |rules| && Matches(rules[i].test, text)
    requires forall r :: r in rules[..i] ==> !Matches(r.test, text)
    ensures FirstMatch(rules, text) == Some(i)
  {
    forall j | 0 <= j < i
      ensures !Matches(rules[j].test, text)
    {
      assert rules[j] == rules[..i][j];
    }
    FirstMatchIs(rules, text, i);
  }

  /** The whole table fires nothing when none of its groups does. */
  lemma NoRuleFires(text: string)
    requires FirstMatch(GREETINGS, text) == None && FirstMatch(EMOTIONS, text) == None
    requires FirstMatch(TIME_AND_PLACE, text) == None && FirstMatch(PERSONAL, text) == None
    requires FirstMatch(WEATHER_TALK, text) == None && FirstMatch(JOKE_REQUESTS, text) == None
    requires FirstMatch(GOODBYES, text) == None && FirstMatch(THANKS_AND_PRAISE, text) == None
    requires FirstMatch(ADVICE_REQUESTS, text) == None && FirstMatch(RANDOM_QUESTIONS, text) == None
    ensures Fired(text) == None
  {
    var p := GREETINGS;
    FirstMatchAppend(p, EMOTIONS, text);
    p := p + EMOTIONS;
    FirstMatchAppend(p, TIME_AND_PLACE, text);
    p := p + TIME_AND_PLACE;
    FirstMatchAppend(p, PERSONAL, text);
    p := p + PERSONAL;
    FirstMatchAppend(p, WEATHER_TALK, text);
    p := p + WEATHER_TALK;
    FirstMatchAppend(p, JOKE_REQUESTS, text);
    p := p + JOKE_REQUESTS;
    FirstMatchAppend(p, GOODBYES, text);
    p := p + GOODBYES;
    FirstMatchAppend(p, THANKS_AND_PRAISE, text);
    p := p + THANKS_AND_PRAISE;
    FirstMatchAppend(p, ADVICE_REQUESTS, text);
    p := p + ADVICE_REQUESTS;
    FirstMatchAppend(p, RANDOM_QUESTIONS, text);
  }

  /** A match in one of the first four groups decides the whole table:
      the groups before it fire nothing and the groups after it are never
      consulted. */
  lemma EarlyGroupsDecide(text: string)
    ensures FirstMatch(GREETINGS, text).Some?
            ==> FirstMatch(RULES, text) == FirstMatch(GREETINGS, text)
    ensures FirstMatch(GREETINGS, text).None? && FirstMatch(EMOTIONS, text).Some?
            ==> FirstMatch(RULES, text) == Shift(FirstMatch(EMOTIONS, text), 7)
    ensures FirstMatch(GREETINGS, text).None? && FirstMatch(EMOTIONS, text).None?
            && FirstMatch(TIME_AND_PLACE, text).Some?
            ==> FirstMatch(RULES, text) == Shift(FirstMatch(TIME_AND_PLACE, text), 16)
    ensures FirstMatch(GREETINGS, text).None? && FirstMatch(EMOTIONS, text).None?
            && FirstMatch(TIME_AND_PLACE, text).None? && FirstMatch(PERSONAL, text).Some?
            ==> FirstMatch(RULES, text) == Shift(FirstMatch(PERSONAL, text), 21)
  {
    var p := GREETINGS;
    FirstMatchAppend(p, EMOTIONS, text);
    p := p + EMOTIONS;
    FirstMatchAppend(p, TIME_AND_PLACE, text);
    p := p + TIME_AND_PLACE;
    FirstMatchAppend(p, PERSONAL, text);
    p := p + PERSONAL;
    FirstMatchAppend(p, WEATHER_TALK, text);
    p := p + WEATHER_TALK;
    FirstMatchAppend(p, JOKE_REQUESTS, text);
    p := p + JOKE_REQUESTS;
    FirstMatchAppend(p, GOODBYES, text);
    p := p + GOODBYES;
    FirstMatchAppend(p, THANKS_AND_PRAISE, text);
    p := p + THANKS_AND_PRAISE;
    FirstMatchAppend(p, ADVICE_REQUESTS, text);
    p := p + ADVICE_REQUESTS;
    FirstMatchAppend(p, RANDOM_QUESTIONS, text);
  }

  /** A rule with keyword `word` fires for every text containing `word`,
      unless a rule before it fires. */
  lemma CaughtNoLaterThan(text: string, k: nat, word: string, kw: nat)
    requires k < |RULES| && RULES[k].test.AnyOf?
    requires kw < |RULES[k].test.words| && RULES[k].test.words[kw] == word
    requires Contains(text, word)
    ensures FirstMatch(RULES, text).Some? && FirstMatch(RULES, text).value <= k
  {
    AnyOfMatches(RULES[k].test.words, text);
  }

  /** A fired rule decides the reply: its text, or a joke for the joke rule. */
  lemma ReplyWhenFired(msg: string, pick: nat, rule: Rule)
    requires Fired(Normalize(msg)) == Some(rule)
    ensures GetFallbackResponse(msg, pick) == Answer(rule.reply, pick)
  {
  }

  /** The default pool holds thirty replies. */
  lemma PoolSize()
    ensures |WITTY_RESPONSES| == 30
  {
  }

  /** With no rule fired, the pool index of the message picks the reply. */
  lemma DefaultWhenNoneFires(msg: string, pick: nat)
    requires Fired(Normalize(msg)) == None
    ensures GetFallbackResponse(msg, pick) == WITTY_RESPONSES[PoolIndex(msg)]
  {
  }

  /** Every rule of the table other than the joke rule has one fixed reply. */
  lemma SayUnlessJoke(rule: Rule)
    requires rule in RULES && rule != JOKE
    ensures rule.reply.Say?
  {
    assert rule in GREETINGS || rule in EMOTIONS || rule in TIME_AND_PLACE || rule in PERSONAL
      || rule in WEATHER_TALK || rule in JOKE_REQUESTS || rule in GOODBYES
      || rule in THANKS_AND_PRAISE || rule in ADVICE_REQUESTS || rule in RANDOM_QUESTIONS;
  }

  /** A fired rule is a rule of the table whose test holds. */
  lemma FiredMatches(text: string)
    ensures Fired(text).Some? ==> Fired(text).value in RULES && Matches(Fired(text).value.test, text)
    ensures Fired(text).None? <==> forall j :: 0 <= j < |RULES| ==> !Matches(RULES[j].test, text)
  {
  }

  /** The exact-match greeting of lines 91-92 fires exactly when the
      normalized text IS one of the five greetings, never when a greeting is
      only part of a longer text. */
  lemma ExactGreeting(msg: string, pick: nat)
    ensures var text := Normalize(msg);
            Fired(text) == Some(HI) <==> text in ["hi", "hello", "hey", "hiya", "yo"]
    ensures Normalize(msg) in ["hi", "hello", "hey", "hiya", "yo"]
            ==> GetFallbackResponse(msg, pick) == "Hi there! How's your day going?"
  {
    Positions();
    var text := Normalize(msg);
    FiredMatches(text);
    if text in ["hi", "hello", "hey", "hiya", "yo"] {
      FirstMatchIs(RULES, text, HI_AT);
      ReplyWhenFired(msg, pick, HI);
    }
  }

  /** The normalized text "sup" is answered by the rule of lines 101-102. */
  lemma SupFires()
    ensures Fired("sup") == Some(SUP)
  {
    HitAt(GREETINGS, "sup", 5);
    EarlyGroupsDecide("sup");
    Positions();
  }

  /** The `text == 'sup'` test of lines 101-102 fires exactly when the
      normalized text is "sup", and then gives its reply. */
  lemma ExactSup(msg: string, pick: nat)
    ensures var text := Normalize(msg);
            Fired(text) == Some(SUP) <==> text == "sup"
    ensures Normalize(msg) == "sup" ==> GetFallbackResponse(msg, pick) == "Sup! How's it going?"
  {
    var text := Normalize(msg);
    FiredMatches(text);
    if text == "sup" {
      SupFires();
      ReplyWhenFired(msg, pick, SUP);
    }
  }

  /** Specificity: a text containing "good night" is answered by the rule of
      line 95 (or by the "good morning" rule just before it) and never by the
      looser "night" rule of line 180. */
  lemma GoodNightBeforeNight(text: string)
    requires Contains(text, "good night")
    ensures FirstMatch(RULES, text) == Some(GOOD_MORNING_AT)
            || FirstMatch(RULES, text) == Some(GOOD_NIGHT_AT)
    ensures FirstMatch(RULES, text) != Some(NIGHT_AT)
  {
    Positions();
    CaughtNoLaterThan(text, GOOD_NIGHT_AT, "good night", 0);
    assert !Matches(HI.test, text);
  }

  /** A text containing "good night" but not "good morning" gets the
      line-96 reply. */
  lemma GoodNightReply(msg: string, pick: nat)
    requires Contains(Normalize(msg), "good night") && !Contains(Normalize(msg), "good morning")
    ensures Fired(Normalize(msg)) == Some(GOOD_NIGHT)
    ensures GetFallbackResponse(msg, pick) == "Good night! Sweet dreams 😴"
  {
    var text := Normalize(msg);
    GoodNightBeforeNight(text);
    Positions();
    AnyOfMatches(GOOD_MORNING.test.words, text);
    ReplyWhenFired(msg, pick, GOOD_NIGHT);
  }

  /** The "day of the week" rule of lines 131-132 can never fire: every text
      that contains it contains "day", which the rule of line 129 catches. */
  lemma DayOfTheWeekNeverFires(text: string)
    ensures FirstMatch(RULES, text) != Some(DAY_OF_THE_WEEK_AT)
  {
    Positions();
    if Matches(DAY_OF_THE_WEEK.test, text) {
      AnyOfMatches(DAY_OF_THE_WEEK.test.words, text);
      assert Contains("day of the week", "day");
      ContainsTransitive(text, "day of the week", "day");
      CaughtNoLaterThan(text, DATE_AT, "day", 1);
    }
  }

  /** The "who made you" rule of lines 143-144 can never fire either: "made"
      contains "mad", which the rule of line 117 catches. */
  lemma WhoMadeYouNeverFires(text: string)
    ensures FirstMatch(RULES, text) != Some(WHO_MADE_YOU_AT)
  {
    Positions();
    if Matches(WHO_MADE_YOU.test, text) {
      AnyOfMatches(WHO_MADE_YOU.test.words, text);
      assert Contains("who made you", "mad");
      ContainsTransitive(text, "who made you", "mad");
      CaughtNoLaterThan(text, ANGRY_AT, "mad", 1);
    }
  }

  /** Plain substring matching: any text containing "goodbye" is caught by
      the "good" keyword of line 111 (or earlier), never by the goodbye rule
      of line 176. */
  lemma GoodbyeCaughtByGood(text: string)
    requires Contains(text, "goodbye")
    ensures FirstMatch(RULES, text).Some? && FirstMatch(RULES, text).value <= HAPPY_AT
  {
    Positions();
    assert Contains("goodbye", "good");
    ContainsTransitive(text, "goodbye", "good");
    CaughtNoLaterThan(text, HAPPY_AT, "good", 2);
  }

  /** Any text containing "cold" is caught by the "old" keyword of line 141
      (or earlier), never by the cold rule of line 159. */
  lemma ColdCaughtByOld(text: string)
    requires Contains(text, "cold")
    ensures FirstMatch(RULES, text).Some? && FirstMatch(RULES, text).value <= AGE_AT
  {
    Positions();
    assert Contains("cold", "old");
    ContainsTransitive(text, "cold", "old");
    CaughtNoLaterThan(text, AGE_AT, "old", 1);
  }

  /** Any text containing "encourage" is caught by the "age" keyword of line
      141 (or earlier), never by the rule of line 192 that lists it. */
  lemma EncourageCaughtByAge(text: string)
    requires Contains(text, "encourage")
    ensures FirstMatch(RULES, text).Some? && FirstMatch(RULES, text).value <= AGE_AT
  {
    Positions();
    assert Contains("encourage", "age");
    ContainsTransitive(text, "encourage", "age");
    CaughtNoLaterThan(text, AGE_AT, "age", 0);
  }

  /** Which of the first groups fire for "goodbye": the greetings do not,
      and the third emotion rule (lines 111-112) does. */
  lemma GoodbyeInGroups()
    ensures FirstMatch(GREETINGS, "goodbye") == None
    ensures FirstMatch(EMOTIONS, "goodbye") == Some(2)
  {
    GoodbyeMissesGreetings();
    GoodbyeHitsEmotions();
  }

  /** No greeting rule fires for "goodbye". */
  lemma GoodbyeMissesGreetings()
    ensures FirstMatch(GREETINGS, "goodbye") == None
  {
    MissAll(GREETINGS, "goodbye");
  }

  /** The third emotion rule, with keyword "good", fires for "goodbye". */
  lemma GoodbyeHitsEmotions()
    ensures FirstMatch(EMOTIONS, "goodbye") == Some(2)
  {
    HitAt(EMOTIONS, "goodbye", 2);
  }

  /** "goodbye" is answered as if it were good news, by the rule of lines
      111-112 rather than the goodbye rule of lines 176-177. */
  lemma GoodbyeReply(msg: string, pick: nat)
    requires Normalize(msg) == "goodbye"
    ensures Fired(Normalize(msg)) == Some(HAPPY)
    ensures GetFallbackResponse(msg, pick) == "Yay! That's awesome 😃"
    ensures GetFallbackResponse(msg, pick) != BYE.reply.text
  {
    GoodbyeInGroups();
    EarlyGroupsDecide("goodbye");
    Positions();
    ReplyWhenFired(msg, pick, HAPPY);
  }

  /** No greeting rule fires for "cold". */
  lemma ColdInGroups()
    ensures FirstMatch(GREETINGS, "cold") == None
  {
    MissAll(GREETINGS, "cold");
  }

  /** No emotion rule fires for "cold". */
  lemma ColdInEmotions()
    ensures FirstMatch(EMOTIONS, "cold") == None
  {
    MissAll(EMOTIONS, "cold");
  }

  /** No time or place rule fires for "cold", and the second personal rule
      (lines 141-142) does. */
  lemma ColdInLaterGroups()
    ensures FirstMatch(TIME_AND_PLACE, "cold") == None
    ensures FirstMatch(PERSONAL, "cold") == Some(1)
  {
    MissAll(TIME_AND_PLACE, "cold");
    HitAt(PERSONAL, "cold", 1);
  }

  /** "cold" is answered as a question about age, by the rule of lines
      141-142 rather than the weather rule of lines 159-160. */
  lemma ColdReply(msg: string, pick: nat)
    requires Normalize(msg) == "cold"
    ensures Fired(Normalize(msg)) == Some(AGE)
    ensures GetFallbackResponse(msg, pick) == "I'm timeless 😎"
    ensures GetFallbackResponse(msg, pick) != COLD.reply.text
  {
    ColdInGroups();
    ColdInEmotions();
    ColdInLaterGroups();
    EarlyGroupsDecide("cold");
    Positions();
    ReplyWhenFired(msg, pick, AGE);
  }

  /** No rule of GREETINGS fires for "" or for "abc". */
  lemma QuietGreetings()
    ensures FirstMatch(GREETINGS, "") == None && FirstMatch(GREETINGS, "abc") == None
  {
    MissAll(GREETINGS, "");
    MissAll(GREETINGS, "abc");
  }

  /** No rule of EMOTIONS fires for "" or for "abc". */
  lemma QuietEmotions()
    ensures FirstMatch(EMOTIONS, "") == None && FirstMatch(EMOTIONS, "abc") == None
  {
    MissAll(EMOTIONS, "");
    EmotionsMissAbc();
  }

  /** No emotion rule fires for "abc". */
  lemma EmotionsMissAbc()
    ensures FirstMatch(EMOTIONS, "abc") == None
  {
    MissAll(EMOTIONS, "abc");
  }

  /** No rule of TIME_AND_PLACE fires for "" or for "abc". */
  lemma QuietTimeAndPlace()
    ensures FirstMatch(TIME_AND_PLACE, "") == None && FirstMatch(TIME_AND_PLACE, "abc") == None
  {
    MissAll(TIME_AND_PLACE, "");
    MissAll(TIME_AND_PLACE, "abc");
  }

  /** No rule of PERSONAL fires for "" or for "abc". */
  lemma QuietPersonal()
    ensures FirstMatch(PERSONAL, "") == None && FirstMatch(PERSONAL, "abc") == None
  {
    MissAll(PERSONAL, "");
    MissAll(PERSONAL, "abc");
  }

  /** No rule of WEATHER_TALK fires for "" or for "abc". */
  lemma QuietWeatherTalk()
    ensures FirstMatch(WEATHER_TALK, "") == None && FirstMatch(WEATHER_TALK, "abc") == None
  {
    MissAll(WEATHER_TALK, "");
    MissAll(WEATHER_TALK, "abc");
  }

  /** No rule of JOKE_REQUESTS fires for "" or for "abc". */
  lemma QuietJokeRequests()
    ensures FirstMatch(JOKE_REQUESTS, "") == None && FirstMatch(JOKE_REQUESTS, "abc") == None
  {
    MissAll(JOKE_REQUESTS, "");
    MissAll(JOKE_REQUESTS, "abc");
  }

  /** No rule of GOODBYES fires for "" or for "abc". */
  lemma QuietGoodbyes()
    ensures FirstMatch(GOODBYES, "") == None && FirstMatch(GOODBYES, "abc") == None
  {
    MissAll(GOODBYES, "");
    MissAll(GOODBYES, "abc");
  }

  /** No rule of THANKS_AND_PRAISE fires for "" or for "abc". */
  lemma QuietThanksAndPraise()
    ensures FirstMatch(THANKS_AND_PRAISE, "") == None && FirstMatch(THANKS_AND_PRAISE, "abc") == None
  {
    MissAll(THANKS_AND_PRAISE, "");
    MissAll(THANKS_AND_PRAISE, "abc");
  }

  /** No rule of ADVICE_REQUESTS fires for "" or for "abc". */
  lemma QuietAdviceRequests()
    ensures FirstMatch(ADVICE_REQUESTS, "") == None && FirstMatch(ADVICE_REQUESTS, "abc") == None
  {
    MissAll(ADVICE_REQUESTS, "");
    MissAll(ADVICE_REQUESTS, "abc");
  }

  /** No rule of RANDOM_QUESTIONS fires for "" or for "abc". */
  lemma QuietRandomQuestions()
    ensures FirstMatch(RANDOM_QUESTIONS, "") == None && FirstMatch(RANDOM_QUESTIONS, "abc") == None
  {
    MissAll(RANDOM_QUESTIONS, "");
    MissAll(RANDOM_QUESTIONS, "abc");
  }

  /** No rule has a keyword in "". */
  lemma NothingFiresForEmpty()
    ensures Fired("") == None
  {
    QuietGreetings();
    QuietEmotions();
    QuietTimeAndPlace();
    QuietPersonal();
    QuietWeatherTalk();
    QuietJokeRequests();
    QuietGoodbyes();
    QuietThanksAndPraise();
    QuietAdviceRequests();
    QuietRandomQuestions();
    NoRuleFires("");
  }

  /** No rule has a keyword in "abc". */
  lemma NothingFiresForAbc()
    ensures Fired("abc") == None
  {
    QuietGreetings();
    QuietEmotions();
    QuietTimeAndPlace();
    QuietPersonal();
    QuietWeatherTalk();
    QuietJokeRequests();
    QuietGoodbyes();
    QuietThanksAndPraise();
    QuietAdviceRequests();
    QuietRandomQuestions();
    NoRuleFires("abc");
  }

  /** The pool indices the examples below use: "" sums to 0, "abc" to 294
      and " abc" to 326. */
  lemma PoolIndexExamples()
    ensures CodePointSum("abc") == 294 && CodePointSum(" abc") == 326
    ensures PoolIndex("") == 0 && PoolIndex("abc") == 24 && PoolIndex(" abc") == 26
  {
    assert " abc"[..3] == " ab" && " ab"[..2] == " a" && " a"[..1] == " ";
    PoolSize();
  }

  /** The pool entries the examples below use. */
  lemma PoolExamples()
    ensures WITTY_RESPONSES[0] == "Interesting… tell me more!"
    ensures WITTY_RESPONSES[24] == "Fascinating! Tell me more."
    ensures WITTY_RESPONSES[26] == "Oh! That's unexpected 😮"
  {
  }

  /** "abc" is its own normal form. */
  lemma AbcIsNormal()
    ensures Normalize("abc") == "abc"
  {
    LowerOfNoUpper("abc");
    assert Lower("abc") == "abc";
    StripOfTrimmed("abc");
  }

  /** Stripping " abc" drops its one leading space. */
  lemma StripSpaceAbc()
    ensures Strip(" abc") == "abc"
  {
    assert LeadingSpaces(" abc") == 1;
    assert " abc"[1..] == "abc";
    assert TrailingSpaces("abc") == 0;
  }

  /** Normalizing " abc" drops the leading space. */
  lemma LeadingSpaceStripped()
    ensures Normalize(" abc") == "abc"
  {
    LowerOfNoUpper(" abc");
    assert Lower(" abc") == " abc";
    StripSpaceAbc();
  }

  /** No rule fires for the empty message. */
  lemma EmptyFiresNothing()
    ensures Fired(Normalize("")) == None
  {
    assert Normalize("") == "";
    NothingFiresForEmpty();
  }

  /** No rule fires for "abc", nor for " abc", which normalizes to it. */
  lemma AbcFiresNothing()
    ensures Normalize(" abc") == Normalize("abc")
    ensures Fired(Normalize("abc")) == None && Fired(Normalize(" abc")) == None
  {
    AbcIsNormal();
    LeadingSpaceStripped();
    NothingFiresForAbc();
  }

  /** The empty message gets the first entry of the default pool. */
  lemma EmptyMessage(pick: nat)
    ensures GetFallbackResponse("", pick) == "Interesting… tell me more!"
  {
    EmptyFiresNothing();
    DefaultWhenNoneFires("", pick);
    PoolIndexExamples();
    PoolExamples();
  }

  /** "abc" matches no rule; its code points sum to 294 = 9 * 30 + 24, so it
      gets pool entry 24. */
  lemma AbcReply(pick: nat)
    ensures CodePointSum("abc") == 294
    ensures GetFallbackResponse("abc", pick) == "Fascinating! Tell me more."
  {
    AbcFiresNothing();
    DefaultWhenNoneFires("abc", pick);
    PoolIndexExamples();
    PoolExamples();
  }

  /** " abc" also matches no rule, but sums to 326 and gets entry 26. */
  lemma SpaceAbcReply(pick: nat)
    ensures GetFallbackResponse(" abc", pick) == "Oh! That's unexpected 😮"
  {
    AbcFiresNothing();
    DefaultWhenNoneFires(" abc", pick);
    PoolIndexExamples();
    PoolExamples();
  }

  /** The pool index is computed from the message as typed, not from its
      normal form: " abc" and "abc" have the same normal form but different
      replies. */
  lemma PoolUsesRawMessage(pick: nat)
    ensures Normalize(" abc") == Normalize("abc")
    ensures GetFallbackResponse(" abc", pick) != GetFallbackResponse("abc", pick)
  {
    AbcFiresNothing();
    AbcReply(pick);
    SpaceAbcReply(pick);
  }

  /** The code-point sum does not depend on the order of the characters. */
  lemma {:induction false} CodePointSumPermutation(s: string, t: string)
    requires multiset(s) == multiset(t)
    ensures CodePointSum(s) == CodePointSum(t)
    decreases |s|
  {
    if s != [] {
      var s', c := s[..|s| - 1], s[|s| - 1];
      assert s == s' + [c];
      assert c in multiset(t);
      var k :| 0 <= k < |t| && t[k] == c;
      var t' := t[..k] + t[k + 1..];
      assert t == t[..k] + [c] + t[k + 1..];
      assert multiset(t) == multiset(t[..k]) + multiset{c} + multiset(t[k + 1..]);
      assert multiset(t') == multiset(t[..k]) + multiset(t[k + 1..]);
      assert multiset(s) == multiset(s') + multiset{c};
      assert multiset(s') == multiset(s) - multiset{c};
      assert multiset(t') == multiset(t) - multiset{c};
      CodePointSumPermutation(s', t');
      CodePointSumAppend(s', [c]);
      CodePointSumAppend(t[..k] + [c], t[k + 1..]);
      CodePointSumAppend(t[..k], [c]);
      CodePointSumAppend(t[..k], t[k + 1..]);
    }
  }

  /** A fired rule other than the joke rule answers with its own fixed text. */
  lemma RuleReplyKnown(msg: string, pick: nat)
    requires Fired(Normalize(msg)).Some? && Fired(Normalize(msg)).value != JOKE
    ensures Fired(Normalize(msg)).value.reply == Say(GetFallbackResponse(msg, pick))
  {
    var rule := Fired(Normalize(msg)).value;
    FiredMatches(Normalize(msg));
    SayUnlessJoke(rule);
    ReplyWhenFired(msg, pick, rule);
  }

  /** The joke rule answers with one of the jokes. */
  lemma JokeReplyKnown(msg: string, pick: nat)
    requires Fired(Normalize(msg)) == Some(JOKE)
    ensures GetFallbackResponse(msg, pick) in JOKES
  {
    ReplyWhenFired(msg, pick, JOKE);
  }

  /** The fallback reply is total and always a known text: the fixed reply
      of some rule, one of the jokes, or an entry of the default pool. */
  lemma ReplyIsKnown(msg: string, pick: nat)
    ensures || (exists rule :: rule in RULES && rule.reply == Say(GetFallbackResponse(msg, pick)))
            || GetFallbackResponse(msg, pick) in JOKES
            || GetFallbackResponse(msg, pick) in WITTY_RESPONSES
  {
    var fired := Fired(Normalize(msg));
    if fired == Some(JOKE) {
      JokeReplyKnown(msg, pick);
    } else if fired.Some? {
      RuleReplyKnown(msg, pick);
    } else {
      DefaultWhenNoneFires(msg, pick);
    }
  }

  /** When no rule fires, the reply depends only on the multiset of the
      message's characters: messages that are anagrams of each other get the
      same default reply. */
  lemma DefaultReplyIgnoresOrder(m1: string, m2: string, p1: nat, p2: nat)
    requires Fired(Normalize(m1)) == None && Fired(Normalize(m2)) == None
    requires multiset(m1) == multiset(m2)
    ensures GetFallbackResponse(m1, p1) == GetFallbackResponse(m2, p2)
  {
    CodePointSumPermutation(m1, m2);
    assert PoolIndex(m1) == PoolIndex(m2);
    DefaultWhenNoneFires(m1, p1);
    DefaultWhenNoneFires(m2, p2);
  }

  /** Apart from the joke rule, the reply does not depend on the random
      draw: identical messages get identical replies. */
  lemma DeterministicUnlessJoke(msg: string, p1: nat, p2: nat)
    requires Fired(Normalize(msg)) != Some(JOKE)
    ensures GetFallbackResponse(msg, p1) == GetFallbackResponse(msg, p2)
  {
    var fired := Fired(Normalize(msg));
    FiredMatches(Normalize(msg));
    if fired.Some? {
      SayUnlessJoke(fired.value);
      ReplyWhenFired(msg, p1, fired.value);
      ReplyWhenFired(msg, p2, fired.value);
    } else {
      DefaultWhenNoneFires(msg, p1);
      DefaultWhenNoneFires(msg, p2);
    }
  }

  /** The joke rule fires for a text with a joke keyword when no earlier
      rule does. */
  lemma JokeFires(text: string)
    requires Contains(text, "joke") || Contains(text, "funny") || Contains(text, "haha") || Contains(text, "lol")
    requires forall j :: 0 <= j < JOKE_AT ==> !Matches(RULES[j].test, text)
    ensures Fired(text) == Some(JOKE)
  {
    Positions();
    AnyOfMatches(JOKE.test.words, text);
    FirstMatchIs(RULES, text, JOKE_AT);
  }

  /** A text with a joke keyword for which no earlier rule fires gets one of
      the five jokes; the draw alone decides which, and every joke can be
      drawn. */
  lemma JokeRequest(msg: string, pick: nat)
    requires var text := Normalize(msg);
             (Contains(text, "joke") || Contains(text, "funny") || Contains(text, "haha") || Contains(text, "lol"))
             && forall j :: 0 <= j < JOKE_AT ==> !Matches(RULES[j].test, text)
    ensures GetFallbackResponse(msg, pick) in JOKES
    ensures forall i: nat :: GetFallbackResponse(msg, i) == JOKES[i % |JOKES|]
  {
    JokeFires(Normalize(msg));
    ReplyWhenFired(msg, pick, JOKE);
    forall i: nat
      ensures GetFallbackResponse(msg, i) == JOKES[i % |JOKES|]
    {
      ReplyWhenFired(msg, i, JOKE);
    }
  }
}
