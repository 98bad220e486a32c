/** The offline responder of src/lib/mockApi.ts: a keyword classifier with
    first-match-wins precedence, a table of canned replies per category, and
    a pick driven by a random number in [0, 1). The one-second simulated
    latency is not modelled. */
module MockApi {
  import opened Text

  const GREETING := "greeting"
  const HELP := "help"
  const PRODUCT := "product"
  const PRICING := "pricing"
  const DEFAULT := "default"

  /** `MOCK_RESPONSES`: the canned replies, keyed by category name. */
  const MockResponses: map<string, seq<string>> := map[
    GREETING := [
      "Hello! How can I help you today?",
      "Hi there! What can I assist you with?",
      "Greetings! What can I do for you?"
    ],
    HELP := [
      "I can help you with product information, troubleshooting, or general questions. What do you need assistance with?",
      "I'm here to help! Please let me know what you're looking for."
    ],
    PRODUCT := [
      "Our products include a range of solutions for businesses and individuals. Could you specify which product you're interested in?",
      "We offer various products across different categories. Can you tell me which specific product you'd like to know more about?"
    ],
    PRICING := [
      "Our pricing depends on the specific product and plan you're interested in. You can find detailed pricing information on our pricing page.",
      "We offer flexible pricing plans to suit different needs. Would you like me to provide a link to our pricing page?"
    ],
    DEFAULT := [
      "I'm not sure I understand. Could you rephrase your question?",
      "I don't have information on that specific topic. Could you try asking something else?",
      "I'm still learning! Could you try asking your question in a different way?"
    ]
  ]

  /** The five category names. */
  const Categories: set<string> := {GREETING, HELP, PRODUCT, PRICING, DEFAULT}

  /** The alternatives of each regular expression of the classifier. */
  const GreetingWords: seq<string> := ["hello", "hi", "hey", "greetings"]
  const HelpWords: seq<string> := ["help", "assist", "support"]
  const ProductWords: seq<string> := ["product", "service", "offer"]
  const PricingWords: seq<string> := ["price", "cost", "pricing", "plan"]

  /** `s.match(/w1|w2|.../)` succeeds, trying the alternatives in turn: it
      does exactly when some alternative occurs in `s`. */
  predicate MatchesAny(s: string, words: seq<string>)
    ensures MatchesAny(s, words) <==> exists k :: 0 <= k < |words| && Contains(s, words[k])
  {
    words != [] && (Contains(s, words[0]) || MatchesAny(s, words[1..]))
  }

  /** `getResponseCategory`: lower-case the message, then try the four
      keyword groups top to bottom; the first group that matches decides. */
  function ResponseCategory(message: string): (c: string)
    ensures c in Categories
  {
    var m := Lower(message);
    if MatchesAny(m, GreetingWords) then GREETING
    else if MatchesAny(m, HelpWords) then HELP
    else if MatchesAny(m, ProductWords) then PRODUCT
    else if MatchesAny(m, PricingWords) then PRICING
    else DEFAULT
  }

  /** `Math.floor(random * length)` for `0 <= random < 1`. */
  function PickIndex(random: real, length: nat): (i: int)
    requires 0.0 <= random < 1.0
    requires length > 0
    ensures 0 <= i < length
  {
    ScaledBelow(random, length);
    (random * length as real).Floor
  }

  /** A number in [0, 1) scaled by a positive length lies in [0, length). */
  lemma {:induction false} ScaledBelow(random: real, length: nat)
    requires 0.0 <= random < 1.0
    requires length > 0
    ensures 0.0 <= random * length as real < length as real
  {
    if length > 1 {
      ScaledBelow(random, length - 1);
      assert random * length as real == random * (length - 1) as real + random;
    }
  }

  /** `MOCK_RESPONSES[category] || MOCK_RESPONSES.default`. */
  function RepliesFor(category: string): (rs: seq<string>)
    ensures category in MockResponses ==> rs == MockResponses[category]
    ensures category !in MockResponses ==> rs == MockResponses[DEFAULT]
    ensures |rs| > 0
  {
    if category in MockResponses then MockResponses[category] else MockResponses[DEFAULT]
  }

  /** `getRandomResponse`: one reply of the category's list, chosen by
      `random`. */
  function RandomResponse(category: string, random: real): (reply: string)
    requires 0.0 <= random < 1.0
    ensures reply in RepliesFor(category)
  {
    var rs := RepliesFor(category);
    rs[PickIndex(random, |rs|)]
  }

  /** `mockChatResponse`: classify, then pick a reply of that category. */
  function MockChatResponse(message: string, random: real): (reply: string)
    requires 0.0 <= random < 1.0
    ensures reply in MockResponses[ResponseCategory(message)]
  {
    RandomResponse(ResponseCategory(message), random)
  }

  // ---------------------------------------------------------------------
  // Properties of the classifier and of the reply table

  /** The category names and the keys of the reply table are the same five
      names, and every list of replies is non-empty. */
  lemma TableCoversCategories()
    ensures MockResponses.Keys == Categories
    ensures forall c :: c in MockResponses ==> |MockResponses[c]| > 0
  {
  }

  /** Lower-casing is all the classifier looks at: two messages that differ
      only in the case of their letters get the same category. */
  lemma CaseInsensitive(s: string, t: string)
    requires SameUpToCase(s, t)
    ensures ResponseCategory(s) == ResponseCategory(t)
  {
    assert Lower(s) == Lower(t);
  }

  /** Upper-case letters are folded: a message and its lower-case form get
      the same category. */
  lemma LowerCaseSameCategory(s: string)
    ensures ResponseCategory(Lower(s)) == ResponseCategory(s)
  {
    assert Lower(Lower(s)) == Lower(s);
  }

  /** The greeting group takes precedence over all others. */
  lemma GreetingWins(message: string)
    requires MatchesAny(Lower(message), GreetingWords)
    ensures ResponseCategory(message) == GREETING
  {
  }

  /** Each category is chosen exactly when its group matches and no group
      above it does. */
  lemma Precedence(message: string)
    ensures var m := Lower(message);
      && (ResponseCategory(message) == GREETING <==> MatchesAny(m, GreetingWords))
      && (ResponseCategory(message) == HELP <==>
            !MatchesAny(m, GreetingWords) && MatchesAny(m, HelpWords))
      && (ResponseCategory(message) == PRODUCT <==>
            !MatchesAny(m, GreetingWords) && !MatchesAny(m, HelpWords) && MatchesAny(m, ProductWords))
      && (ResponseCategory(message) == PRICING <==>
            !MatchesAny(m, GreetingWords) && !MatchesAny(m, HelpWords) && !MatchesAny(m, ProductWords)
            && MatchesAny(m, PricingWords))
      && (ResponseCategory(message) == DEFAULT <==>
            !MatchesAny(m, GreetingWords) && !MatchesAny(m, HelpWords) && !MatchesAny(m, ProductWords)
            && !MatchesAny(m, PricingWords))
  {
  }

  /** "which plan" asks about pricing but is a greeting: it contains "hi". */
  lemma WhichPlanIsGreeting()
    ensures ResponseCategory("which plan") == GREETING
    ensures MatchesAny(Lower("which plan"), PricingWords)
  {
    var m := Lower("which plan");
    assert m == "which plan";
    assert Contains(m[1..], "hi");
    assert Contains(m, GreetingWords[1]);
    assert Contains(m[6..], "plan");
    assert Contains(m[5..], "plan");
    assert Contains(m[4..], "plan");
    assert Contains(m[3..], "plan");
    assert Contains(m[2..], "plan");
    assert Contains(m[1..], "plan");
    assert Contains(m, PricingWords[3]);
  }

  /** The empty message matches no keyword and gets the default category. */
  lemma EmptyIsDefault()
    ensures ResponseCategory("") == DEFAULT
  {
  }

  /** "hello" is a greeting, so the offline reply is one of the three
      greeting replies whatever the random number. */
  lemma HelloGetsGreeting(random: real)
    requires 0.0 <= random < 1.0
    ensures MockChatResponse("hello", random) in MockResponses[GREETING]
    ensures |MockResponses[GREETING]| == 3
  {
    assert Lower("hello") == "hello";
    assert Contains("hello", GreetingWords[0]);
  }

  /** A category name the table does not know falls back to the default
      replies. */
  lemma UnknownCategoryFallsBack(category: string, random: real)
    requires 0.0 <= random < 1.0
    requires category !in Categories
    ensures RandomResponse(category, random) in MockResponses[DEFAULT]
  {
  }
}
