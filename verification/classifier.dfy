/**
 * The query classifier (`analyzeQuery`): a first-match scan of a fixed
 * keyword catalog over the lower-cased query, then two canned replies
 * ("help"/"how" and "example"/"sample"), then an uncertain fallback.
 */
module Classifier {
  import opened Wrappers
  import opened Text

  /** The component kinds of the catalog, in declaration order. */
  datatype Category =
    | Navbar | Hero | Pricing | Testimonial | Form | Button | Card | Animation | Responsive

  /** The catalog's declaration order; the first matching category wins. */
  const Catalog: seq<Category> :=
    [Navbar, Hero, Pricing, Testimonial, Form, Button, Card, Animation, Responsive]

  /** Position of a category in the catalog. */
  function Rank(c: Category): (r: nat)
    ensures r < |Catalog| && Catalog[r] == c
  {
    match c
    case Navbar => 0
    case Hero => 1
    case Pricing => 2
    case Testimonial => 3
    case Form => 4
    case Button => 5
    case Card => 6
    case Animation => 7
    case Responsive => 8
  }

  /** The catalog key, which is also the `type` the classifier reports. */
  function Name(c: Category): string {
    match c
    case Navbar => "navbar"
    case Hero => "hero"
    case Pricing => "pricing"
    case Testimonial => "testimonial"
    case Form => "form"
    case Button => "button"
    case Card => "card"
    case Animation => "animation"
    case Responsive => "responsive"
  }

  function Keywords(c: Category): seq<string> {
    match c
    case Navbar => ["nav", "navbar", "menu", "header", "navigation"]
    case Hero => ["hero", "landing", "banner", "header section", "main section"]
    case Pricing => ["price", "pricing", "plan", "subscription"]
    case Testimonial => ["testimonial", "review", "customer", "feedback"]
    case Form => ["form", "contact", "signup", "login"]
    case Button => ["button", "cta", "call to action"]
    case Card => ["card", "product", "feature"]
    case Animation => ["animate", "animation", "motion", "transition"]
    case Responsive => ["responsive", "mobile", "tablet", "adaptive"]
  }

  /** Some keyword of `c` occurs in `text`. */
  predicate Mentions(text: string, c: Category) {
    exists k :: k in Keywords(c) && Contains(text, k)
  }

  /** `keywords.some(keyword => text.includes(keyword))`. */
  function AnyOccurs(text: string, ks: seq<string>): bool
  {
    if |ks| == 0 then false
    else Contains(text, ks[0]) || AnyOccurs(text, ks[1..])
  }

  lemma {:induction false} AnyOccursIff(text: string, ks: seq<string>)
    ensures AnyOccurs(text, ks) <==> exists k :: k in ks && Contains(text, k)
    decreases |ks|
  {
    if |ks| > 0 {
      AnyOccursIff(text, ks[1..]);
      if exists k :: k in ks && Contains(text, k) {
        var k :| k in ks && Contains(text, k);
        if k != ks[0] {
          assert k in ks[1..];
        }
      }
      if AnyOccurs(text, ks[1..]) {
        var k :| k in ks[1..] && Contains(text, k);
        assert k in ks;
      }
    }
  }

  /** The scan over `cats`: the first category mentioned in `text`, if any. */
  function FirstMatch(text: string, cats: seq<Category>): Option<Category>
  {
    if |cats| == 0 then None
    else if AnyOccurs(text, Keywords(cats[0])) then Some(cats[0])
    else FirstMatch(text, cats[1..])
  }

  /**
   * The scan finds nothing exactly when no category is mentioned, and what
   * it finds is mentioned and preceded only by categories that are not.
   */
  lemma {:induction false} FirstMatchSpec(text: string, cats: seq<Category>)
    ensures FirstMatch(text, cats).None? <==> forall i :: 0 <= i < |cats| ==> !Mentions(text, cats[i])
    ensures FirstMatch(text, cats).Some? ==>
              exists i :: 0 <= i < |cats| && cats[i] == FirstMatch(text, cats).value && Mentions(text, cats[i])
                          && forall j :: 0 <= j < i ==> !Mentions(text, cats[j])
    decreases |cats|
  {
    if |cats| > 0 {
      AnyOccursIff(text, Keywords(cats[0]));
    }
    if |cats| > 0 && !AnyOccurs(text, Keywords(cats[0])) {
      var rest := cats[1..];
      FirstMatchSpec(text, rest);
      var r := FirstMatch(text, rest);
      if r.Some? {
        var i :| 0 <= i < |rest| && rest[i] == r.value && Mentions(text, rest[i])
                 && forall j :: 0 <= j < i ==> !Mentions(text, rest[j]);
        forall j | 0 <= j < i + 1
          ensures !Mentions(text, cats[j])
        {
          if j > 0 {
            assert cats[j] == rest[j - 1];
          }
        }
        assert cats[i + 1] == r.value && Mentions(text, cats[i + 1]);
      } else {
        forall i | 0 <= i < |cats|
          ensures !Mentions(text, cats[i])
        {
          if i > 0 {
            assert cats[i] == rest[i - 1];
          }
        }
      }
    }
  }

  /** The two canned replies the classifier answers without generation. */
  datatype InstantKind = Help | Examples

  /** What `analyzeQuery` returns: a category, a canned reply, or nothing found. */
  datatype Analysis =
    | Detected(category: Category)
    | Instant(kind: InstantKind)
    | Uncertain

  /** The `response` text of a canned reply. */
  function Response(k: InstantKind): string {
    match k
    case Help =>
      "I'm ready to generate perfect Framer code! Ask me to create navbars, heroes, pricing tables, or upload your Framer files for analysis."
    case Examples =>
      "Here are popular Framer components I can create:\n\U{2022} Responsive Navbar\n\U{2022} Hero Section\n\U{2022} Pricing Cards\n\U{2022} Testimonial Carousel\n\U{2022} Contact Forms"
  }

  /** The `suggestion` text of a canned reply. */
  function InstantSuggestion(k: InstantKind): string {
    match k
    case Help => "Try: 'Create responsive navbar' or upload your project files!"
    case Examples => "Pick one or describe your component!"
  }

  /** The `confidence` field; canned replies carry none (`undefined`). */
  function Confidence(a: Analysis): Option<real> {
    match a
    case Detected(_) => Some(0.8)
    case Instant(_) => None
    case Uncertain => Some(0.3)
  }

  /** `analysis.confidence > 0.6`, where a comparison with `undefined` is false. */
  predicate Confident(a: Analysis) {
    Confidence(a).Some? && Confidence(a).value > 0.6
  }

  predicate NoCategory(text: string) {
    forall c: Category :: !Mentions(text, c)
  }

  predicate AsksHelp(text: string) {
    Contains(text, "help") || Contains(text, "how")
  }

  predicate AsksExamples(text: string) {
    Contains(text, "example") || Contains(text, "sample")
  }

  /** Each catalog entry's rank is its position. */
  lemma RankOfCatalog()
    ensures forall i :: 0 <= i < |Catalog| ==> Rank(Catalog[i]) == i
  {
  }

  /** Every category sits in the catalog, so scanning it covers them all. */
  lemma CatalogCovers(text: string)
    requires forall i :: 0 <= i < |Catalog| ==> !Mentions(text, Catalog[i])
    ensures NoCategory(text)
  {
    forall c: Category
      ensures !Mentions(text, c)
    {
      assert Catalog[Rank(c)] == c;
    }
  }

  /** `analyzeQuery`. */
  function Analyze(query: string): Analysis
  {
    var text := Lower(query);
    match FirstMatch(text, Catalog)
    case Some(c) => Detected(c)
    case None =>
      if AsksHelp(text) then Instant(Help)
      else if AsksExamples(text) then Instant(Examples)
      else Uncertain
  }
}

module ClassifierLaws {
  import opened Wrappers
  import opened Text
  import opened Classifier

  /**
   * First match wins: a category is reported exactly when the lower-cased
   * query mentions one; the reported category is mentioned, no category
   * declared before it is, and its confidence is 0.8.
   */
  lemma FirstMatchWins(query: string)
    ensures Analyze(query).Detected? <==> !NoCategory(Lower(query))
    ensures Analyze(query).Detected? ==>
              && Mentions(Lower(query), Analyze(query).category)
              && (forall c :: Rank(c) < Rank(Analyze(query).category) ==> !Mentions(Lower(query), c))
              && Confidence(Analyze(query)) == Some(0.8)
  {
    var text := Lower(query);
    FirstMatchSpec(text, Catalog);
    var found := FirstMatch(text, Catalog);
    if found.None? {
      CatalogCovers(text);
    } else {
      var c := found.value;
      var i :| 0 <= i < |Catalog| && Catalog[i] == c && Mentions(text, Catalog[i])
               && forall j :: 0 <= j < i ==> !Mentions(text, Catalog[j]);
      RankOfCatalog();
      assert Rank(c) == i;
      forall c' | Rank(c') < Rank(c)
        ensures !Mentions(text, c')
      {
        assert Catalog[Rank(c')] == c';
      }
    }
  }

  /**
   * A category beats the canned replies: once any category is mentioned the
   * result is that category or an earlier one, whatever help or example
   * words the query also holds.
   */
  lemma CategoryBeatsInstant(query: string, c: Category)
    requires Mentions(Lower(query), c)
    ensures Analyze(query).Detected?
    ensures Rank(Analyze(query).category) <= Rank(c)
  {
    FirstMatchWins(query);
  }

  /**
   * The fallback chain when no category is mentioned: "help" or "how" gives
   * the help reply, else "example" or "sample" gives the examples reply,
   * else the result is uncertain with confidence 0.3.
   */
  lemma FallbackChain(query: string)
    ensures Analyze(query) == Instant(Help) <==> NoCategory(Lower(query)) && AsksHelp(Lower(query))
    ensures Analyze(query) == Instant(Examples) <==>
              NoCategory(Lower(query)) && !AsksHelp(Lower(query)) && AsksExamples(Lower(query))
    ensures Analyze(query) == Uncertain <==>
              NoCategory(Lower(query)) && !AsksHelp(Lower(query)) && !AsksExamples(Lower(query))
    ensures Analyze(query) == Uncertain ==> Confidence(Analyze(query)) == Some(0.3)
  {
    FirstMatchWins(query);
  }

  /** The result depends only on the lower-cased query. */
  lemma CaseInsensitive(q1: string, q2: string)
    requires Lower(q1) == Lower(q2)
    ensures Analyze(q1) == Analyze(q2)
    ensures Analyze(q1) == Analyze(Lower(q1))
  {
    LowerIdempotent(q1);
  }

  /** Confidence above 0.6 singles out exactly the category matches. */
  lemma ConfidentIffDetected(a: Analysis)
    ensures Confident(a) <==> a.Detected?
  {
  }

  /** A lower-case query holding a copy of a keyword of `c` is a request for `c` or an earlier category. */
  lemma KeywordAt(q: string, c: Category, k: string, i: nat)
    requires IsLowered(q) && k in Keywords(c)
    requires i + |k| <= |q| && q[i..i + |k|] == k
    ensures Analyze(q).Detected? && Rank(Analyze(q).category) <= Rank(c)
  {
    LowerIsLowered(q);
    OccursAt(q, k, i);
    CategoryBeatsInstant(q, c);
  }

  /** Only the navbar category has rank 0. */
  lemma FirstRankIsNavbar(c: Category)
    requires Rank(c) <= 0
    ensures c == Navbar
  {
  }

  /** "header section" is a navbar request through "header", not a hero one. */
  lemma HeaderSectionIsNavbar()
    ensures Analyze("header section") == Detected(Navbar)
  {
    KeywordAt("header section", Navbar, "header", 0);
    FirstRankIsNavbar(Analyze("header section").category);
  }

  /** The categories ranked no later than pricing. */
  lemma EarlyRanks(c: Category)
    requires Rank(c) <= 2
    ensures c == Navbar || c == Hero || c == Pricing
  {
  }

  /** Every navbar and hero keyword holds an 'a', 'm', 'o' or 'v', so a text without those mentions neither. */
  lemma NoNavbarNoHero(s: string)
    requires 'a' !in s && 'm' !in s && 'o' !in s && 'v' !in s
    ensures !Mentions(s, Navbar) && !Mentions(s, Hero)
  {
    forall k | k in Keywords(Navbar) || k in Keywords(Hero)
      ensures !Contains(s, k)
    {
      if k == "menu" || k == "main section" {
        AbsentChar(s, k, 0);
      } else if k == "header" || k == "header section" {
        AbsentChar(s, k, 2);
      } else if k == "hero" {
        AbsentChar(s, k, 3);
      } else {
        AbsentChar(s, k, 1);
      }
    }
  }

  /** A lower-case text holding "pricing" and none of the navbar and hero letters is a pricing request. */
  lemma PricingWhen(q: string, i: nat)
    requires IsLowered(q) && i + 7 <= |q| && q[i..i + 7] == "pricing"
    requires 'a' !in q && 'm' !in q && 'o' !in q && 'v' !in q
    ensures Analyze(q) == Detected(Pricing)
  {
    KeywordAt(q, Pricing, "pricing", i);
    LowerIsLowered(q);
    FirstMatchWins(q);
    NoNavbarNoHero(q);
    EarlyRanks(Analyze(q).category);
  }

  /** A category word outranks a help word in the same query: "help with pricing" is a pricing request. */
  lemma HelpWithPricingIsPricing()
    ensures Analyze("help with pricing") == Detected(Pricing)
  {
    PricingWhen("help with pricing", 10);
  }

  /** Letters of which every keyword has one among its first three characters. */
  predicate IsKeyLetter(ch: char) {
    ch == 'a' || ch == 'f' || ch == 'g' || ch == 'i' || ch == 'm' || ch == 'n' || ch == 'r' || ch == 't' || ch == 'u'
  }

  predicate HasKeyLetter(k: string) {
    |k| >= 3 && (IsKeyLetter(k[0]) || IsKeyLetter(k[1]) || IsKeyLetter(k[2]))
  }

  lemma KeywordsHaveKeyLetters(c: Category)
    ensures forall k :: k in Keywords(c) ==> HasKeyLetter(k)
  {
    match c
    case Navbar =>
    case Hero =>
    case Pricing =>
    case Testimonial =>
    case Form =>
    case Button =>
    case Card =>
    case Animation =>
    case Responsive =>
  }

  /** A text without any key letter mentions no category. */
  lemma NoKeyLetterNoCategory(s: string)
    requires forall i :: 0 <= i < |s| ==> !IsKeyLetter(s[i])
    ensures NoCategory(s)
  {
    forall c: Category, k | k in Keywords(c)
      ensures !Contains(s, k)
    {
      KeywordsHaveKeyLetters(c);
      if IsKeyLetter(k[0]) {
        AbsentChar(s, k, 0);
      } else if IsKeyLetter(k[1]) {
        AbsentChar(s, k, 1);
      } else {
        AbsentChar(s, k, 2);
      }
    }
  }

  /** A lower-case text with no category and a help word gets the help reply. */
  lemma HelpReplyWhen(q: string)
    requires IsLowered(q) && NoCategory(q) && AsksHelp(q)
    ensures Analyze(q) == Instant(Help)
  {
    LowerIsLowered(q);
    FallbackChain(q);
  }

  /** "show" holds no keyword, and its "how" asks for help. */
  lemma ShowAsksHelp()
    ensures Analyze("show") == Instant(Help)
  {
    NoKeyLetterNoCategory("show");
    assert Contains("show"[1..], "how");
    HelpReplyWhen("show");
  }

  /** "help" holds no keyword, so it gets the help reply. */
  lemma HelpAsksHelp()
    ensures Analyze("help") == Instant(Help)
  {
    NoKeyLetterNoCategory("help");
    assert Contains("help", "help");
    HelpReplyWhen("help");
  }

  /** The empty query mentions nothing and is uncertain. */
  lemma EmptyIsUncertain()
    ensures Analyze("") == Uncertain
  {
    forall c: Category, k | k in Keywords(c)
      ensures !Contains("", k)
    {
      if Contains("", k) {
        ContainsShorter("", k);
      }
    }
    forall k: string | |k| > 0
      ensures !Contains("", k)
    {
      if Contains("", k) {
        ContainsShorter("", k);
      }
    }
    FallbackChain("");
  }
}
