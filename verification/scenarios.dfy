/** End-to-end runs of the bot on concrete inputs. */
module Scenarios {
  import opened Wrappers
  import opened Text
  import opened Classifier
  import ClassifierLaws
  import opened Chat
  import opened Staging
  import opened Prompt
  import opened LiveAnalysis
  import opened Bot
  import BotLaws

  lemma ResponsiveNavbarIsNavbar()
    ensures Analyze("responsive navbar") == Detected(Navbar)
  {
    ClassifierLaws.KeywordAt("responsive navbar", Navbar, "nav", 11);
    ClassifierLaws.FirstRankIsNavbar(Analyze("responsive navbar").category);
  }

  /**
   * "responsive navbar" is sent as a navbar prompt naming "navbar" together
   * with the staged files; when the service answers with code, the code is
   * shown and the staged files are gone.
   */
  lemma NavbarRequestSucceeds(s: Session, code: string)
    requires s.input == "responsive navbar"
    ensures Begin(s).1.Some? && Begin(s).1.value.files == s.files
    ensures Header(Navbar) <= Begin(s).1.value.prompt
    ensures Contains(Begin(s).1.value.prompt, "navbar")
    ensures var done := Complete(Begin(s).0, Answered(200, Some(code)));
            done.files == [] && done.log[|done.log| - 1] == CodeGenerated(code) && !done.sendDisabled
  {
    ResponsiveNavbarIsNavbar();
    TrimNoEdges("responsive navbar");
    BotLaws.DetectedRequestSucceeds(s, code);
  }

  /** "help" is answered on the spot: no request, the button untouched, two messages added. */
  lemma HelpIsAnsweredLocally(s: Session)
    requires s.input == "help"
    ensures Begin(s).1 == None
    ensures Begin(s).0.log == s.log + [BotText(Response(Help)), UserText(InstantSuggestion(Help))]
    ensures Begin(s).0.sendDisabled == s.sendDisabled && Begin(s).0.input == "help"
  {
    ClassifierLaws.HelpAsksHelp();
    TrimNoEdges("help");
    assert Analyze(Trim(s.input)) == Instant(Help);
    PrepareSpec(s.input, s.files);
    BotLaws.EmptyPromptIsNoop(s);
  }

  lemma JsonAccepted()
    ensures Accepted("a.json")
  {
    assert Lower("a.json") == "a.json";
    assert HasSuffix("a.json", "." + "json");
    EndsWithAnyIff("a.json", Extensions);
  }

  /** Choosing just "a.json" stages it. */
  lemma StageJson(s: Session)
    ensures OnFiles(s, [FileEntry("a.json", 120)]).files == [FileEntry("a.json", 120)]
  {
    JsonAccepted();
    assert Filter([FileEntry("a.json", 120)]) == [FileEntry("a.json", 120)];
  }

  /**
   * A "navbar" request is dispatched with whatever is staged, and when it
   * fails those files stay staged and the generic error is shown.
   */
  lemma FailedNavbarKeepsFiles(s: Session, o: Outcome)
    requires s.input == "navbar" && !Succeeded(o)
    ensures Begin(s).1.Some? && Begin(s).1.value.files == s.files
    ensures Complete(Begin(s).0, o).files == s.files
    ensures Complete(Begin(s).0, o).log[|Complete(Begin(s).0, o).log| - 1] == GenerationFailed
    ensures !Complete(Begin(s).0, o).sendDisabled
  {
    BotLaws.NavbarIsNavbar();
    TrimNoEdges("navbar");
    BotLaws.DetectedRequestFails(s, o);
  }

  /**
   * With "a.json" staged, a navbar request that fails leaves "a.json"
   * staged for a retry.
   */
  lemma FailedRequestKeepsFiles()
    ensures var staged := OnFiles(Init(), [FileEntry("a.json", 120)]).(input := "navbar");
            Complete(Begin(staged).0, NetworkError).files == [FileEntry("a.json", 120)]
  {
    StageJson(Init());
    var staged := OnFiles(Init(), [FileEntry("a.json", 120)]).(input := "navbar");
    FailedNavbarKeepsFiles(staged, NetworkError);
  }

  lemma HelMentionsNothing()
    ensures !Analyze("hel").Detected?
  {
    ClassifierLaws.NoKeyLetterNoCategory("hel");
    LowerIsLowered("hel");
    ClassifierLaws.FirstMatchWins("hel");
  }

  lemma HelNavbarIsNavbar()
    ensures Analyze("hel navbar").Detected?
  {
    ClassifierLaws.KeywordAt("hel navbar", Navbar, "nav", 4);
  }

  /**
   * Typing "he", "hel", "hel navbar" quickly arms one timer on "hel"; when
   * it fires "hel" is classified, so no indicator appears although the
   * final text names a navbar.
   */
  lemma ThrottleClassifiesFirst()
    ensures Analyze("hel navbar").Detected?
    ensures !Fire(InputAll(Idle, ["he", "hel", "hel navbar"])).1
  {
    var texts := ["he", "hel", "hel navbar"];
    assert FirstLong(texts) == Some("hel");
    BurstThenFire(texts);
    HelMentionsNothing();
    HelNavbarIsNavbar();
  }
}
