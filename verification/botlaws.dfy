/**
 * What the send lifecycle and the handlers promise: an empty prompt is a
 * no-op, a dispatch clears the box and disables the button, files are
 * emptied only on success, the button always ends enabled, and nothing but
 * the disabled button stands between a request and a second one.
 */
module BotLaws {
  import opened Wrappers
  import opened Text
  import opened Classifier
  import ClassifierLaws
  import opened Chat
  import opened Staging
  import opened Prompt
  import opened LiveAnalysis
  import opened Bot

  /**
   * An empty prompt stops `sendQuery` before anything is disabled or
   * cleared: only a canned reply's two messages may be added.
   */
  lemma EmptyPromptIsNoop(s: Session)
    requires Prepare(s.input, s.files).prompt == ""
    ensures Begin(s).1 == None
    ensures Begin(s).0.input == s.input && Begin(s).0.files == s.files
    ensures Begin(s).0.sendDisabled == s.sendDisabled && Begin(s).0.indicator == s.indicator
    ensures Begin(s).0.live == s.live
    ensures Analyze(Trim(s.input)).Instant? ==>
              Begin(s).0.log == s.log + [BotText(Response(Analyze(Trim(s.input)).kind)),
                                         UserText(InstantSuggestion(Analyze(Trim(s.input)).kind))]
    ensures !Analyze(Trim(s.input)).Instant? ==> Begin(s).0.log == s.log
  {
    PrepareSpec(s.input, s.files);
  }

  /**
   * A non-empty prompt is dispatched together with the files staged at that
   * moment; the box is cleared, the indicator hidden, the button disabled
   * and the prompt echoed on the user's side.
   */
  lemma DispatchSnapshot(s: Session)
    requires Prepare(s.input, s.files).prompt != ""
    ensures Begin(s).1 == Some(Request(Prepare(s.input, s.files).prompt, s.files))
    ensures Begin(s).0.input == "" && Begin(s).0.files == s.files
    ensures Begin(s).0.sendDisabled && !Begin(s).0.indicator
    ensures Begin(s).0.log == s.log + [UserText(Prepare(s.input, s.files).prompt)]
    ensures Unwrap(Begin(s).1.value.prompt, Analyze(Trim(s.input)), Names(s.files)) == Some(Trim(s.input))
  {
    PreparedForDispatch(s.input, s.files);
  }

  /**
   * Settling a request: success empties the staged files and shows the
   * code; any failure keeps them and shows the generic error; either way
   * the button ends enabled and nothing else changes.
   */
  lemma CompleteSpec(s: Session, o: Outcome)
    ensures !Complete(s, o).sendDisabled
    ensures Succeeded(o) ==> Complete(s, o).files == []
    ensures Succeeded(o) ==> Complete(s, o).log == s.log + [CodeGenerated(o.code.value)]
    ensures !Succeeded(o) ==> Complete(s, o).files == s.files
    ensures !Succeeded(o) ==> Complete(s, o).log == s.log + [GenerationFailed]
    ensures Complete(s, o).input == s.input && Complete(s, o).live == s.live
    ensures Complete(s, o).indicator == s.indicator
  {
  }

  /** The error message says nothing about how the request failed. */
  lemma FailureIsGeneric(s: Session, o1: Outcome, o2: Outcome)
    requires !Succeeded(o1) && !Succeeded(o2)
    ensures Complete(s, o1) == Complete(s, o2)
  {
  }

  /** A disabled send button ignores clicks. */
  lemma ClickIgnoredWhileBusy(s: Session)
    requires s.sendDisabled
    ensures OnSendClick(s) == (s, None)
  {
  }

  /** The user-facing events, one per handler, plus a request settling. */
  datatype Event =
    | Typed(text: string)
    | TimerFired
    | FilesChosen(batch: seq<FileEntry>)
    | Removed(index: int)
    | SendClicked
    | CtrlEnter
    | QuickAction(query: string)
    | Settled(outcome: Outcome)

  /** One event applied to the session, with the request it dispatches, if any. */
  function Step(s: Session, e: Event): (Session, Option<Request>) {
    match e
    case Typed(text) => (OnTyped(s, text), None)
    case TimerFired => (OnTimer(s), None)
    case FilesChosen(batch) => (OnFiles(s, batch), None)
    case Removed(index) => (OnRemove(s, index), None)
    case SendClicked => OnSendClick(s)
    case CtrlEnter => OnCtrlEnter(s)
    case QuickAction(query) => OnQuickAction(s, query)
    case Settled(o) => (Complete(s, o), None)
  }

  /** Every event keeps the live gate's invariant: at most one timer armed, flag set exactly then. */
  lemma StepKeepsGate(s: Session, e: Event)
    requires Valid(s.live)
    ensures Valid(Step(s, e).0.live)
  {
    match e
    case SendClicked =>
      BeginKeepsLive(s);
    case CtrlEnter =>
      BeginKeepsLive(s);
    case QuickAction(q) =>
      BeginKeepsLive(s.(input := q));
    case Typed(text) =>
    case TimerFired =>
    case FilesChosen(batch) =>
    case Removed(index) =>
    case Settled(o) =>
  }

  lemma BeginKeepsLive(s: Session)
    ensures Begin(s).0.live == s.live
  {
  }

  /**
   * The staged files change only through a new selection, a removal or a
   * successful request; a failure, a send or typing never touches them.
   */
  lemma FilesChangeOnly(s: Session, e: Event)
    requires Step(s, e).0.files != s.files
    ensures e.FilesChosen? || e.Removed? || (e.Settled? && Succeeded(e.outcome))
  {
    match e
    case SendClicked =>
      if !s.sendDisabled {
        DispatchOrNoopKeepsFiles(s);
      }
    case CtrlEnter =>
      DispatchOrNoopKeepsFiles(s);
    case QuickAction(q) =>
      DispatchOrNoopKeepsFiles(s.(input := q));
    case _ =>
  }

  lemma DispatchOrNoopKeepsFiles(s: Session)
    ensures Begin(s).0.files == s.files
  {
  }

  /** Running a sequence of events; the dispatched requests are collected in order. */
  function Run(s: Session, es: seq<Event>): (Session, seq<Request>)
    decreases |es|
  {
    if |es| == 0 then (s, [])
    else
      var (s1, req) := Step(s, es[0]);
      var (s2, reqs) := Run(s1, es[1..]);
      (s2, (if req.Some? then [req.value] else []) + reqs)
  }

  /** The gate's invariant holds along every run that starts from a valid state. */
  lemma {:induction false} RunKeepsGate(s: Session, es: seq<Event>)
    requires Valid(s.live)
    ensures Valid(Run(s, es).0.live)
    decreases |es|
  {
    if |es| > 0 {
      StepKeepsGate(s, es[0]);
      RunKeepsGate(Step(s, es[0]).0, es[1..]);
    }
  }

  /** The page opens with the gate idle, so every run of events from it keeps the gate's invariant. */
  lemma InitRunsKeepGate(es: seq<Event>)
    ensures Valid(Init().live) && Init().files == [] && !Init().sendDisabled
    ensures Valid(Run(Init(), es).0.live)
  {
    RunKeepsGate(Init(), es);
  }

  /**
   * `handleFiles` discards what was staged and stages exactly the accepted
   * files of the selection, in order, then announces how many it kept.
   */
  lemma OnFilesSpec(s: Session, batch: seq<FileEntry>)
    ensures forall f :: f in OnFiles(s, batch).files <==> f in batch && Accepted(f.name)
    ensures OnFiles(s, batch).files == Filter(batch)
    ensures OnFiles(s, batch).log == s.log + [FilesLoaded(|OnFiles(s, batch).files|)]
    ensures OnFiles(s, batch).input == s.input && OnFiles(s, batch).live == s.live
    ensures OnFiles(s, batch).sendDisabled == s.sendDisabled
  {
  }

  /**
   * `removeFile(index)` splices one staged file out: an index in range
   * removes exactly that file, an index at or past the end removes nothing,
   * and nothing but the staged files changes.
   */
  lemma OnRemoveSpec(s: Session, index: int)
    ensures 0 <= index < |s.files| ==> RemovedAt(OnRemove(s, index).files, s.files, index)
    ensures index >= |s.files| ==> OnRemove(s, index) == s
    ensures OnRemove(s, index).log == s.log && OnRemove(s, index).input == s.input
    ensures OnRemove(s, index).live == s.live && OnRemove(s, index).indicator == s.indicator
    ensures OnRemove(s, index).sendDisabled == s.sendDisabled
  {
  }

  /** An `input` event puts the text in the box and offers it to the gate, which takes it only when idle and it is long enough. */
  lemma OnTypedSpec(s: Session, text: string)
    requires Valid(s.live)
    ensures OnTyped(s, text).input == text
    ensures |text| >= MinLength && !s.live.isTyping ==> OnTyped(s, text).live == LiveState(true, [text])
    ensures |text| < MinLength || s.live.isTyping ==> OnTyped(s, text).live == s.live
    ensures OnTyped(s, text).files == s.files && OnTyped(s, text).log == s.log
  {
  }

  /**
   * The gate's timer fires: the gate goes idle and the indicator, once
   * shown, stays shown; it is newly shown exactly when the captured text
   * names a category.
   */
  lemma OnTimerSpec(s: Session)
    requires Valid(s.live)
    ensures OnTimer(s).live == Idle
    ensures OnTimer(s).indicator <==> s.indicator || (|s.live.armed| > 0 && Analyze(s.live.armed[0]).Detected?)
    ensures OnTimer(s).input == s.input && OnTimer(s).files == s.files && OnTimer(s).log == s.log
  {
  }

  /** Ctrl+Enter and the quick actions send whatever the button's state: a disabled button stops neither. */
  lemma ShortcutsIgnoreButton(s: Session, query: string)
    requires s.sendDisabled && Analyze(Trim(s.input)).Detected? && Analyze(Trim(query)).Detected?
    ensures OnSendClick(s).1 == None
    ensures OnCtrlEnter(s).1.Some?
    ensures OnQuickAction(s, query).1.Some?
  {
    DetectedPromptIsSent(s);
    DetectedPromptIsSent(s.(input := query));
  }

  /** "navbar" is a navbar request through its keyword "nav". */
  lemma NavbarIsNavbar()
    ensures Analyze("navbar") == Detected(Navbar)
  {
    ClassifierLaws.KeywordAt("navbar", Navbar, "nav", 0);
    ClassifierLaws.FirstRankIsNavbar(Analyze("navbar").category);
  }

  /**
   * A request for a category goes out with a prompt naming the category and
   * with the staged files; when the service answers with code, the code is
   * shown after the prompt, the staged files are cleared and the button is
   * enabled again.
   */
  lemma DetectedRequestSucceeds(s: Session, code: string)
    requires Analyze(Trim(s.input)).Detected?
    ensures Begin(s).1.Some? && Begin(s).1.value.files == s.files
    ensures Header(Analyze(Trim(s.input)).category) <= Begin(s).1.value.prompt
    ensures Contains(Begin(s).1.value.prompt, Name(Analyze(Trim(s.input)).category))
    ensures var done := Complete(Begin(s).0, Answered(200, Some(code)));
            && done.files == []
            && done.log == s.log + [UserText(Begin(s).1.value.prompt), CodeGenerated(code)]
            && !done.sendDisabled
  {
    var a := Analyze(Trim(s.input));
    DetectedPromptIsSent(s);
    DetectedPromptNamesCategory(Trim(s.input), a.category, Names(s.files));
    assert a == Detected(a.category);
    SplitConcat(Header(a.category), WithFiles(Trim(s.input), Names(s.files)), IncludeLine);
    var o := Answered(200, Some(code));
    assert Succeeded(o);
    CompleteSpec(Begin(s).0, o);
  }

  /**
   * A request for a category goes out with the staged files; when it fails
   * for any reason those files stay staged, the generic error is shown and
   * the button is enabled again.
   */
  lemma DetectedRequestFails(s: Session, o: Outcome)
    requires Analyze(Trim(s.input)).Detected? && !Succeeded(o)
    ensures Begin(s).1.Some? && Begin(s).1.value.files == s.files
    ensures var done := Complete(Begin(s).0, o);
            && done.files == s.files
            && done.log == s.log + [UserText(Begin(s).1.value.prompt), GenerationFailed]
            && !done.sendDisabled
  {
    DetectedPromptIsSent(s);
    var sent := Begin(s).0;
    CompleteSpec(sent, o);
    assert Complete(sent, o).log == sent.log + [GenerationFailed];
  }

  /** A request for a category always has a prompt to send. */
  lemma DetectedPromptIsSent(s: Session)
    requires Analyze(Trim(s.input)).Detected?
    ensures Begin(s).1 == Some(Request(Augment(Trim(s.input), Analyze(Trim(s.input)), Names(s.files)), s.files))
    ensures Begin(s).0.log == s.log + [UserText(Begin(s).1.value.prompt)]
    ensures Begin(s).0.sendDisabled
  {
    var c := Analyze(Trim(s.input)).category;
    var p := Prepare(s.input, s.files).prompt;
    assert p == Header(c) + WithFiles(Trim(s.input), Names(s.files)) + IncludeLine;
    assert |Header(c)| > 0;
    DispatchSnapshot(s);
  }

  /**
   * No single-flight guard: from any session, a quick action whose query
   * names a category dispatches a request and disables the button, and a
   * second one while that request is still pending dispatches another.
   */
  lemma NoInFlightGuard(s: Session, query: string)
    requires Analyze(Trim(query)).Detected?
    ensures OnQuickAction(s, query).0.sendDisabled
    ensures OnQuickAction(s, query).1.Some?
    ensures OnQuickAction(OnQuickAction(s, query).0, query).1.Some?
  {
    var s0 := s.(input := query);
    PrepareSpec(s0.input, s0.files);
    DispatchSnapshot(s0);
    var s1 := OnQuickAction(s, query).0;
    var s2 := s1.(input := query);
    PrepareSpec(s2.input, s2.files);
    DispatchSnapshot(s2);
  }

  /** The "navbar" quick action names a category, so two of them overlap. */
  lemma NavbarQuickActionsOverlap(s: Session)
    ensures OnQuickAction(OnQuickAction(s, "navbar").0, "navbar").1.Some?
  {
    NavbarIsNavbar();
    TrimNoEdges("navbar");
    NoInFlightGuard(s, "navbar");
  }
}
