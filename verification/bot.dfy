/**
 * The bot's session (`FramerBot`): the query box, the staged files, the
 * live gate, the typing indicator, the send button and the chat log, with
 * one entry point per handler. `sendQuery` is split at its `await fetch`
 * into `Begin`, which dispatches a request, and `Complete`, which handles
 * its outcome; other events may run in between.
 */
module Bot {
  import opened Wrappers
  import opened Chat
  import opened Staging
  import opened Prompt
  import opened LiveAnalysis

  datatype Session = Session(
    input: string,             // the query box's value
    files: seq<FileEntry>,     // the staged files
    live: LiveState,           // the `isTyping` gate and its armed timer
    indicator: bool,           // the "analyzing" indicator is shown
    sendDisabled: bool,        // the send button is disabled and shows its spinner
    log: seq<Message>          // the chat, oldest first
  )

  /** The constructor: nothing staged, nothing typed, the welcome message shown. */
  function Init(): Session {
    Session("", [], Idle, false, false, [Welcome])
  }

  /** What one `POST /api/framer` carries: the prompt and the files staged at dispatch. */
  datatype Request = Request(prompt: string, files: seq<FileEntry>)

  /** How the request ended: an HTTP response whose body parsed (`Some(code)`) or not, or no response. */
  datatype Outcome = Answered(status: int, code: Option<string>) | NetworkError

  /** `response.ok` and a body that parsed; every other ending is caught as an error. */
  predicate Succeeded(o: Outcome) {
    o.Answered? && 200 <= o.status <= 299 && o.code.Some?
  }

  /** `sendQuery` up to the `fetch`: prepare, and either stop or dispatch. */
  function Begin(s: Session): (Session, Option<Request>) {
    var prepared := Prepare(s.input, s.files);
    var logged := s.log + prepared.replies;
    if prepared.prompt == "" then (s.(log := logged), None)
    else
      (s.(input := "", indicator := false, sendDisabled := true, log := logged + [UserText(prepared.prompt)]),
       Some(Request(prepared.prompt, s.files)))
  }

  /** `sendQuery` after the `fetch` settles: the try, catch and finally blocks. */
  function Complete(s: Session, o: Outcome): Session {
    if Succeeded(o) then s.(files := [], sendDisabled := false, log := s.log + [CodeGenerated(o.code.value)])
    else s.(sendDisabled := false, log := s.log + [GenerationFailed])
  }

  /** The send button's click; a disabled button receives no click. */
  function OnSendClick(s: Session): (Session, Option<Request>) {
    if s.sendDisabled then (s, None) else Begin(s)
  }

  /** Ctrl+Enter in the query box, which no disabled state blocks. */
  function OnCtrlEnter(s: Session): (Session, Option<Request>) {
    Begin(s)
  }

  /** A quick-action button: its query replaces the box's text, then it sends. */
  function OnQuickAction(s: Session, query: string): (Session, Option<Request>) {
    Begin(s.(input := query))
  }

  /** The query box's `input` event. */
  function OnTyped(s: Session, text: string): Session {
    s.(input := text, live := OnInput(s.live, text))
  }

  /** The live analysis timer fires; `showTypingIndicator` does nothing if one is shown. */
  function OnTimer(s: Session): Session {
    var (live, show) := Fire(s.live);
    s.(live := live, indicator := s.indicator || show)
  }

  /** `handleFiles` for a picked or dropped batch. */
  function OnFiles(s: Session, batch: seq<FileEntry>): Session {
    var staged := Filter(batch);
    s.(files := staged, log := s.log + [FilesLoaded(|staged|)])
  }

  /** `removeFile(index)`. */
  function OnRemove(s: Session, index: int): Session {
    s.(files := RemoveAt(s.files, index))
  }
}
