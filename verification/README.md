# FramerBot core, modelled in Dafny

FramerBot is a browser chat front end (`script.js`) that turns a free-text
request ("responsive navbar") into a prompt for a Framer code generator. Its
logic sits in a handful of methods of the `FramerBot` class:

- `analyzeQuery` classifies the lower-cased query against a fixed keyword
  catalog of nine component kinds. The first kind in catalog order with a
  keyword occurring in the text wins, with confidence 0.8. Only when no kind
  matches do "help"/"how" and then "example"/"sample" give canned replies.
  Anything else is uncertain, with confidence 0.3.
- `prepareSmartQuery` trims the query and classifies it. A canned reply is
  shown at once and yields the empty prompt. Otherwise a context block naming
  the first three staged files is appended, and a detected kind wraps the
  result in an instruction.
- `handleFiles` replaces the staged files with the accepted files of a new
  selection: names ending in `.framer`, `.json`, `.zip`, `.txt`, `.js`,
  `.jsx`, `.ts` or `.tsx`, in any case. `removeFile` splices one out.
- `analyzeLive` throttles re-classification while typing with an `isTyping`
  flag.
- `sendQuery` prepares the prompt and, if it is not empty, disables the send
  button, clears the box and posts the prompt and the files. On success it
  shows the code and empties the staged files. On failure it shows one
  generic error and keeps them. It always re-enables the button.

The model is functional. Each handler is a function from an immutable
`Bot.Session` to the next one. `sendQuery` is split at its `await fetch`
into `Bot.Begin`, which returns the dispatched `Bot.Request`, and
`Bot.Complete`, which takes the request's `Bot.Outcome` as a parameter.
The chat log is a sequence of abstract `Chat.Message`s. Timers are an
explicit queue of armed callbacks that fire one at a time.

Modules: `Wrappers` (Option), `Text` (case folding, `includes`, suffix,
`trim`, `join`), `Classifier` and `ClassifierLaws`, `Staging`, `Prompt`,
`LiveAnalysis`, `Chat`, `Bot` and `BotLaws` (the session and its handlers),
`Scenarios` (concrete end-to-end runs).

Four behaviours of the code are easy to misread, and the model keeps them
as written:

- Category matching comes before the help and example checks
  (script.js:35-60), so "help with pricing" is a pricing request. See
  `ClassifierLaws.CategoryBeatsInstant` and
  `ClassifierLaws.HelpWithPricingIsPricing`.
- Live analysis is a throttle, not a debounce. While `isTyping` is set, input
  is dropped, and the text captured when the timer was armed is the one
  classified (script.js:127-141). See `LiveAnalysis.BurstKeepsFirst` and
  `Scenarios.ThrottleClassifiesFirst`.
- There is no single-flight guard. Only the send button is disabled
  (script.js:227); Ctrl+Enter (script.js:102) and the quick-action buttons
  (script.js:106-110) still call `sendQuery`. See
  `BotLaws.ShortcutsIgnoreButton` and `BotLaws.NoInFlightGuard`, which puts
  two requests in flight at once.
- `removeFile` is `splice(index, 1)` (script.js:204): an index at or past the
  end removes nothing, and a negative index counts back from the end. See
  `Staging.RemoveAt`.

## Model

| member | source | states |
|---|---|---|
| `Text.Lower` | script.js:32 | `toLowerCase` on ASCII letters: same length, each character folded on its own; its laws are `Text.LowerIsLowered` and `Text.LowerIdempotent` |
| `Text.LowerIsLowered` | script.js:32 | a lower-cased query holds no upper-case letter, and a query without one is its own lower-cased form |
| `Text.LowerIdempotent` | script.js:32 | lower-casing twice equals lower-casing once |
| `Text.Contains` | script.js:36 | `includes`: the keyword starts at the front of the text or somewhere after it; `Text.ContainsIff` gives its occurrence reading |
| `Text.ContainsIff` | script.js:36 | `includes` holds exactly when some position of the text starts a copy of the keyword |
| `Text.Trim` | script.js:67 | the trimmed query is a slice of the input with only white space cut from either end, and it neither starts nor ends with white space |
| `Text.TrimIdempotent` | script.js:67 | trimming an already trimmed query changes nothing |
| `Text.TrimEmptyIff` | script.js:67 | a query trims to the empty string exactly when it is all white space |
| `Text.Join` | script.js:79 | `join(', ')`: nothing for no names, the name for one, separators between more; `Text.JoinSnoc` states how it grows |
| `Text.JoinSnoc` | script.js:79 | joining one more name appends the separator and that name |
| `Classifier.Rank` | script.js:14-24 | each category has its position in the catalog's declaration order |
| `Classifier.AnyOccursIff` | script.js:36 | the `some` scan over a category's keywords holds exactly when one of them occurs in the text |
| `Classifier.FirstMatchSpec` | script.js:35-43 | the catalog scan finds nothing exactly when no category is mentioned, and what it finds is mentioned with no earlier category mentioned |
| `Classifier.Analyze` | script.js:31-63 | `analyzeQuery`: the first-match catalog scan over the lower-cased query, then the help reply, then the examples reply, else uncertain; its contract is `ClassifierLaws.FirstMatchWins` with `ClassifierLaws.FallbackChain` |
| `ClassifierLaws.FirstMatchWins` | script.js:14-43 | a category is reported exactly when one is mentioned; it is the earliest mentioned in catalog order, with confidence 0.8 |
| `ClassifierLaws.CategoryBeatsInstant` | script.js:35-60 | a query mentioning a category is reported as that category or an earlier one, even when it also holds help or example words |
| `ClassifierLaws.FallbackChain` | script.js:45-62 | with no category: help reply iff "help" or "how" occurs; examples reply iff not that but "example" or "sample" occurs; otherwise uncertain with confidence 0.3 |
| `ClassifierLaws.CaseInsensitive` | script.js:31-32 | queries that agree after lower-casing get the same result |
| `ClassifierLaws.ConfidentIffDetected` | script.js:135 | confidence above 0.6 holds exactly for category matches; canned replies have no confidence |
| `ClassifierLaws.KeywordAt` | script.js:35-43 | a lower-case query holding a keyword of a category at some position is reported as that category or an earlier one |
| `ClassifierLaws.NoKeyLetterNoCategory` | script.js:14-24 | a text none of whose letters is one of a, f, g, i, m, n, r, t, u contains no keyword of any category |
| `ClassifierLaws.HelpReplyWhen` | script.js:45-52 | a lower-case query naming no category and holding "help" or "how" gets the help reply |
| `ClassifierLaws.HeaderSectionIsNavbar` | script.js:15-16 | "header section" is a navbar request through "header", not a hero request |
| `ClassifierLaws.NoNavbarNoHero` | script.js:15-16 | every navbar and hero keyword holds an 'a', 'm', 'o' or 'v', so a text without those letters mentions neither category |
| `ClassifierLaws.PricingWhen` | script.js:14-43 | a lower-case text holding "pricing" and none of those letters is a pricing request |
| `ClassifierLaws.HelpWithPricingIsPricing` | script.js:35-52 | "help with pricing" is a pricing request, not the help reply |
| `ClassifierLaws.ShowAsksHelp` | script.js:46-52 | "show" gets the help reply because "how" occurs inside it |
| `ClassifierLaws.HelpAsksHelp` | script.js:46-52 | "help" gets the help reply |
| `ClassifierLaws.EmptyIsUncertain` | script.js:62 | the empty query is uncertain |
| `Staging.Accepted` | script.js:181 | the regular expression `/\.(framer|json|zip|txt|js|jsx|ts|tsx)$/i` as a test on the lower-cased name; `Staging.EndsWithAnyIff` and `Staging.AcceptedIgnoresCase` state what it accepts |
| `Staging.EndsWithAnyIff` | script.js:181 | a lower-cased name passes the extension alternation exactly when it ends in a dot and one of the eight extensions |
| `Staging.Filter` | script.js:179-182 | the staged files are drawn from the selection, are all accepted, and include every accepted file of the selection |
| `Staging.FilterAppend` | script.js:180-182 | filtering a concatenation concatenates the filtered parts, so the selection's order is kept |
| `Staging.FilterIdempotent` | script.js:180-182 | re-filtering a staged list changes nothing |
| `Staging.AcceptedIgnoresCase` | script.js:181 | case never decides whether a name is accepted |
| `Staging.SuffixAccepted` | script.js:181 | a name whose lower-cased form ends in a dot and one of the eight extensions is accepted |
| `Staging.UpperCaseAccepted` | script.js:181 | "App.TSX" is accepted |
| `Staging.InnerExtensionRefused` | script.js:181 | "data.json.bak" is refused, because the extension must end the name |
| `Staging.SpliceStart` | script.js:204 | splice starts at the index when it is in range, counts a negative index back from the end, and never passes the end |
| `Staging.RemoveAt` | script.js:203-204 | an index in range removes exactly that file and keeps the rest in order; an index at or past the end changes nothing; a negative index removes from the end |
| `Staging.RemoveThenInsert` | script.js:203-204 | re-inserting the removed file at its index restores the list |
| `Prompt.FirstThree` | script.js:79 | the listed names are the first min(3, n) staged names |
| `Prompt.Augment` | script.js:77-88 | the prompt template: the context block after the query when files are staged, the category instruction and Include line around it when a category was detected; its contract is `Prompt.PromptShape` with the round trip `Prompt.UnwrapAugment` |
| `Prompt.PromptShape` | script.js:66-89 | empty for a canned reply; the bare query with no category and no files; the context block follows the query when files are staged; a detected category puts its instruction first and the Include line last; empty only for a canned reply or an empty query with nothing staged |
| `Prompt.DetectedPromptNamesCategory` | script.js:84-85 | a category prompt contains the category's name |
| `Prompt.UnwrapAugment` | script.js:77-88 | the query appears verbatim in every non-empty prompt and can be read back given the analysis and the files |
| `Prompt.Prepare` | script.js:66-89 | `prepareSmartQuery`: trims, classifies, answers a canned reply with two messages and the empty prompt, otherwise builds the prompt; its contract is `Prompt.PrepareSpec` |
| `Prompt.PrepareSpec` | script.js:66-89 | the prompt is empty exactly for a canned reply or a blank input with no files; a canned reply adds the bot's answer and its suggestion, and nothing else adds messages; other prompts carry the trimmed input |
| `LiveAnalysis.OnInput` | script.js:127-130 | short input or input while a timer is armed changes nothing; otherwise one timer is armed holding that text; the gate's invariant is kept |
| `LiveAnalysis.Fire` | script.js:131-140 | firing returns the gate to idle and asks for the indicator exactly when the armed text names a category |
| `LiveAnalysis.BusyDropsInput` | script.js:128 | every keystroke while the flag is set is dropped |
| `LiveAnalysis.BurstKeepsFirst` | script.js:127-131 | a burst typed from idle arms one timer holding its first long-enough text, not its last |
| `LiveAnalysis.BurstThenFire` | script.js:127-141 | a burst and one firing classify at most that first text and end idle |
| `Bot.Init` | script.js:10-27 | the constructor: nothing staged, the gate idle, the welcome message; `BotLaws.InitRunsKeepGate` states what runs from it keep |
| `Bot.Begin` | script.js:222-237 | `sendQuery` up to the `fetch`; its contract is `BotLaws.EmptyPromptIsNoop` with `BotLaws.DispatchSnapshot` |
| `Bot.Complete` | script.js:244-270 | `sendQuery` after the `fetch` settles; its contract is `BotLaws.CompleteSpec` |
| `Bot.OnFiles` | script.js:179-185 | `handleFiles`; its contract is `BotLaws.OnFilesSpec` |
| `Bot.OnRemove` | script.js:203-206 | `removeFile`; its contract is `BotLaws.OnRemoveSpec` |
| `Bot.OnTyped` | script.js:96-98 | the `input` listener calling `analyzeLive`; its contract is `BotLaws.OnTypedSpec` |
| `Bot.OnTimer` | script.js:130-140 | the live-analysis timer callback; its contract is `BotLaws.OnTimerSpec` |
| `Bot.OnSendClick` | script.js:93 | the send button's click, which a disabled button never delivers; see `BotLaws.ClickIgnoredWhileBusy` |
| `Bot.OnCtrlEnter` | script.js:101-103 | Ctrl+Enter calls `sendQuery` whatever the button's state; see `BotLaws.ShortcutsIgnoreButton` |
| `Bot.OnQuickAction` | script.js:106-110 | a quick-action button puts its query in the box and calls `sendQuery`; see `BotLaws.ShortcutsIgnoreButton` and `BotLaws.NoInFlightGuard` |
| `BotLaws.InitRunsKeepGate` | script.js:10-27 | the page starts with nothing staged, the button enabled and the gate idle, and every run of events from there keeps the gate's invariant |
| `BotLaws.OnFilesSpec` | script.js:179-185 | a new selection replaces the staged files with exactly its accepted files, in order, and announces their number; the box, gate and button are untouched |
| `BotLaws.OnRemoveSpec` | script.js:203-206 | an index in range removes exactly that file and keeps the rest in order; an index at or past the end changes nothing; the log and box are untouched |
| `BotLaws.OnTypedSpec` | script.js:96-98 | typing sets the box's text; the gate arms a timer on it only when idle and the text has at least three characters, and otherwise is unchanged |
| `BotLaws.OnTimerSpec` | script.js:130-140 | the timer's firing leaves the gate idle and shows the indicator exactly when it was shown already or the captured text names a category |
| `BotLaws.ShortcutsIgnoreButton` | script.js:101-110 | with the button disabled, a click sends nothing, but Ctrl+Enter and a quick action whose query names a category still dispatch |
| `BotLaws.EmptyPromptIsNoop` | script.js:222-224 | an empty prompt dispatches nothing and leaves the box, files, button, indicator and gate untouched; only a canned reply's messages are added |
| `BotLaws.DispatchSnapshot` | script.js:223-237 | a non-empty prompt is dispatched with the files staged at that moment; the box is cleared, the indicator hidden, the button disabled and the prompt echoed |
| `BotLaws.CompleteSpec` | script.js:244-270 | success empties the files and shows the code; failure keeps the files and shows the generic error; the button ends enabled either way |
| `BotLaws.FailureIsGeneric` | script.js:263-265 | all failures leave the same state, whatever their cause |
| `BotLaws.ClickIgnoredWhileBusy` | script.js:227 | a disabled send button dispatches nothing and changes nothing |
| `BotLaws.StepKeepsGate` | script.js:127-141 | no handler breaks the gate's invariant: at most one timer armed, with the flag set exactly then |
| `BotLaws.FilesChangeOnly` | script.js:259-260 | staged files change only by a new selection, a removal or a successful request |
| `BotLaws.DispatchOrNoopKeepsFiles` | script.js:222-237 | preparing and dispatching never changes the staged files |
| `BotLaws.RunKeepsGate` | script.js:127-141 | the gate's invariant holds along every run of events |
| `BotLaws.NavbarIsNavbar` | script.js:15 | "navbar" is a navbar request |
| `BotLaws.DetectedPromptIsSent` | script.js:222-231 | a query naming a category always has a prompt to send: it is dispatched with the staged files, echoed to the log and the button disabled |
| `BotLaws.DetectedRequestSucceeds` | script.js:222-261 | a category request carries a prompt that opens with the category's instruction and names the category and the staged files; a successful answer appends the code after the echoed prompt, empties the staged files and re-enables the button |
| `BotLaws.DetectedRequestFails` | script.js:222-270 | a category request that fails for any reason keeps the staged files, appends the generic error after the echoed prompt and re-enables the button |
| `BotLaws.NoInFlightGuard` | script.js:102-110 | from any session, a quick action whose query names a category disables the button and dispatches, and the same quick action while that request is pending dispatches a second one |
| `BotLaws.NavbarQuickActionsOverlap` | script.js:106-110 | two "navbar" quick actions in a row both dispatch |
| `Scenarios.ResponsiveNavbarIsNavbar` | script.js:15-23 | "responsive navbar" is a navbar request, not a responsive one |
| `Scenarios.NavbarRequestSucceeds` | script.js:222-261 | from any session, "responsive navbar" is sent with a prompt that opens with the navbar instruction and names "navbar", together with the staged files; on success the code is shown last, the files are gone and the button is enabled |
| `Scenarios.HelpIsAnsweredLocally` | script.js:70-75 | from any session, "help" sends nothing, leaves the box and the button as they were and appends exactly the help reply and its suggestion |
| `Scenarios.JsonAccepted` | script.js:181 | "a.json" is accepted |
| `Scenarios.StageJson` | script.js:179-182 | choosing only "a.json" stages exactly it |
| `Scenarios.FailedNavbarKeepsFiles` | script.js:263-270 | a failed "navbar" request keeps the staged files, ends with the generic error and re-enables the button |
| `Scenarios.FailedRequestKeepsFiles` | script.js:179-270 | with "a.json" staged, a failed request leaves "a.json" staged |
| `Scenarios.HelMentionsNothing` | script.js:35-43 | "hel" names no category |
| `Scenarios.HelNavbarIsNavbar` | script.js:15 | "hel navbar" names a navbar |
| `Scenarios.ThrottleClassifiesFirst` | script.js:127-141 | typing "he", "hel", "hel navbar" quickly classifies "hel" and shows no indicator, although the last text names a navbar |

## Left out

- Text.Lower: folds only ASCII letters. `toLowerCase` folds all of Unicode, so keywords that a non-ASCII query would contain only after full folding are not modelled. The file filter is exact, because an `i` regular expression with ASCII letters folds only ASCII.
- LiveAnalysis.OnInput: measures the text in characters. `query.length` counts UTF-16 units, so the 3-character threshold differs for characters outside the Basic Multilingual Plane.
- Staging.RemoveAt: takes an integer index. A non-integer `index` passed to `splice` is not modelled. The rendered remove buttons always pass an integer.
- Rendering is not modelled: `innerHTML` templates, `addBotMessage`/`addUserMessage` markup, `escapeHtml`, `scrollToBottom`, `autoResize`, the typing-indicator markup and the drag-over class toggling. These are presentation only. The log is a sequence of abstract messages, and the indicator is one boolean.
- The send button's label text and spinner are folded into one `sendDisabled` flag.
- `fetch`, `FormData` and `response.json()` are network I/O. They are replaced by an `Outcome` parameter: an HTTP status with a body that parsed (its `code`) or did not, or no response. A parsed body without a `code` field is not modelled.
- `console.error` logging is not modelled.
- `readFileContent` is asynchronous `FileReader` I/O and is never called. File contents are not modelled; a file is its name and size.
- The size display `(file.size/1024).toFixed(1)` is floating-point formatting.
- The 500 ms `setTimeout` delay is not modelled. Timers are an explicit queue, and `OnTimer` fires the oldest one.
- The `await` on `prepareSmartQuery` yields only to microtasks, so `Begin` treats everything up to the `fetch` as one atomic step.
- The `suggestion` text of a detected category (script.js:40) is never read by any caller, so it is not modelled; only the canned replies' suggestions, which `prepareSmartQuery` shows, are.
- BotLaws.Step: accepts a `Settled` event whether or not a request is pending, so `BotLaws.Run` also covers runs that settle requests never dispatched. This over-approximates the event runs the page can produce; the invariants proved along runs (`BotLaws.RunKeepsGate`) hold for every run and so for the real ones too.
- Bot.Init: the empty query box and the enabled send button are taken from the page's markup, which script.js does not set; the script itself sets only the empty file list, the cleared `isTyping` flag and the welcome message.
- Event-listener wiring is not modelled. Each handler is an entry point of `Bot`, and `BotLaws.Step` dispatches on an event.
