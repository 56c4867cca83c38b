# Hainzelman chat widget — state machine model

A Dafny model of the state machine inside `HainzelmanWidget`, the embeddable
chat widget. The widget keeps a reactive `state` record (`chat`, `minimized`,
`redirectToHuman`, `waitingResponse`) behind a Proxy whose `set` trap
skips assignments of the value a field already holds. Otherwise it stores
the value, and for `chat` and `waitingResponse` it also fires a side effect. It bootstraps a chat on construction, sends the user's prompt
to the backend, and renders the reply. A reply can hand the conversation to
a human, which latches: from then on prompts go to the contact endpoint.

The model is functional. `Widget.State` is an immutable record holding the
reactive fields plus the parts of the DOM they drive: the rendered
transcript, the typing indicator, the input's `disabled` flag and value, and
whether the panel is open. It also has `storedId`, which stands for the
single localStorage key. Each operation is a pure transition. Every backend
round trip is an `Option` parameter, because the widget only tests the
result for truthiness. `None` stands for every falsy result. That includes
the sentinels `HainzelmanUtil` resolves to on failure: `undefined` after a
non-ok status in `createChat`, and `false` after any thrown error. It also
includes a missing or falsy `result` property, which is what `createChat`
returns on success, and a send body of `null`, `false`, `0` or `""`.

Modules:

- `Options`: the `Option` type used for chat ids, the stored id and round
  trip results.
- `Js`: the JavaScript values a decoded JSON body can hold. It defines
  truthiness, property reads that give `undefined`, and
  `String.prototype.trim` with the whitespace set of ECMA-262 (sections 12.2
  and 12.3).
- `Gateway`: the four `HainzelmanUtil` requests as data (`Call`), the chat
  and reply shapes, and the handoff test applied to a reply.
- `Widget`: the state record and its transitions:
  - the setter (`Set`);
  - bootstrap (`BootstrapCall`, `InitChat`);
  - the two halves of `sendMessage` around its one `await` (`BeginSend`,
    `CompleteSend`);
  - the Enter-key test, typing, the panel toggle and the role-to-icon switch.
- `Session`: events, `Step` and `Run` over event sequences, and the
  properties of whole sessions. A send is one atomic event. `Build`
  selects whether a send completes as the code has it (`AsWritten`) or with
  the correction described under Findings (`Corrected`). Lemmas that take a
  `Build` hold for both.

The model keeps the following behaviours of the code exactly as written,
although a reader of the widget might expect otherwise:

- A send that fails renders the error and returns early. It never clears
  `waitingResponse`, so the input stays disabled (see Findings).
- Assigning a new chat appends its messages to the rendered transcript. It
  does not replace what is already shown.
- Bootstrap always creates a new chat. The lookup of the stored id is
  commented out, so `getChat` is never called.
- The error role is `"assistant-err"`, not `"assistant-error"`. Any other
  role string gets no icon.
- The Enter-key test only checks Alt. Shift+Enter also sends.
- Bootstrap is not awaited before the input is usable. A send that finishes
  first is rendered before the greeting.

## Model

| member | source | states |
|---|---|---|
| Widget.Initial | widget/hainzelman-widget.js:164-170 | a new widget holds the placeholder chat, is minimized, has no handoff and nothing pending, keeps the stored id it was given, and its typing indicator and input flags agree with `waitingResponse` |
| Widget.Set | widget/hainzelman-widget.js:172-185 | assigning a value a field already holds changes nothing; otherwise the field reads back the value, and only that field and its own side effect change; a new chat appends all its messages after the existing transcript; a new `waitingResponse` sets the typing indicator and the input's disabled flag to that value together |
| Widget.SetIdempotent | widget/hainzelman-widget.js:172-185 | assigning the same value twice is the same as assigning it once |
| Widget.BootstrapCall | widget/hainzelman-widget.js:221-224 | bootstrap issues neither a send nor `getChat`, whatever id is stored: it always creates a chat |
| Widget.BootIgnoresStoredId | widget/hainzelman-widget.js:221-240 | the stored chat id has no influence on bootstrap: the request and the resulting state are the same whatever id is stored |
| Widget.WithGreeting | widget/hainzelman-widget.js:230-239 | the loaded chat keeps the backend's id, starts with the assistant greeting, then has the backend's messages in order, or nothing after the greeting when they are absent |
| Widget.InitChat | widget/hainzelman-widget.js:221-241 | on the falsy sentinel only the stored id is removed; on a chat, the chat with the greeting first is loaded, its messages are appended to the transcript when it differs from the current chat, its id is stored (as the text "undefined" when the backend omitted it), and the handoff, waiting, input and panel state are untouched |
| Widget.BeginSend | widget/hainzelman-widget.js:327-341 | a prompt that trims to empty changes nothing and issues no request, and only such a prompt does; otherwise the widget waits, the input is cleared, exactly one user message with the untrimmed prompt is appended, and the request, carrying the loaded chat's id or an undefined id before bootstrap succeeded, goes to the contact endpoint with the support address exactly when the handoff flag is set, to the chat endpoint otherwise |
| Widget.StartWaiting | widget/hainzelman-widget.js:331-334 | a send that goes out sets the widget waiting, clears the input and appends exactly the prompt as a user message, and leaves the chat, handoff flag, stored id and panel alone; from idle, the typing indicator shows and the input is disabled |
| Widget.Route | widget/hainzelman-widget.js:336-341 | the endpoint is chosen by the handoff flag alone; the prompt and chat id are passed through |
| Widget.ReplyMessage | widget/hainzelman-widget.js:342-350 | a completed send renders under the error role exactly when it failed and under the assistant role otherwise, and either role has an icon, the error icon exactly for failures |
| Widget.CompleteSend | widget/hainzelman-widget.js:342-351 | for a reply that is an object or the falsy sentinel, exactly one message is appended; on failure the handoff flag, `waitingResponse` and the input flags stay as they were; on a reply the handoff flag becomes its old value or the reply's handoff signal, so it is never cleared, and waiting stops |
| Widget.CompleteSendCorrected | widget/hainzelman-widget.js:342-351 | the same, except that every completed send, failed or not, stops waiting and enables the input |
| Session.KeyPressIsSendButton | widget/hainzelman-widget.js:286-291 | a key press in the input acts exactly as the send button when its code is "Enter" and Alt is up, whatever Shift says, and changes nothing otherwise; NumpadEnter and Alt+Enter never send |
| Widget.TypeText | widget/hainzelman-widget.js:17 | typing into a disabled input changes nothing; an enabled input keeps at most 5000 characters of what is typed; nothing else changes |
| Widget.ToggleWindow | widget/hainzelman-widget.js:304-325 | the panel flips between open and closed and nothing else changes |
| Widget.ToggleInvolution | widget/hainzelman-widget.js:304-325 | toggling twice restores the state |
| Widget.IconCases | widget/hainzelman-widget.js:27-42 | exactly the roles "user", "assistant" and "assistant-err" get an icon, each a different one; "assistant-error" gets none |
| Js.TrimStartSpec | widget/hainzelman-widget.js:329 | the leading trim removes only whitespace, and the longest such prefix: what it keeps is a suffix of the string that does not open with whitespace |
| Js.TrimEndSpec | widget/hainzelman-widget.js:329 | the trailing trim removes only whitespace, and the longest such suffix: what it keeps is a prefix of the string that does not close with whitespace |
| Js.TrimSpec | widget/hainzelman-widget.js:329 | the trimmed prompt is one contiguous run of the prompt, starting right after its leading whitespace, that neither opens nor closes with whitespace, and everything dropped on either side is whitespace |
| Js.TrimEmptyIffAllWhitespace | widget/hainzelman-widget.js:329 | a prompt trims to empty exactly when every character of it is whitespace |
| Js.TrimIdempotent | widget/hainzelman-widget.js:329 | trimming a trimmed prompt changes nothing |
| Gateway.EmailFlagsMustBothBePresent | widget/hainzelman-widget.js:346 | `validEmail: true` without a `validMail` key does not hand off, a truthy `validMail` without `validEmail` does not either, and a falsy `validMail` with a truthy `validEmail` does |
| Session.Complete | widget/hainzelman-widget.js:342-351 | in either build, completing a send appends exactly the reply's message; the handoff flag afterwards is its old value or the reply's handoff signal; waiting stops on a reply, and on a failure only in the corrected build, while as written a failure leaves `waitingResponse` as it was; the chat, input value, stored id and panel are untouched |
| Session.Send | widget/hainzelman-widget.js:327-351 | a blank prompt changes nothing; otherwise the user message and then the reply message are appended, in that order, the input is cleared, the handoff flag becomes its old value or the reply's signal, and the widget stops waiting after a reply, after a failure only in the corrected build, while as written a failure leaves it waiting; the chat and the stored id are untouched |
| Session.Step | widget/hainzelman-widget.js:172-351 | every event keeps the handoff flag once set, changes it only when it carries a reply signalling a handoff, keeps the indicator and input flags in lockstep with `waitingResponse`, and only extends the transcript |
| Session.RunKeepsInv | widget/hainzelman-widget.js:176-181 | over any sequence of events, the typing indicator and the input's disabled flag always equal `waitingResponse`, and the input stays within its length limit |
| Session.HandoffLatches | widget/hainzelman-widget.js:346-348 | once the handoff flag is set, it stays set over any sequence of events |
| Session.HandoffOnlyBySignal | widget/hainzelman-widget.js:346-348 | over a sequence of events in which no reply signals a handoff, the handoff flag never changes, so it is never raised |
| Session.TranscriptAppendOnly | widget/hainzelman-widget.js:249-265 | over any sequence of events, the earlier transcript is a prefix of the later one |
| Session.GreetingFirst | widget/hainzelman-widget.js:230-239 | when a fresh widget's first event is a successful bootstrap, the greeting is the first rendered message after any further events |
| Session.SendBeforeBootPrecedesGreeting | widget/hainzelman-widget.js:215-216 | a user who opens the panel, types a prompt and sends it before bootstrap resolves sees the prompt rendered ahead of the greeting |
| Session.FailedSendLocksInput | widget/hainzelman-widget.js:342-343 | as written, a failed send from an idle widget leaves it waiting, with an empty, disabled input |
| Session.StuckStep | widget/hainzelman-widget.js:328-329 | in a widget whose input is disabled and blank, a send does nothing, and no event enables the input or clears `waitingResponse` |
| Session.StuckForever | widget/hainzelman-widget.js:328-329 | once the input is disabled and blank, it stays so over any sequence of events, and `waitingResponse` and the handoff flag never change again |
| Session.CorrectedFailureReleasesInput | widget/hainzelman-widget.js:342-351 | with the correction, a failed send appends the prompt and then the error message, and leaves the widget idle with its input enabled |
| Session.CorrectedNeverLeftWaiting | widget/hainzelman-widget.js:327-351 | with the correction, a session that starts idle is idle, with its input enabled, after every event |
| Session.ScenarioNewChat | widget/hainzelman-widget.js:221-241 | bootstrap of a chat "s1" with no history shows only the greeting and stores "s1" |
| Session.ScenarioBootFails | widget/hainzelman-widget.js:226-228 | a failed bootstrap removes the stored id and leaves the placeholder chat, whose id later sends carry as undefined |
| Session.ScenarioRedirect | widget/hainzelman-widget.js:337-351 | a reply with `redirect: true` sets the handoff flag, and any next non-blank prompt goes to the contact endpoint with the support address |
| Session.ScenarioPlainReply | widget/hainzelman-widget.js:327-351 | a plain reply appends the prompt and then the answer, leaves the handoff flag clear and the widget idle |
| Session.ScenarioBlankPrompt | widget/hainzelman-widget.js:328-329 | a prompt of spaces, a tab and a newline issues no request and changes nothing |

## Left out

- The network layer is not modelled: HTTP, the `fetch` calls, headers, JSON bodies and URL paths. Each round trip is an `Option` parameter, and the model keeps only the falsy-on-failure result.
- Presentation is not modelled: the HTML and SVG template strings, the icon markup, font links, CSS classes and animation timers. The role-to-icon switch is kept as `IconFor`.
- Markdown rendering through `window.markdownit` is a foreign global library, so it is not modelled. A transcript entry keeps the raw content.
- Scrolling and input focus are DOM geometry and focus. They do not affect the state.
- The global `console` override only controls logging.
- localStorage is reduced to the one `storedId` field. `getChat` appears only as a `Call` constructor, because the code never reaches it.
- Overlapping sends are not modelled. Each send is one atomic event, and only bootstrap may resolve between other events. So a bootstrap that resolves while a send awaits its reply is not modelled either; in the code that renders the prompt, the greeting and history, then the reply. `Session.StuckForever` relies on this: it speaks only of states with no send in flight.
- Widget.Set: compares a new chat with the current one by value, where JavaScript compares references. The two agree on the only chat assignment the code makes, which replaces the placeholder with a freshly built object. A repeated bootstrap with identical data would fire in JavaScript but not here.
- Non-string chat ids and roles are not modelled. A truthy result from `createChat` that is not an object needs nothing extra: the spread yields an object with no id and no messages, which is `BackendChat(None, None)`.
- Widget.CompleteSend: a send reply is always an object here, and its `response` is rendered as is. Two paths where the code throws after the `await` are not modelled. A truthy reply that is not an object, such as `true`, `1` or `"ok"`, makes the `in` test of the handoff check throw a TypeError. When `window.markdownit` is loaded, a `response` that is not a string makes `md.render` throw. In both cases nothing is rendered for the reply and `waitingResponse` stays true, so the input stays disabled as on the failure path.
- Widget.InitChat: a backend chat here has string-role messages or none, and the greeting and every content are rendered as they are. Three paths where `initChat` throws are not modelled. A truthy `messages` that cannot be iterated makes the spread throw before the chat is assigned; a `messages` string is spread into one message per character, with no role or content. A `null` entry in `messages` makes the history loop throw when it reads its content. When `window.markdownit` is loaded, a greeting or history content that is not a string, such as an unset `greetingMessage`, makes `md.render` throw inside the setter, after the chat is assigned. In the last two cases the rest of the history is not rendered. In all three the id is neither stored nor removed.
- Widget.ToggleWindow: closing adds `hidden` only inside a 300 ms timer. A second click within those 300 ms still sees the panel open and runs the close branch again instead of reopening. The model flips at once, so `Widget.ToggleInvolution` holds only for clicks more than 300 ms apart.
- Widget.TypeText: counts the 5000-character `maxlength` in characters (Unicode scalar values). The browser counts UTF-16 code units, so a prompt with characters outside the Basic Multilingual Plane is cut shorter there than here.
- `minimized` is part of the state record, but the code never assigns it. The panel's open state is the DOM `hidden` class, modelled as `windowOpen`.

## Findings

| source | as written | input that shows it | evidently intended | confidence | as-written member | corrected member |
|---|---|---|---|---|---|---|
| widget/hainzelman-widget.js:342-343 | when a send resolves to the falsy sentinel, `sendMessage` returns right after rendering the error, skipping `waitingResponse = false` | an idle widget, a non-blank prompt, and a network error on the send: the input is left disabled and empty, so every later send is dropped as blank and nothing can re-enable it | the failure path also clears `waitingResponse`, so the typing indicator hides and the input is enabled again | high; not executed | Session.FailedSendLocksInput | Widget.CompleteSendCorrected |
