/** The state machine of `HainzelmanWidget`: the reactive `state` record
    whose setter deduplicates and fires side effects, chat bootstrap, the
    two halves of a send around its single `await`, the Enter-key test, the
    panel toggle and the role-to-icon choice.

    The DOM is reduced to what the state machine drives: the transcript (the
    rendered message list), the typing indicator, the input's `disabled` flag
    and value, and whether the panel is open. `storedId` stands in for the
    one localStorage key the widget writes. */
module Widget {
  import Js
  import opened Options
  import opened Gateway

  /** Host configuration the state machine reads. */
  datatype Config = Config(greetingMessage: Js.Value, supportEmail: Js.Value)

  /** The chat as the widget holds it once bootstrap succeeded. */
  datatype Chat = Chat(id: Option<string>, messages: seq<Message>)

  /** `state.chat`: the empty placeholder object until bootstrap succeeds. */
  datatype ChatSlot = Placeholder | Loaded(chat: Chat)

  datatype State = State(
    // fields of the reactive `state` record
    chat: ChatSlot,
    minimized: bool,
    redirectToHuman: bool,
    waitingResponse: bool,
    // DOM the setter and the send flow drive
    typingVisible: bool,
    inputDisabled: bool,
    inputValue: string,
    windowOpen: bool,
    transcript: seq<Message>,
    // the persisted chat id
    storedId: Option<string>)

  /** The role strings the widget itself writes into the transcript. */
  const UserRole := "user"
  const AssistantRole := "assistant"
  const ErrorRole := "assistant-err"

  /** The text shown when a send resolves to the falsy sentinel. */
  const FailureText := "Something went wrong"

  /** The textarea's `maxlength`. */
  const MaxInput := 5000

  /** A freshly constructed widget: placeholder chat, minimized, no handoff,
      nothing pending, typing indicator and panel hidden, empty input. */
  function Initial(stored: Option<string>): (st: State)
    ensures st.chat == Placeholder && st.transcript == [] && st.inputValue == ""
    ensures st.minimized && !st.redirectToHuman && !st.waitingResponse && !st.windowOpen
    ensures st.storedId == stored
    ensures Lockstep(st)
  {
    State(Placeholder, true, false, false, false, false, "", false, [], stored)
  }

  /** The typing indicator and the input's `disabled` flag both mirror
      `waitingResponse`. */
  predicate Lockstep(st: State) {
    st.typingVisible == st.waitingResponse && st.inputDisabled == st.waitingResponse
  }

  /** The state facts every reachable state keeps. */
  predicate Inv(st: State) {
    Lockstep(st) && |st.inputValue| <= MaxInput
  }

  // ---------------------------------------------------------------------
  // The reactive setter
  // ---------------------------------------------------------------------

  /** An assignment `state.<field> = value`. The code only ever assigns a
      real chat object to `chat`, never the placeholder. */
  datatype Assignment =
    | SetChat(chat: Chat)
    | SetMinimized(minimized: bool)
    | SetRedirect(redirect: bool)
    | SetWaiting(waiting: bool)

  /** The trap's `target[property] !== value` test fails. */
  predicate AlreadyHolds(st: State, a: Assignment) {
    match a
    case SetChat(c) => st.chat == Loaded(c)
    case SetMinimized(b) => st.minimized == b
    case SetRedirect(b) => st.redirectToHuman == b
    case SetWaiting(b) => st.waitingResponse == b
  }

  /** Every field except the one assigned, and the DOM its effect drives,
      is as before. */
  predicate OnlyTouches(st: State, r: State, a: Assignment) {
    && r.windowOpen == st.windowOpen && r.inputValue == st.inputValue
    && r.storedId == st.storedId
    && (!a.SetChat? ==> r.chat == st.chat && r.transcript == st.transcript)
    && (!a.SetMinimized? ==> r.minimized == st.minimized)
    && (!a.SetRedirect? ==> r.redirectToHuman == st.redirectToHuman)
    && (!a.SetWaiting? ==> r.waitingResponse == st.waitingResponse
                           && r.typingVisible == st.typingVisible
                           && r.inputDisabled == st.inputDisabled)
  }

  /** The `set` trap of the `state` Proxy. Assigning the value a field
      already holds does nothing at all. Otherwise the field takes the value
      and its side effect fires: a new chat has all its messages appended to
      the transcript, after what is already there; a new `waitingResponse`
      shows or hides the typing indicator and disables or enables the input
      together. */
  function Set(st: State, a: Assignment): (r: State)
    ensures AlreadyHolds(st, a) ==> r == st
    ensures AlreadyHolds(r, a)
    ensures OnlyTouches(st, r, a)
    ensures a.SetChat? && !AlreadyHolds(st, a) ==>
      r.transcript == st.transcript + a.chat.messages
    ensures a.SetWaiting? && !AlreadyHolds(st, a) ==>
      r.typingVisible == a.waiting && r.inputDisabled == a.waiting
    ensures Lockstep(st) ==> Lockstep(r)
  {
    if AlreadyHolds(st, a) then st
    else
      match a
      case SetChat(c) => st.(chat := Loaded(c), transcript := st.transcript + c.messages)
      case SetMinimized(b) => st.(minimized := b)
      case SetRedirect(b) => st.(redirectToHuman := b)
      case SetWaiting(b) => st.(waitingResponse := b, typingVisible := b, inputDisabled := b)
  }

  /** Assigning the same value twice is the same as assigning it once. */
  lemma SetIdempotent(st: State, a: Assignment)
    ensures Set(Set(st, a), a) == Set(st, a)
  {
  }

  // ---------------------------------------------------------------------
  // Bootstrap
  // ---------------------------------------------------------------------

  /** The request bootstrap issues. The lookup of a stored chat id is
      commented out in the widget, so it always creates a new chat and never
      resumes the one whose id is stored. */
  function BootstrapCall(st: State): (c: Call)
    ensures !c.IsSend() && !c.GetChat?
  {
    CreateChat
  }

  /** The greeting that opens every chat the widget loads. */
  function Greeting(cfg: Config): Message {
    Message(cfg.greetingMessage, AssistantRole)
  }

  /** The chat the widget builds from a backend chat: the greeting, then the
      backend's history, if any. */
  function WithGreeting(cfg: Config, bc: BackendChat): (c: Chat)
    ensures c.id == bc.id
    ensures |c.messages| >= 1 && c.messages[0] == Greeting(cfg)
    ensures bc.messages.Some? ==> c.messages[1..] == bc.messages.value
    ensures bc.messages.None? ==> c.messages == [Greeting(cfg)]
  {
    Chat(bc.id, [Greeting(cfg)] + (if bc.messages.Some? then bc.messages.value else []))
  }

  /** `localStorage.setItem` stores the text of the id; an absent id is
      stored as the text "undefined". */
  function IdText(id: Option<string>): string {
    if id.Some? then id.value else "undefined"
  }

  /** `initChat` once its request has resolved. On the falsy sentinel the
      stored id is removed and nothing else changes. On a chat, the chat with
      the greeting in front is assigned through the setter, which appends its
      messages to the transcript, and its id is stored. */
  function InitChat(st: State, cfg: Config, created: Option<BackendChat>): (r: State)
    ensures created.None? ==> r == st.(storedId := None)
    ensures created.Some? ==>
      && r.chat == Loaded(WithGreeting(cfg, created.value))
      && r.chat.chat.messages[0] == Greeting(cfg)
      && r.storedId == Some(IdText(created.value.id))
      && r.redirectToHuman == st.redirectToHuman
      && r.waitingResponse == st.waitingResponse
      && r.typingVisible == st.typingVisible && r.inputDisabled == st.inputDisabled
      && r.inputValue == st.inputValue && r.windowOpen == st.windowOpen
      && r.minimized == st.minimized
    ensures created.Some? && st.chat != r.chat ==>
      r.transcript == st.transcript + r.chat.chat.messages
    ensures created.Some? && st.chat == r.chat ==> r.transcript == st.transcript
  {
    if created.None? then st.(storedId := None)
    else
      var s1 := Set(st, SetChat(WithGreeting(cfg, created.value)));
      s1.(storedId := Some(IdText(s1.chat.chat.id)))
  }

  /** Whatever chat id is stored, bootstrap loads the same chat: with the
      lookup commented out, the stored id never influences it, and is only
      ever overwritten or removed. */
  lemma BootIgnoresStoredId(st: State, cfg: Config, created: Option<BackendChat>, x: Option<string>)
    ensures InitChat(st.(storedId := x), cfg, created) == InitChat(st, cfg, created)
    ensures BootstrapCall(st.(storedId := x)) == BootstrapCall(st)
  {
  }

  // ---------------------------------------------------------------------
  // Sending a message
  // ---------------------------------------------------------------------

  /** The state after the first half of a send, and the request it issued,
      if any. */
  datatype Dispatch = Dispatch(state: State, call: Option<Call>)

  /** `state.chat.id`, which reads as `undefined` on the placeholder. */
  function ChatId(st: State): Option<string> {
    if st.chat.Loaded? then st.chat.chat.id else None
  }

  /** `sendMessage` up to its `await`. A prompt that trims to nothing is
      dropped: no state changes and no request goes out. Otherwise the
      widget starts waiting, clears the input, renders the prompt as a user
      message, and routes the prompt to the contact endpoint, with the
      support address, exactly when the handoff flag is set, and to the chat
      endpoint otherwise. */
  function BeginSend(st: State, cfg: Config): (d: Dispatch)
    ensures d.call.None? <==> Js.IsBlank(st.inputValue)
    ensures d.call.None? ==> d.state == st
    ensures d.call.Some? ==>
      && d.call.value.IsSend()
      && d.call.value.prompt == st.inputValue
      && d.call.value.chatId == ChatId(st)
      && (d.call.value.SendContactData? <==> st.redirectToHuman)
      && (d.call.value.SendContactData? ==> d.call.value.supportEmail == cfg.supportEmail)
    ensures d.call.Some? ==>
      && d.state.waitingResponse
      && d.state.inputValue == ""
      && d.state.transcript == st.transcript + [Message(Js.Str(st.inputValue), UserRole)]
      && d.state.chat == st.chat
      && d.state.redirectToHuman == st.redirectToHuman
      && d.state.storedId == st.storedId
      && d.state.windowOpen == st.windowOpen
      && d.state.minimized == st.minimized
    ensures d.call.Some? && !st.waitingResponse ==>
      d.state.typingVisible && d.state.inputDisabled
    ensures Lockstep(st) ==> Lockstep(d.state)
  {
    var prompt := st.inputValue;
    if Js.IsBlank(prompt) then Dispatch(st, None)
    else
      var s := StartWaiting(st, prompt);
      Dispatch(s, Some(Route(s, cfg, prompt)))
  }

  /** The state changes of a send that goes out: the widget starts waiting,
      the input is cleared and the prompt is rendered as a user message. */
  function StartWaiting(st: State, prompt: string): (r: State)
    ensures r.waitingResponse && r.inputValue == ""
    ensures r.transcript == st.transcript + [Message(Js.Str(prompt), UserRole)]
    ensures r.chat == st.chat && r.redirectToHuman == st.redirectToHuman
    ensures r.storedId == st.storedId && r.windowOpen == st.windowOpen
    ensures r.minimized == st.minimized
    ensures !st.waitingResponse ==> r.typingVisible && r.inputDisabled
    ensures Lockstep(st) ==> Lockstep(r)
  {
    var s1 := Set(st, SetWaiting(true));
    s1.(inputValue := "", transcript := s1.transcript + [Message(Js.Str(prompt), UserRole)])
  }

  /** The request a send issues: the contact endpoint once the handoff flag
      is set, the chat endpoint before. */
  function Route(st: State, cfg: Config, prompt: string): (c: Call)
    ensures c.IsSend() && c.prompt == prompt && c.chatId == ChatId(st)
    ensures c.SendContactData? <==> st.redirectToHuman
    ensures c.SendContactData? ==> c.supportEmail == cfg.supportEmail
  {
    if st.redirectToHuman then SendContactData(ChatId(st), prompt, cfg.supportEmail)
    else SendMessage(ChatId(st), prompt)
  }

  /** The message a send resolves to, as rendered: the reply's `response`
      as an assistant message, or the failure text under the error role.
      Either way `messageTemplate` has an icon for it, and the error icon
      marks exactly the failures. */
  function ReplyMessage(reply: Option<Payload>): (m: Message)
    ensures m.role in {AssistantRole, ErrorRole}
    ensures m.role == ErrorRole <==> reply.None?
    ensures IconFor(m.role) != NoIcon
    ensures IconFor(m.role) == GlobeErrorIcon <==> reply.None?
  {
    if reply.None? then Message(Js.Str(FailureText), ErrorRole)
    else Message(Js.Get(reply.value, "response"), AssistantRole)
  }

  /** `sendMessage` after its `await`, as the widget has it. On the falsy
      sentinel it renders the failure message and returns at once, so the
      handoff flag and `waitingResponse` stay as they were. On a reply it
      latches the handoff flag if the reply signals a handoff (never
      clearing it), renders the reply's `response`, and stops waiting. */
  function CompleteSend(st: State, reply: Option<Payload>): (r: State)
    ensures r.transcript == st.transcript + [ReplyMessage(reply)]
    ensures reply.None? ==> r.redirectToHuman == st.redirectToHuman
    ensures reply.Some? ==> r.redirectToHuman == (st.redirectToHuman || HandoffSignal(reply.value))
    ensures reply.None? ==> r.waitingResponse == st.waitingResponse
                            && r.typingVisible == st.typingVisible
                            && r.inputDisabled == st.inputDisabled
    ensures reply.Some? ==> !r.waitingResponse
    ensures reply.Some? && st.waitingResponse ==> !r.typingVisible && !r.inputDisabled
    ensures r.chat == st.chat && r.inputValue == st.inputValue && r.storedId == st.storedId
    ensures r.windowOpen == st.windowOpen && r.minimized == st.minimized
    ensures Lockstep(st) ==> Lockstep(r)
  {
    match reply
    case None => st.(transcript := st.transcript + [ReplyMessage(reply)])
    case Some(d) =>
      var s1 := if HandoffSignal(d) then Set(st, SetRedirect(true)) else st;
      var s2 := s1.(transcript := s1.transcript + [ReplyMessage(reply)]);
      Set(s2, SetWaiting(false))
  }

  /** `sendMessage` after its `await` with the failure branch also clearing
      `waitingResponse`, which is what a caller of the widget expects: every
      completed send, failed or not, leaves the widget idle with its input
      enabled. Otherwise identical to `CompleteSend`. */
  function CompleteSendCorrected(st: State, reply: Option<Payload>): (r: State)
    ensures r.transcript == st.transcript + [ReplyMessage(reply)]
    ensures r.redirectToHuman ==
      (st.redirectToHuman || (reply.Some? && HandoffSignal(reply.value)))
    ensures !r.waitingResponse
    ensures st.waitingResponse ==> !r.typingVisible && !r.inputDisabled
    ensures r.chat == st.chat && r.inputValue == st.inputValue && r.storedId == st.storedId
    ensures r.windowOpen == st.windowOpen && r.minimized == st.minimized
    ensures Lockstep(st) ==> Lockstep(r)
  {
    match reply
    case None =>
      Set(st.(transcript := st.transcript + [ReplyMessage(reply)]), SetWaiting(false))
    case Some(_) => CompleteSend(st, reply)
  }

  // ---------------------------------------------------------------------
  // Input, panel and rendering
  // ---------------------------------------------------------------------

  /** The input `onkeydown` test: the Enter key with Alt up submits. Shift,
      Ctrl and Meta are not consulted. */
  predicate SubmitsOnKey(code: string, altKey: bool) {
    code == "Enter" && !altKey
  }

  /** The browser's own handling of text typed into the textarea: a disabled
      input ignores it, and an enabled one keeps at most `maxlength`
      characters. */
  function TypeText(st: State, text: string): (r: State)
    ensures st.inputDisabled ==> r == st
    ensures !st.inputDisabled ==> r.inputValue == text[..if |text| <= MaxInput then |text| else MaxInput]
    ensures |st.inputValue| <= MaxInput ==> |r.inputValue| <= MaxInput
    ensures r == st.(inputValue := r.inputValue)
  {
    if st.inputDisabled then st
    else if |text| <= MaxInput then st.(inputValue := text)
    else st.(inputValue := text[..MaxInput])
  }

  /** `toggleWindow`: opens a closed panel and closes an open one; nothing
      else changes. The animation and scrolling are not modelled. */
  function ToggleWindow(st: State): (r: State)
    ensures r.windowOpen != st.windowOpen
    ensures r == st.(windowOpen := r.windowOpen)
  {
    st.(windowOpen := !st.windowOpen)
  }

  /** Toggling twice restores the panel. */
  lemma ToggleInvolution(st: State)
    ensures ToggleWindow(ToggleWindow(st)) == st
  {
  }

  datatype Icon = GlobeIcon | PersonIcon | GlobeErrorIcon | NoIcon

  /** The role switch of `messageTemplate`. */
  function IconFor(role: string): Icon {
    match role
    case "assistant" => GlobeIcon
    case "user" => PersonIcon
    case "assistant-err" => GlobeErrorIcon
    case _ => NoIcon
  }

  /** Exactly the three roles the widget writes get an icon, each a
      different one; any other role, including "assistant-error", gets
      none. */
  lemma IconCases(role: string)
    ensures IconFor(role) != NoIcon <==> role in {UserRole, AssistantRole, ErrorRole}
    ensures IconFor(UserRole) != IconFor(AssistantRole)
    ensures IconFor(UserRole) != IconFor(ErrorRole)
    ensures IconFor(AssistantRole) != IconFor(ErrorRole)
    ensures IconFor("assistant-error") == NoIcon
  {
  }
}
