/** Whole sessions of the widget: the events a page can deliver, one step
    per event, and what holds of every sequence of them.

    A send is taken as one atomic event (both halves, with the reply it
    awaited), so sends never overlap here. Bootstrap may resolve at any
    point, since `initChat` is not awaited before the widget is usable.

    `Build` selects how a send completes: `AsWritten` is the widget's code,
    `Corrected` clears `waitingResponse` on the failure path too. Every
    lemma that does not name a build holds for both. */
module Session {
  import Js
  import opened Options
  import opened Gateway
  import opened Widget

  datatype Build = AsWritten | Corrected

  /** What asks for a send: the send button, or a key pressed in the input. */
  datatype Trigger = SendButton | KeyDown(code: string, altKey: bool)

  datatype Event =
    | Boot(created: Option<BackendChat>)   // the bootstrap request resolved
    | Toggle                                // the bubble was clicked
    | Type(text: string)                    // the user edited the input
    | Press(trigger: Trigger, reply: Option<Payload>)  // a send, with what it awaited

  predicate Fires(t: Trigger) {
    match t
    case SendButton => true
    case KeyDown(code, alt) => SubmitsOnKey(code, alt)
  }

  /** The second half of a send in either build: one message is appended,
      the handoff flag is raised exactly by a reply that signals a handoff,
      and waiting stops on a reply, and in the corrected build on a failure
      too. */
  function Complete(b: Build, st: State, reply: Option<Payload>): (r: State)
    ensures r.transcript == st.transcript + [ReplyMessage(reply)]
    ensures r.redirectToHuman == (st.redirectToHuman || (reply.Some? && HandoffSignal(reply.value)))
    ensures reply.Some? || b == Corrected ==> !r.waitingResponse
    ensures reply.None? && b == AsWritten ==> r.waitingResponse == st.waitingResponse
    ensures r.chat == st.chat && r.inputValue == st.inputValue
    ensures r.storedId == st.storedId && r.windowOpen == st.windowOpen
    ensures Lockstep(st) ==> Lockstep(r)
  {
    match b
    case AsWritten => CompleteSend(st, reply)
    case Corrected => CompleteSendCorrected(st, reply)
  }

  /** One whole send: the prompt and then the reply are appended, in that
      order; a blank prompt changes nothing. */
  function Send(b: Build, st: State, cfg: Config, reply: Option<Payload>): (r: State)
    ensures Js.IsBlank(st.inputValue) ==> r == st
    ensures !Js.IsBlank(st.inputValue) ==>
      && r.transcript == st.transcript + [Message(Js.Str(st.inputValue), UserRole), ReplyMessage(reply)]
      && r.inputValue == ""
    ensures !Js.IsBlank(st.inputValue) ==>
      r.redirectToHuman == (st.redirectToHuman || (reply.Some? && HandoffSignal(reply.value)))
    ensures !Js.IsBlank(st.inputValue) ==>
      (reply.Some? || b == Corrected ==> !r.waitingResponse)
    ensures !Js.IsBlank(st.inputValue) && reply.None? && b == AsWritten ==> r.waitingResponse
    ensures r.chat == st.chat && r.storedId == st.storedId && r.windowOpen == st.windowOpen
    ensures st.redirectToHuman ==> r.redirectToHuman
    ensures Inv(st) ==> Inv(r)
  {
    var d := BeginSend(st, cfg);
    if d.call.None? then st
    else
      var r := Complete(b, d.state, reply);
      assert r.transcript == d.state.transcript + [ReplyMessage(reply)];
      r
  }

  /** `b` is `a` with zero or more messages appended. */
  predicate Extends(a: seq<Message>, b: seq<Message>) {
    |a| <= |b| && b[..|a|] == a
  }

  /** An event that carries a reply asking for a handoff. */
  predicate SignalsHandoff(e: Event) {
    e.Press? && e.reply.Some? && HandoffSignal(e.reply.value)
  }

  function Step(b: Build, st: State, cfg: Config, e: Event): (r: State)
    ensures st.redirectToHuman ==> r.redirectToHuman
    ensures !SignalsHandoff(e) ==> r.redirectToHuman == st.redirectToHuman
    ensures Inv(st) ==> Inv(r)
    ensures Extends(st.transcript, r.transcript)
  {
    match e
    case Boot(created) => InitChat(st, cfg, created)
    case Toggle => ToggleWindow(st)
    case Type(text) => TypeText(st, text)
    case Press(t, reply) => if Fires(t) then Send(b, st, cfg, reply) else st
  }

  function Run(b: Build, st: State, cfg: Config, evs: seq<Event>): State
    decreases |evs|
  {
    if evs == [] then st else Run(b, Step(b, st, cfg, evs[0]), cfg, evs[1..])
  }

  /** A run that starts with `e` takes that step first. */
  lemma RunFirst(b: Build, st: State, cfg: Config, e: Event, evs: seq<Event>)
    ensures Run(b, st, cfg, [e] + evs) == Run(b, Step(b, st, cfg, e), cfg, evs)
  {
    assert ([e] + evs)[1..] == evs;
  }

  // ---------------------------------------------------------------------
  // Properties of every session
  // ---------------------------------------------------------------------

  /** The typing indicator and the input's enabled state never drift from
      `waitingResponse`, and the input never exceeds its `maxlength`. */
  lemma {:induction false} RunKeepsInv(b: Build, st: State, cfg: Config, evs: seq<Event>)
    requires Inv(st)
    ensures Inv(Run(b, st, cfg, evs))
    decreases |evs|
  {
    if evs != [] {
      RunKeepsInv(b, Step(b, st, cfg, evs[0]), cfg, evs[1..]);
    }
  }

  /** The handoff flag only ever goes from false to true. */
  lemma {:induction false} HandoffLatches(b: Build, st: State, cfg: Config, evs: seq<Event>)
    requires st.redirectToHuman
    ensures Run(b, st, cfg, evs).redirectToHuman
    decreases |evs|
  {
    if evs != [] {
      HandoffLatches(b, Step(b, st, cfg, evs[0]), cfg, evs[1..]);
    }
  }

  /** The flag is raised only by a reply: over a run in which no reply
      signals a handoff, the handoff flag keeps its value. */
  lemma {:induction false} HandoffOnlyBySignal(b: Build, st: State, cfg: Config, evs: seq<Event>)
    requires forall i :: 0 <= i < |evs| ==> !SignalsHandoff(evs[i])
    ensures Run(b, st, cfg, evs).redirectToHuman == st.redirectToHuman
    decreases |evs|
  {
    if evs != [] {
      assert !SignalsHandoff(evs[0]);
      HandoffOnlyBySignal(b, Step(b, st, cfg, evs[0]), cfg, evs[1..]);
    }
  }

  /** A key press in the input is the send button when it is Enter with
      Alt up, whatever Shift says, and nothing at all otherwise. */
  lemma KeyPressIsSendButton(b: Build, st: State, cfg: Config, code: string, alt: bool,
                             reply: Option<Payload>)
    ensures Step(b, st, cfg, Press(KeyDown(code, alt), reply))
      == if code == "Enter" && !alt then Step(b, st, cfg, Press(SendButton, reply)) else st
    ensures Step(b, st, cfg, Press(KeyDown("NumpadEnter", alt), reply)) == st
    ensures Step(b, st, cfg, Press(KeyDown("Enter", true), reply)) == st
  {
  }

  /** Nothing rendered is ever removed or rewritten: the transcript only
      grows at its end. */
  lemma {:induction false} TranscriptAppendOnly(b: Build, st: State, cfg: Config, evs: seq<Event>)
    ensures Extends(st.transcript, Run(b, st, cfg, evs).transcript)
    decreases |evs|
  {
    if evs != [] {
      var s1 := Step(b, st, cfg, evs[0]);
      TranscriptAppendOnly(b, s1, cfg, evs[1..]);
      var r := Run(b, s1, cfg, evs[1..]);
      assert r.transcript[..|s1.transcript|][..|st.transcript|] == r.transcript[..|st.transcript|];
    }
  }

  /** From a fresh widget whose first event is a successful bootstrap, the
      greeting is the first rendered message forever after, whether or not
      the backend returned history. */
  lemma GreetingFirst(b: Build, stored: Option<string>, cfg: Config, bc: BackendChat, evs: seq<Event>)
    ensures var r := Run(b, Initial(stored), cfg, [Boot(Some(bc))] + evs);
      |r.transcript| >= 1 && r.transcript[0] == Greeting(cfg)
  {
    var s1 := Step(b, Initial(stored), cfg, Boot(Some(bc)));
    assert s1.transcript == WithGreeting(cfg, bc).messages;
    assert ([Boot(Some(bc))] + evs)[1..] == evs;
    TranscriptAppendOnly(b, s1, cfg, evs);
  }

  /** Bootstrap is not awaited before the input accepts a send, so a user
      who opens the panel and sends before it resolves sees the prompt
      ahead of the greeting. */
  lemma SendBeforeBootPrecedesGreeting(b: Build, cfg: Config, bc: BackendChat, p: string,
                                       reply: Option<Payload>)
    requires !Js.IsBlank(p) && |p| <= MaxInput
    ensures var r := Run(b, Initial(None), cfg, [Toggle, Type(p), Press(SendButton, reply), Boot(Some(bc))]);
      |r.transcript| >= 1 && r.transcript[0] == Message(Js.Str(p), UserRole)
  {
    var s0 := ToggleWindow(Initial(None));
    var s1 := TypeText(s0, p);
    assert s1.inputValue == p && s1.transcript == [];
    var s2 := Send(b, s1, cfg, reply);
    assert s2.transcript[0] == Message(Js.Str(p), UserRole);
    var s3 := InitChat(s2, cfg, Some(bc));
    assert Extends(s2.transcript, s3.transcript);
    RunFirst(b, s2, cfg, Boot(Some(bc)), []);
    RunFirst(b, s1, cfg, Press(SendButton, reply), [Boot(Some(bc))]);
    RunFirst(b, s0, cfg, Type(p), [Press(SendButton, reply), Boot(Some(bc))]);
    RunFirst(b, Initial(None), cfg, Toggle, [Type(p), Press(SendButton, reply), Boot(Some(bc))]);
  }

  // ---------------------------------------------------------------------
  // A failed send leaves the widget unusable
  // ---------------------------------------------------------------------

  /** The input is disabled and holds nothing that could be sent. */
  predicate Stuck(st: State) {
    st.inputDisabled && Js.IsBlank(st.inputValue)
  }

  /** As written, a send that resolves to the falsy sentinel leaves the
      widget waiting, with its input disabled and emptied. */
  lemma FailedSendLocksInput(st: State, cfg: Config, t: Trigger)
    requires Inv(st) && !st.waitingResponse && Fires(t)
    requires !Js.IsBlank(st.inputValue)
    ensures var r := Step(AsWritten, st, cfg, Press(t, None));
      r.waitingResponse && Stuck(r)
  {
    var d := BeginSend(st, cfg);
    var r := CompleteSend(d.state, None);
    assert Step(AsWritten, st, cfg, Press(t, None)) == r;
    assert r.inputValue == "" && r.inputDisabled;
    assert Js.IsBlank("");
  }

  /** Once stuck, nothing the page can deliver unsticks the widget: typing
      is ignored, every send is dropped as blank, so no request is issued
      and no reply can clear `waitingResponse` or move the handoff flag. */
  lemma {:induction false} StuckForever(b: Build, st: State, cfg: Config, evs: seq<Event>)
    requires Stuck(st)
    ensures var r := Run(b, st, cfg, evs);
      && Stuck(r)
      && r.waitingResponse == st.waitingResponse
      && r.redirectToHuman == st.redirectToHuman
    decreases |evs|
  {
    if evs != [] {
      var s1 := Step(b, st, cfg, evs[0]);
      StuckStep(b, st, cfg, evs[0]);
      StuckForever(b, s1, cfg, evs[1..]);
    }
  }

  /** One event of a stuck widget: a send is dropped whole, anything else
      leaves the input alone. */
  lemma StuckStep(b: Build, st: State, cfg: Config, e: Event)
    requires Stuck(st)
    ensures var r := Step(b, st, cfg, e);
      && Stuck(r)
      && r.waitingResponse == st.waitingResponse
      && r.redirectToHuman == st.redirectToHuman
      && (e.Press? ==> r == st)
  {
    match e
    case Boot(created) =>
    case Toggle =>
    case Type(text) =>
    case Press(t, reply) =>
      assert BeginSend(st, cfg).call.None?;
  }

  /** With the failure path clearing `waitingResponse`, the same failed send
      leaves the input enabled and the widget idle. */
  lemma CorrectedFailureReleasesInput(st: State, cfg: Config, t: Trigger)
    requires Inv(st) && !st.waitingResponse && Fires(t)
    requires !Js.IsBlank(st.inputValue)
    ensures var r := Step(Corrected, st, cfg, Press(t, None));
      && !r.waitingResponse && !r.inputDisabled && !r.typingVisible
      && r.transcript == st.transcript
           + [Message(Js.Str(st.inputValue), UserRole), Message(Js.Str(FailureText), ErrorRole)]
  {
  }

  /** With the correction, `waitingResponse` is false, and the input enabled,
      between any two events of a session that starts idle. */
  lemma {:induction false} CorrectedNeverLeftWaiting(st: State, cfg: Config, evs: seq<Event>)
    requires Inv(st) && !st.waitingResponse
    ensures var r := Run(Corrected, st, cfg, evs);
      !r.waitingResponse && !r.inputDisabled && !r.typingVisible
    decreases |evs|
  {
    if evs != [] {
      var s1 := Step(Corrected, st, cfg, evs[0]);
      assert !s1.waitingResponse by {
        if evs[0].Press? && Fires(evs[0].trigger) {
          var d := BeginSend(st, cfg);
          if d.call.Some? {
            assert s1 == CompleteSendCorrected(d.state, evs[0].reply);
          }
        }
      }
      CorrectedNeverLeftWaiting(s1, cfg, evs[1..]);
    }
  }

  // ---------------------------------------------------------------------
  // Worked sessions
  // ---------------------------------------------------------------------

  /** A new chat with no history: the transcript is the greeting alone, and
      the chat's id is stored. */
  lemma ScenarioNewChat(b: Build, cfg: Config)
    ensures var r := Run(b, Initial(None), cfg, [Boot(Some(BackendChat(Some("s1"), Some([]))))]);
      r.transcript == [Greeting(cfg)] && r.storedId == Some("s1")
  {
    var bc := BackendChat(Some("s1"), Some([]));
    assert [Boot(Some(bc))][1..] == [];
  }

  /** A failed bootstrap forgets the stored id and leaves the chat a
      placeholder, so later sends go out with an undefined chat id. */
  lemma ScenarioBootFails(b: Build, cfg: Config)
    ensures var r := Run(b, Initial(Some("old")), cfg, [Boot(None)]);
      r.storedId == None && r.chat == Placeholder && r.transcript == [] && ChatId(r) == None
  {
    var evs: seq<Event> := [Boot(None)];
    assert evs[1..] == [];
  }

  /** A redirecting reply latches the handoff flag, and the next send goes
      to the contact endpoint with the configured support address. */
  lemma ScenarioRedirect(b: Build, cfg: Config, st: State)
    requires Inv(st) && !st.waitingResponse && !st.redirectToHuman
    requires !Js.IsBlank(st.inputValue)
    ensures var r := Step(b, st, cfg, Press(SendButton, Some(map["response" := Js.Str("ok"), "redirect" := Js.Bool(true)])));
      && r.redirectToHuman
      && !r.waitingResponse
      && (forall p :: !Js.IsBlank(p) ==>
            BeginSend(r.(inputValue := p), cfg).call
              == Some(SendContactData(ChatId(st), p, cfg.supportEmail)))
  {
    var reply: Payload := map["response" := Js.Str("ok"), "redirect" := Js.Bool(true)];
    assert HandoffSignal(reply) by {
      assert "redirect" in reply && Js.Truthy(reply["redirect"]);
    }
    var d := BeginSend(st, cfg);
    var r := Step(b, st, cfg, Press(SendButton, Some(reply)));
    assert r == Complete(b, d.state, Some(reply));
    assert r.redirectToHuman && !r.waitingResponse;
    forall p | !Js.IsBlank(p)
      ensures BeginSend(r.(inputValue := p), cfg).call
                == Some(SendContactData(ChatId(st), p, cfg.supportEmail))
    {
      assert ChatId(r.(inputValue := p)) == ChatId(st);
    }
  }

  /** A plain reply: the prompt and the answer are appended in that order,
      the handoff flag stays clear and the widget is idle again. */
  lemma ScenarioPlainReply(b: Build, cfg: Config, st: State)
    requires Inv(st) && !st.waitingResponse && !st.redirectToHuman
    requires !Js.IsBlank(st.inputValue)
    ensures var r := Step(b, st, cfg, Press(SendButton, Some(map["response" := Js.Str("hi there")])));
      && r.transcript == st.transcript
           + [Message(Js.Str(st.inputValue), UserRole), Message(Js.Str("hi there"), AssistantRole)]
      && !r.redirectToHuman
      && !r.waitingResponse && !r.inputDisabled
  {
    var reply: Payload := map["response" := Js.Str("hi there")];
    assert !HandoffSignal(reply) by {
      assert "redirect" !in reply && "validMail" !in reply;
    }
    assert Js.Get(reply, "response") == Js.Str("hi there");
  }

  /** A whitespace-only prompt appends nothing, issues no request and
      leaves the widget idle. */
  lemma ScenarioBlankPrompt(b: Build, cfg: Config, st: State, reply: Option<Payload>)
    requires st.inputValue == " \t\n "
    ensures BeginSend(st, cfg).call.None?
    ensures Step(b, st, cfg, Press(SendButton, reply)) == st
  {
    Js.TrimEmptyIffAllWhitespace(st.inputValue);
  }
}
