/** The widget's view of `HainzelmanUtil`, the client for the chat backend.
    Each of its four methods performs one HTTP round trip. `createChat`
    resolves to the `result` property of the decoded body, the other three to
    the decoded body itself; on a non-ok status `createChat` resolves to
    `undefined`, and after any thrown error every method resolves to `false`.
    The network itself is outside the model. A round trip is the `Option`
    its caller receives, and the caller only tests it for truthiness: `None`
    stands for every falsy result, the failure sentinels as well as a missing
    or falsy `result` and a body of `null`, `false`, `0` or `""`. */
module Gateway {
  import Js
  import opened Options

  /** A chat message as the backend stores it and as the widget renders it:
      a `content` value and a `role` string. */
  datatype Message = Message(content: Js.Value, role: string)

  /** The chat object a successful `createChat` (or `getChat`) resolves to.
      `id` is `None` when the backend omits it; `messages` is `None` when the
      property is absent or falsy, which the widget reads as no history. */
  datatype BackendChat = BackendChat(id: Option<string>, messages: Option<seq<Message>>)

  /** The decoded body of a successful `sendMessage` or `sendContactData`. */
  type Payload = Js.Object

  /** The four requests the widget can issue. A `chatId` of `None` is the
      `undefined` read from a chat that has not been loaded yet. */
  datatype Call =
    | CreateChat
    | GetChat(storedChatId: string)
    | SendMessage(chatId: Option<string>, prompt: string)
    | SendContactData(chatId: Option<string>, prompt: string, supportEmail: Js.Value)
  {
    /** True for the two calls a user's send can issue. */
    predicate IsSend() {
      SendMessage? || SendContactData?
    }
  }

  /** Whether a reply asks for the conversation to be handed to a human: a
      truthy `redirect`, or a `validMail` key together with a truthy
      `validEmail`. The two differently named email properties are kept
      exactly as the widget reads them. */
  predicate HandoffSignal(d: Payload) {
    || ("redirect" in d && Js.Truthy(d["redirect"]))
    || ("validMail" in d && Js.Truthy(Js.Get(d, "validEmail")))
  }

  /** A reply with `validEmail: true` but no `validMail` key does not hand
      off, and neither does one with a truthy `validMail` but no
      `validEmail`. */
  lemma EmailFlagsMustBothBePresent()
    ensures !HandoffSignal(map["response" := Js.Str("ok"), "validEmail" := Js.Bool(true)])
    ensures !HandoffSignal(map["response" := Js.Str("ok"), "validMail" := Js.Bool(true)])
    ensures HandoffSignal(map["validMail" := Js.Bool(false), "validEmail" := Js.Bool(true)])
  {
  }
}
