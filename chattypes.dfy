/** The message shapes shared by the chat client and server (`ChatSystem/src/types.ts`) and the
    JSON object both sides put on the wire. */
module ChatTypes {
  import opened Base
  import opened Json

  const ChatKind: string := "chat-message"

  /** `ConnectionStatus`: the only connection state the user interface sees. */
  datatype ConnectionStatus = Connecting | Open | Closed | Error

  /** `ServerChatMessage` without its constant `type` field: the envelope on the wire. */
  datatype ServerChatMessage = ServerChatMessage(userId: string, text: string, timestamp: int)

  /** `LocalChatMessage`: an entry of the displayed message list. */
  datatype LocalChatMessage = LocalChatMessage(
    id: int,
    userId: string,
    text: string,
    timestamp: int,
    self: bool,
    timeLabel: string)

  /** `JSON.stringify` of a chat message, as the parsed value it denotes. */
  function ToJson(m: ServerChatMessage): (v: JsonValue)
    ensures Prop(v, "type") == Some(JStr(ChatKind))
    ensures Prop(v, "userId") == Some(JStr(m.userId)) && Prop(v, "text") == Some(JStr(m.text))
    ensures Prop(v, "timestamp") == Some(JNum(m.timestamp))
  {
    JObj(map["type" := JStr(ChatKind), "userId" := JStr(m.userId), "text" := JStr(m.text), "timestamp" := JNum(m.timestamp)])
  }
}
