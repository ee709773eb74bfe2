/** The chat server (`ChatSystem/server/index.mjs`): the guards applied to an inbound frame,
    the envelope the server builds from it, and the broadcast to every open connection. */
module ChatServer {
  import opened Base
  import opened Text
  import opened Json
  import ChatTypes

  const MaxMessageLength: nat := 1000
  const MaxUserIdLength: nat := 50

  /** The message the server broadcasts: `{type: "chat-message", userId, text, timestamp}`. */
  type Envelope = ChatTypes.ServerChatMessage

  /** Why the `message` handler dropped a frame (each case is one early `return`). */
  datatype Drop = NotChatMessage | InvalidFormat | TooLong | EmptyText

  /** `safeParseJson`: a frame that does not parse becomes `null`. */
  function SafeParseJson(frame: Option<JsonValue>): JsonValue {
    match frame
    case None => JNull
    case Some(v) => v
  }

  /** `s.slice(0, n)`. */
  function Truncate(s: string, n: nat): (r: string)
    ensures |r| == Min(|s|, n) && r == s[..|r|]
  {
    if |s| <= n then s else s[..n]
  }

  /** The guard chain of the `message` handler and the envelope it builds; `now` is the
      server's clock at the moment the frame is handled. */
  function Ingest(frame: Option<JsonValue>, now: int): (r: Result<Envelope, Drop>)
    ensures r.Success? ==> r.value.timestamp == now
  {
    var payload := SafeParseJson(frame);
    if !Truthy(payload) || Prop(payload, "type") != Some(JStr(ChatTypes.ChatKind)) then Failure(NotChatMessage)
    else if !HasString(payload, "userId") || !HasString(payload, "text") then Failure(InvalidFormat)
    else
      var text := StringProp(payload, "text");
      if |text| > MaxMessageLength then Failure(TooLong)
      else if Trim(text) == [] then Failure(EmptyText)
      else Success(ChatTypes.ServerChatMessage(Truncate(Trim(StringProp(payload, "userId")), MaxUserIdLength), Trim(text), now))
  }

  /** The object a client's `sendMessage` puts on the wire. */
  function ChatObject(userId: string, text: string, timestamp: int): JsonValue {
    ChatTypes.ToJson(ChatTypes.ServerChatMessage(userId, text, timestamp))
  }

  /** `JSON.stringify(enriched)`, as a value. */
  function Encode(e: Envelope): JsonValue {
    ChatTypes.ToJson(e)
  }

  /** A frame that is not JSON, or whose `type` is not `"chat-message"`, is dropped. */
  lemma NonChatFramesDropped(frame: Option<JsonValue>, now: int)
    requires frame.None? || Prop(frame.value, "type") != Some(JStr(ChatTypes.ChatKind))
    ensures Ingest(frame, now) == Failure(NotChatMessage)
  {
  }

  /** A chat frame whose `userId` or `text` is missing or not a string is dropped. */
  lemma MalformedFieldsDropped(frame: Option<JsonValue>, now: int)
    requires frame.Some? && Prop(frame.value, "type") == Some(JStr(ChatTypes.ChatKind))
    requires !HasString(frame.value, "userId") || !HasString(frame.value, "text")
    ensures Ingest(frame, now) == Failure(InvalidFormat)
  {
  }

  /** The length limit is applied to the text as sent, before trimming: a text longer than
      1000 characters is dropped even when its trimmed form is short. */
  lemma LengthCheckedBeforeTrim(userId: string, text: string, ts: int, now: int)
    requires |text| > MaxMessageLength
    ensures Ingest(Some(ChatObject(userId, text, ts)), now) == Failure(TooLong)
  {
  }

  /** For instance, one visible character padded with at least 1000 white-space characters
      trims to that character and is still dropped. */
  lemma PaddedTextDropped(userId: string, c: char, pad: string, ts: int, now: int)
    requires !IsSpace(c) && AllSpace(pad) && |pad| >= MaxMessageLength
    ensures Trim([c] + pad) == [c]
    ensures Ingest(Some(ChatObject(userId, [c] + pad, ts)), now) == Failure(TooLong)
  {
    var text := [c] + pad;
    var r := Trim(text);
    var i, j := TrimSlice(text);
    assert !IsSpace(text[0]);
    assert forall n | 1 <= n < |text| :: IsSpace(text[n]);
    assert r == [text[0]];
    LengthCheckedBeforeTrim(userId, text, ts, now);
  }

  /** A text that is blank after trimming is dropped. */
  lemma BlankTextDropped(userId: string, text: string, ts: int, now: int)
    requires |text| <= MaxMessageLength && AllSpace(text)
    ensures Ingest(Some(ChatObject(userId, text, ts)), now) == Failure(EmptyText)
  {
  }

  /** An accepted frame: the envelope carries the trimmed text and the trimmed user id cut to
      at most 50 characters; an over-long id is cut, not rejected, and an empty id is accepted. */
  lemma AcceptedEnvelope(userId: string, text: string, ts: int, now: int)
    requires |text| <= MaxMessageLength && !AllSpace(text)
    ensures var r := Ingest(Some(ChatObject(userId, text, ts)), now);
      && r.Success?
      && r.value.text == Trim(text) && r.value.text != []
      && |r.value.userId| == Min(|Trim(userId)|, MaxUserIdLength)
      && r.value.userId == Trim(userId)[..|r.value.userId|]
      && r.value.timestamp == now
  {
  }

  /** Every envelope the server builds satisfies the envelope invariant. */
  lemma EnvelopeInvariant(frame: Option<JsonValue>, now: int)
    requires Ingest(frame, now).Success?
    ensures var e := Ingest(frame, now).value;
      && |e.userId| <= MaxUserIdLength
      && e.text != [] && |e.text| <= MaxMessageLength && Trim(e.text) == e.text
      && e.timestamp == now
  {
    TrimIdempotent(StringProp(frame.value, "text"));
  }

  /** Only `type`, `userId` and `text` of the payload matter: in particular a timestamp the
      sender supplies is discarded and the server's clock is used. */
  lemma OnlyThreeFieldsRead(a: map<string, JsonValue>, b: map<string, JsonValue>, now: int)
    requires forall k | k in ["type", "userId", "text"] :: (k in a <==> k in b) && (k in a ==> a[k] == b[k])
    ensures Ingest(Some(JObj(a)), now) == Ingest(Some(JObj(b)), now)
  {
    assert "type" in ["type", "userId", "text"];
    assert "userId" in ["type", "userId", "text"];
    assert "text" in ["type", "userId", "text"];
  }

  /** An envelope whose fields are already normalised passes the guards again unchanged, up
      to the new timestamp. */
  lemma EnvelopeReaccepted(e: Envelope, now: int)
    requires Trim(e.userId) == e.userId && |e.userId| <= MaxUserIdLength
    requires Trim(e.text) == e.text && e.text != [] && |e.text| <= MaxMessageLength
    ensures Ingest(Some(Encode(e)), now) == Success(ChatTypes.ServerChatMessage(e.userId, e.text, now))
  {
    assert Encode(e) == ChatObject(e.userId, e.text, e.timestamp);
    AcceptedEnvelope(e.userId, e.text, e.timestamp, now);
    assert Truncate(e.userId, MaxUserIdLength) == e.userId;
  }

  /** `readyState` of a `ws` connection. */
  datatype ReadyState = Connecting | Open | Closing | Closed

  /** A connection in the server's `wss.clients`. Whether `send` throws on it is decided by
      the transport and is a field here. */
  class Client {
    var readyState: ReadyState
    var sendThrows: bool
    /** The frames this connection's `send` accepted, oldest first. */
    var delivered: seq<JsonValue>

    constructor (state: ReadyState, throws: bool)
      ensures readyState == state && sendThrows == throws && delivered == []
    {
      readyState, sendThrows, delivered := state, throws, [];
    }

    /** `client.send(encoded)`; a throwing send is reported as `false` and delivers nothing. */
    method Send(frame: JsonValue) returns (ok: bool)
      modifies this`delivered
      ensures ok == !sendThrows
      ensures delivered == if ok then old(delivered) + [frame] else old(delivered)
    {
      ok := !sendThrows;
      if ok {
        delivered := delivered + [frame];
      }
    }
  }

  /** The connection is open and its `send` succeeds. */
  predicate Receives(c: Client)
    reads c
  {
    c.readyState == Open && !c.sendThrows
  }

  /** The broadcast loop over `wss.clients`: the one encoded frame is handed to every open
      connection, the sender's own included; a connection whose `send` throws is skipped and
      the loop goes on. */
  method Broadcast(clients: seq<Client>, frame: JsonValue)
    requires forall i, j | 0 <= i < j < |clients| :: clients[i] != clients[j]
    modifies set c | c in clients
    ensures forall c | c in clients :: c.readyState == old(c.readyState) && c.sendThrows == old(c.sendThrows)
    ensures forall c | c in clients ::
      c.delivered == if Receives(c) then old(c.delivered) + [frame] else old(c.delivered)
  {
    var i := 0;
    while i < |clients|
      invariant 0 <= i <= |clients|
      invariant forall c | c in clients :: c.readyState == old(c.readyState) && c.sendThrows == old(c.sendThrows)
      invariant forall k | 0 <= k < i ::
        clients[k].delivered == if Receives(clients[k]) then old(clients[k].delivered) + [frame] else old(clients[k].delivered)
      invariant forall k | i <= k < |clients| :: clients[k].delivered == old(clients[k].delivered)
    {
      var c := clients[i];
      if c.readyState == Open {
        var _ := c.Send(frame);
      }
      i := i + 1;
    }
  }

  /** The whole `message` handler: guards, envelope, one encoding, broadcast. A dropped frame
      reaches nobody. */
  method HandleMessage(clients: seq<Client>, frame: Option<JsonValue>, now: int) returns (r: Result<Envelope, Drop>)
    requires forall i, j | 0 <= i < j < |clients| :: clients[i] != clients[j]
    modifies set c | c in clients
    ensures r == Ingest(frame, now)
    ensures forall c | c in clients :: c.readyState == old(c.readyState) && c.sendThrows == old(c.sendThrows)
    ensures r.Failure? ==> forall c | c in clients :: c.delivered == old(c.delivered)
    ensures r.Success? ==> forall c | c in clients ::
      c.delivered == if Receives(c) then old(c.delivered) + [Encode(r.value)] else old(c.delivered)
  {
    r := Ingest(frame, now);
    if r.Success? {
      var encoded := Encode(r.value);
      Broadcast(clients, encoded);
    }
  }
}
