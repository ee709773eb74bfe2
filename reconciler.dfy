/** The chat screen's message list and input handling (`ChatSystem/src/App.tsx`): the bounded
    append, the echo de-duplication, the checks before sending, the user-id confirmation and
    the local id counter. */
module Reconciler {
  import opened Base
  import opened Text
  import opened Json
  import opened ChatTypes
  import ChatUtils
  import ChatServer
  import ConnectionManager

  const MaxMessages: nat := 500
  const MaxUserIdLength: nat := 50
  const MaxMessageLength: nat := 1000
  /** Two copies of a message closer together than this many milliseconds are one message. */
  const EchoWindow: int := 2000

  const SystemUser: string := "系统"
  const IdTooLongNotice: string := "用户ID过长，请控制在 50 字符以内。"
  const NotConnectedNotice: string := "服务器未连接，无法发送消息。请等待连接成功后再试。"
  const MessageTooLongNotice: string := "消息过长，请控制在 1000 字符以内。"
  const NoUserIdNotice: string := "请先在上方设置一个你的 ID，再开始聊天。"

  /** `addMessage`: append, then keep only the last 500 entries. */
  function AddMessage(prev: seq<LocalChatMessage>, m: LocalChatMessage): (r: seq<LocalChatMessage>)
    ensures |r| == Min(|prev| + 1, MaxMessages)
    ensures r == (prev + [m])[|prev| + 1 - |r|..]
    ensures r[|r| - 1] == m
  {
    var all := prev + [m];
    if |all| > MaxMessages then all[|all| - MaxMessages..] else all
  }

  /** Below the bound nothing is lost. */
  lemma AddMessageBelowBound(prev: seq<LocalChatMessage>, m: LocalChatMessage)
    requires |prev| < MaxMessages
    ensures AddMessage(prev, m) == prev + [m]
  {
  }

  /** A full list loses exactly its oldest entry. */
  lemma AddMessageEvictsOldest(prev: seq<LocalChatMessage>, m: LocalChatMessage)
    requires |prev| == MaxMessages
    ensures AddMessage(prev, m) == prev[1..] + [m]
  {
  }

  /** `createSystemMessage`: a notice from the user `系统`, never one's own. */
  function SystemMessage(id: int, text: string, now: int, clock: int -> (nat, nat)): (m: LocalChatMessage)
    ensures m.userId == SystemUser && !m.self && m.text == text && m.id == id
  {
    LocalChatMessage(id, SystemUser, text, now, false, ChatUtils.FormatTimeLabel(clock(now).0, clock(now).1))
  }

  /** The entry `e` already shows the incoming message `m`: the test inside `prev.some`. */
  predicate Echoes(e: LocalChatMessage, m: LocalChatMessage) {
    && e.self && e.userId == m.userId && e.text == m.text
    && -EchoWindow < e.timestamp - m.timestamp < EchoWindow
  }

  predicate IsDuplicate(prev: seq<LocalChatMessage>, m: LocalChatMessage) {
    exists i | 0 <= i < |prev| :: Echoes(prev[i], m)
  }

  /** `handleMessage`: the new list and the new value of the id counter. Only one's own
      messages are checked for duplicates; an accepted message takes the next id. */
  function Incoming(prev: seq<LocalChatMessage>, m: LocalChatMessage, userId: string, nextId: int): (r: (seq<LocalChatMessage>, int))
    ensures r.1 == nextId || r.1 == nextId + 1
    ensures r.1 == nextId + 1 ==> r.0 == AddMessage(prev, m.(id := nextId))
    ensures r.1 == nextId ==> r.0 == prev
  {
    if m.userId == userId && IsDuplicate(prev, m) then (prev, nextId)
    else (AddMessage(prev, m.(id := nextId)), nextId + 1)
  }

  /** Every id in the list is below the counter. */
  predicate IdsBelow(ms: seq<LocalChatMessage>, nextId: int) {
    forall i | 0 <= i < |ms| :: ms[i].id < nextId
  }

  /** Ids grow strictly along the list. */
  predicate IncreasingIds(ms: seq<LocalChatMessage>) {
    forall i, j | 0 <= i < j < |ms| :: ms[i].id < ms[j].id
  }

  /** Appending under a fresh id keeps the ids below the new counter and increasing. */
  lemma AddMessageKeepsIds(prev: seq<LocalChatMessage>, m: LocalChatMessage, nextId: int)
    requires IdsBelow(prev, nextId) && IncreasingIds(prev) && m.id == nextId
    ensures IdsBelow(AddMessage(prev, m), nextId + 1) && IncreasingIds(AddMessage(prev, m))
  {
    var all := prev + [m];
    AppendKeepsIds(prev, m, nextId);
    SuffixKeepsIds(all, |all| - |AddMessage(prev, m)|, nextId + 1);
  }

  /** Appending under a fresh id, before any trimming of the list. */
  lemma AppendKeepsIds(prev: seq<LocalChatMessage>, m: LocalChatMessage, nextId: int)
    requires IdsBelow(prev, nextId) && IncreasingIds(prev) && m.id == nextId
    ensures IdsBelow(prev + [m], nextId + 1) && IncreasingIds(prev + [m])
  {
    var all := prev + [m];
    forall i, j | 0 <= i < j < |all| ensures all[i].id < all[j].id {
      if j == |prev| {
        assert all[i] == prev[i];
      }
    }
    forall i | 0 <= i < |all| ensures all[i].id < nextId + 1 {
      if i < |prev| {
        assert all[i] == prev[i];
      }
    }
  }

  lemma SuffixKeepsIds(ms: seq<LocalChatMessage>, off: nat, bound: int)
    requires off <= |ms| && IdsBelow(ms, bound) && IncreasingIds(ms)
    ensures IdsBelow(ms[off..], bound) && IncreasingIds(ms[off..])
  {
    forall i, j | 0 <= i < j < |ms| - off ensures ms[off..][i].id < ms[off..][j].id {
      assert ms[off..][i] == ms[off + i] && ms[off..][j] == ms[off + j];
    }
  }

  /** An incoming message is dropped, leaving the list as it was, exactly when it is one's own
      and some entry already shows it; while the ids are fresh this is also exactly when the
      list comes back unchanged. */
  lemma SelfDropIff(prev: seq<LocalChatMessage>, m: LocalChatMessage, userId: string, nextId: int)
    requires IdsBelow(prev, nextId)
    ensures var r := Incoming(prev, m, userId, nextId);
      (r.0 == prev) <==> (m.userId == userId && IsDuplicate(prev, m))
  {
    var r := Incoming(prev, m, userId, nextId);
    if !(m.userId == userId && IsDuplicate(prev, m)) {
      var added := AddMessage(prev, m.(id := nextId));
      assert added[|added| - 1].id == nextId;
      if |added| == |prev| {
        assert prev[|prev| - 1].id < nextId;
      }
    }
  }

  /** Messages of other users are always appended. */
  lemma OthersAppended(prev: seq<LocalChatMessage>, m: LocalChatMessage, userId: string, nextId: int)
    requires m.userId != userId
    ensures Incoming(prev, m, userId, nextId) == (AddMessage(prev, m.(id := nextId)), nextId + 1)
  {
  }

  /** The outcome of `handleSendMessage`, one value per `return`. */
  datatype SendOutcome = NotConnected | Blank | MessageTooLong | NoUserId | Sent(text: string)

  /** The checks of `handleSendMessage`, in their order. */
  function SendDecision(status: ConnectionStatus, pending: string, userId: string): (r: SendOutcome)
    ensures r.Sent? ==> status == Open && userId != [] && r.text == Trim(pending)
  {
    if status != Open then NotConnected
    else if Trim(pending) == [] then Blank
    else if |Trim(pending)| > MaxMessageLength then MessageTooLong
    else if userId == [] then NoUserId
    else Sent(Trim(pending))
  }

  /** Each check stops the ones after it: the connection first, then a blank text, then the
      length of the trimmed text, then the user id. */
  lemma SendChecksOrdered(status: ConnectionStatus, pending: string, userId: string)
    ensures status != Open ==> SendDecision(status, pending, userId) == NotConnected
    ensures status == Open && AllSpace(pending) ==> SendDecision(status, pending, userId) == Blank
    ensures status == Open && !AllSpace(pending) && |Trim(pending)| > MaxMessageLength ==>
      SendDecision(status, pending, userId) == MessageTooLong
    ensures status == Open && !AllSpace(pending) && |Trim(pending)| <= MaxMessageLength && userId == [] ==>
      SendDecision(status, pending, userId) == NoUserId
  {
  }

  /** What is sent is non-blank, trimmed and at most 1000 characters long. */
  lemma SentTextNormalised(status: ConnectionStatus, pending: string, userId: string)
    requires SendDecision(status, pending, userId).Sent?
    ensures var t := SendDecision(status, pending, userId).text;
      t != [] && |t| <= MaxMessageLength && Trim(t) == t
  {
    TrimIdempotent(pending);
  }

  /** The notice a check appends, if any. */
  function Notice(r: SendOutcome): (n: Option<string>)
    ensures n.Some? <==> r.NotConnected? || r.MessageTooLong? || r.NoUserId?
  {
    match r
    case NotConnected => Some(NotConnectedNotice)
    case MessageTooLong => Some(MessageTooLongNotice)
    case NoUserId => Some(NoUserIdNotice)
    case _ => None
  }

  /** The outcome of `handleConfirmUserId`. */
  datatype ConfirmOutcome = NothingToConfirm | IdTooLong | Confirmed(userId: string)

  function ConfirmDecision(input: string): (r: ConfirmOutcome)
    ensures r.Confirmed? ==> r.userId == Trim(input)
  {
    var t := Trim(input);
    if t == [] then NothingToConfirm
    else if |t| > MaxUserIdLength then IdTooLong
    else Confirmed(t)
  }

  /** A user id the screen can hold: none yet, or an id of 1 to 50 characters with no white
      space at either end. */
  predicate ValidUserId(u: string) {
    u == [] || (!IsSpace(u[0]) && !IsSpace(u[|u| - 1]) && |u| <= MaxUserIdLength)
  }

  /** Such an id is left as it is by trimming. */
  lemma ValidUserIdTrimmed(u: string)
    requires ValidUserId(u)
    ensures Trim(u) == u
  {
    TrimOfTrimmed(u);
  }

  /** A confirmed id is trimmed, non-empty and within 50 characters; a blank input confirms
      nothing and a longer one is refused. */
  lemma ConfirmedIdValid(input: string)
    ensures ConfirmDecision(input).Confirmed? <==> !AllSpace(input) && |Trim(input)| <= MaxUserIdLength
    ensures ConfirmDecision(input).NothingToConfirm? <==> AllSpace(input)
    ensures ConfirmDecision(input).Confirmed? ==>
      var u := ConfirmDecision(input).userId; u != [] && ValidUserId(u)
  {
    TrimIdempotent(input);
  }

  lemma ConfirmedIdFits(input: string)
    ensures ConfirmDecision(input).Confirmed? ==>
      ConfirmDecision(input).userId != [] && ValidUserId(ConfirmDecision(input).userId)
  {
  }

  /** A message this screen sends passes the server's checks unchanged: the server's envelope
      carries the same user id and text, stamped with the server's clock. */
  lemma SentMessageAccepted(pending: string, userId: string, clientTs: int, serverNow: int)
    requires ValidUserId(userId)
    requires SendDecision(Open, pending, userId).Sent?
    ensures var text := SendDecision(Open, pending, userId).text;
      ChatServer.Ingest(Some(ToJson(ServerChatMessage(userId, text, clientTs))), serverNow)
        == Success(ServerChatMessage(userId, text, serverNow))
  {
    SentTextNormalised(Open, pending, userId);
    ValidUserIdTrimmed(userId);
    var text := SendDecision(Open, pending, userId).text;
    ChatServer.EnvelopeReaccepted(ServerChatMessage(userId, text, clientTs), serverNow);
  }

  /** The server's echo of a message the screen has just shown is recognised as its own and
      dropped when the two clocks are less than two seconds apart. */
  lemma EchoDeduplicated(prev: seq<LocalChatMessage>, pending: string, userId: string,
                         clientTs: int, serverNow: int, now: int, clock: int -> (nat, nat), nextId: int)
    requires ValidUserId(userId)
    requires SendDecision(Open, pending, userId).Sent?
    requires -EchoWindow < clientTs - serverNow < EchoWindow
    ensures var text := SendDecision(Open, pending, userId).text;
      var shown := AddMessage(prev, LocalChatMessage(nextId, userId, text, clientTs, true, ChatUtils.FormatTimeLabel(clock(clientTs).0, clock(clientTs).1)));
      var echo := ConnectionManager.Deliver(Some(ToJson(ServerChatMessage(userId, text, serverNow))), userId, now, clock);
      && echo.Some? && echo.value.self
      && Incoming(shown, echo.value, userId, nextId + 1) == (shown, nextId + 1)
  {
    var text := SendDecision(Open, pending, userId).text;
    var local := LocalChatMessage(nextId, userId, text, clientTs, true, ChatUtils.FormatTimeLabel(clock(clientTs).0, clock(clientTs).1));
    var shown := AddMessage(prev, local);
    ConnectionManager.DecodeToJson(ServerChatMessage(userId, text, serverNow));
    var echo := ConnectionManager.Deliver(Some(ToJson(ServerChatMessage(userId, text, serverNow))), userId, now, clock);
    assert Echoes(shown[|shown| - 1], echo.value);
  }

  // ---------------------------------------------------------------------------------------
  // The screen's state.

  class ChatApp {
    /** The connection the screen's `useWebSocket` call manages. */
    const session: ConnectionManager.WebSocketSession
    var userId: string
    var userIdInput: string
    var pendingMessage: string
    var messages: seq<LocalChatMessage>
    /** `messageIdRef.current`. */
    var nextId: int

    predicate Sound()
      reads this, session
    {
      && session.Sound() && session.userId == userId
      && ValidUserId(userId)
      && nextId >= 1 && IdsBelow(messages, nextId) && IncreasingIds(messages)
    }

    constructor (s: ConnectionManager.WebSocketSession)
      requires s.Sound() && s.userId == []
      ensures session == s && userId == [] && userIdInput == [] && pendingMessage == []
      ensures messages == [] && nextId == 1 && Sound()
    {
      session := s;
      userId, userIdInput, pendingMessage := [], [], [];
      messages, nextId := [], 1;
    }

    /** `onUserIdInputChange`. */
    method EditUserId(input: string)
      modifies this`userIdInput
      ensures userIdInput == input
    {
      userIdInput := input;
    }

    /** `onMessageChange`. */
    method EditMessage(text: string)
      modifies this`pendingMessage
      ensures pendingMessage == text
    {
      pendingMessage := text;
    }

    /** Appends a notice with the next id, without the 500-entry bound. */
    method AppendNotice(text: string, now: int, clock: int -> (nat, nat))
      requires Sound()
      modifies this`messages, this`nextId
      ensures messages == old(messages) + [SystemMessage(old(nextId), text, now, clock)]
      ensures nextId == old(nextId) + 1 && Sound()
    {
      Append(SystemMessage(nextId, text, now, clock));
    }

    /** Any entry under the next id goes at the end of the list. */
    method Append(m: LocalChatMessage)
      requires Sound() && m.id == nextId
      modifies this`messages, this`nextId
      ensures messages == old(messages) + [m] && nextId == old(nextId) + 1 && Sound()
    {
      AppendKeepsIds(messages, m, nextId);
      messages := messages + [m];
      nextId := nextId + 1;
    }

    /** `handleConfirmUserId`: the trimmed input becomes the user id (and the connection's
        `userIdRef`), or a notice explains why not. */
    method ConfirmUserId(now: int, clock: int -> (nat, nat)) returns (r: ConfirmOutcome)
      requires Sound()
      modifies this`userId, this`userIdInput, this`messages, this`nextId, session`userId
      ensures r == ConfirmDecision(old(userIdInput)) && Sound()
      ensures r.NothingToConfirm? ==>
        (userId == old(userId) && userIdInput == old(userIdInput) && messages == old(messages) && nextId == old(nextId))
      ensures r.IdTooLong? ==> (userId == old(userId) && userIdInput == old(userIdInput))
      ensures r.IdTooLong? ==>
        (messages == old(messages) + [SystemMessage(old(nextId), IdTooLongNotice, now, clock)] && nextId == old(nextId) + 1)
      ensures r.Confirmed? ==>
        (userId == r.userId && userIdInput == [] && messages == old(messages) && nextId == old(nextId))
      ensures pendingMessage == old(pendingMessage)
      ensures session.State() == old(session.State()).(userId := userId) && session.outbox == old(session.outbox)
    {
      r := ConfirmDecision(userIdInput);
      ConfirmedIdFits(userIdInput);
      ApplyConfirmation(r, now, clock);
    }

    /** The effect of a decided confirmation on the screen and the connection. */
    method ApplyConfirmation(r: ConfirmOutcome, now: int, clock: int -> (nat, nat))
      requires Sound() && (r.Confirmed? ==> r.userId != [] && ValidUserId(r.userId))
      modifies this`userId, this`userIdInput, this`messages, this`nextId, session`userId
      ensures Sound()
      ensures r.NothingToConfirm? ==>
        (userId == old(userId) && userIdInput == old(userIdInput) && messages == old(messages) && nextId == old(nextId))
      ensures r.IdTooLong? ==> (userId == old(userId) && userIdInput == old(userIdInput))
      ensures r.IdTooLong? ==>
        (messages == old(messages) + [SystemMessage(old(nextId), IdTooLongNotice, now, clock)] && nextId == old(nextId) + 1)
      ensures r.Confirmed? ==>
        (userId == r.userId && userIdInput == [] && messages == old(messages) && nextId == old(nextId))
      ensures pendingMessage == old(pendingMessage)
      ensures session.State() == old(session.State()).(userId := userId) && session.outbox == old(session.outbox)
    {
      match r
      case NothingToConfirm =>
      case IdTooLong =>
        RejectUserId(now, clock);
      case Confirmed(u) =>
        AdoptUserId(u);
    }

    /** The notice for an id over the length bound; the session is not touched. */
    method RejectUserId(now: int, clock: int -> (nat, nat))
      requires Sound()
      modifies this`messages, this`nextId
      ensures messages == old(messages) + [SystemMessage(old(nextId), IdTooLongNotice, now, clock)]
      ensures nextId == old(nextId) + 1 && Sound()
      ensures session.State() == old(session.State()) && session.outbox == old(session.outbox)
    {
      AppendNotice(IdTooLongNotice, now, clock);
    }

    /** `setUserId(trimmed)`, `setUserIdInput("")`, and the effect that copies the id into the
        connection's `userIdRef`. */
    method AdoptUserId(u: string)
      requires Sound() && u != [] && ValidUserId(u)
      modifies this`userId, this`userIdInput, session`userId
      ensures userId == u && userIdInput == [] && Sound()
      ensures session.State() == old(session.State()).(userId := u) && session.outbox == old(session.outbox)
    {
      userId := u;
      userIdInput := [];
      session.SyncUserId(u);
    }

    /** `handleSendMessage`: the checks in order; a message that passes them is shown at once
        as one's own, the input is cleared, and the connection sends it if it can. */
    method SendMessage(now: int, clock: int -> (nat, nat)) returns (r: SendOutcome)
      requires Sound()
      modifies this`messages, this`nextId, this`pendingMessage, session`outbox
      ensures r == SendDecision(session.status, old(pendingMessage), userId) && Sound()
      ensures Notice(r).Some? ==>
        (messages == old(messages) + [SystemMessage(old(nextId), Notice(r).value, now, clock)] && nextId == old(nextId) + 1)
      ensures !r.Sent? ==> pendingMessage == old(pendingMessage) && session.outbox == old(session.outbox)
      ensures r.Blank? ==> messages == old(messages) && nextId == old(nextId)
      ensures r.Sent? ==>
        && messages == AddMessage(old(messages), LocalChatMessage(old(nextId), userId, r.text, now, true,
                                   ChatUtils.FormatTimeLabel(clock(now).0, clock(now).1)))
        && nextId == old(nextId) + 1 && pendingMessage == []
        && session.outbox == old(session.outbox) +
             (if ConnectionManager.CanSend(session.State())
              then [(session.socketRef.value, ToJson(ServerChatMessage(userId, r.text, now)))] else [])
    {
      r := SendDecision(session.status, pendingMessage, userId);
      ApplySend(r, now, clock);
    }

    /** The effect of a decided send on the screen and the connection. */
    method ApplySend(r: SendOutcome, now: int, clock: int -> (nat, nat))
      requires Sound()
      modifies this`messages, this`nextId, this`pendingMessage, session`outbox
      ensures Sound()
      ensures Notice(r).Some? ==>
        (messages == old(messages) + [SystemMessage(old(nextId), Notice(r).value, now, clock)] && nextId == old(nextId) + 1)
      ensures !r.Sent? ==> pendingMessage == old(pendingMessage) && session.outbox == old(session.outbox)
      ensures r.Blank? ==> messages == old(messages) && nextId == old(nextId)
      ensures r.Sent? ==>
        && messages == AddMessage(old(messages), LocalChatMessage(old(nextId), userId, r.text, now, true,
                                   ChatUtils.FormatTimeLabel(clock(now).0, clock(now).1)))
        && nextId == old(nextId) + 1 && pendingMessage == []
        && session.outbox == old(session.outbox) +
             (if ConnectionManager.CanSend(session.State())
              then [(session.socketRef.value, ToJson(ServerChatMessage(userId, r.text, now)))] else [])
    {
      if r.Sent? {
        ShowAndSend(r.text, now, clock);
      } else if r.Blank? {
        assert Notice(r).None?;
      } else {
        NoticeOnly(Notice(r).value, now, clock);
      }
    }

    /** A refused send: the notice is appended and the input and the connection stay. */
    method NoticeOnly(text: string, now: int, clock: int -> (nat, nat))
      requires Sound()
      modifies this`messages, this`nextId
      ensures messages == old(messages) + [SystemMessage(old(nextId), text, now, clock)]
      ensures nextId == old(nextId) + 1 && Sound()
    {
      AppendNotice(text, now, clock);
    }

    /** The successful end of `handleSendMessage`: the local copy, the cleared input and the
        payload handed to `sendMessage`. */
    method ShowAndSend(text: string, now: int, clock: int -> (nat, nat))
      requires Sound()
      modifies this`messages, this`nextId, this`pendingMessage, session`outbox
      ensures Sound() && nextId == old(nextId) + 1 && pendingMessage == []
      ensures messages == AddMessage(old(messages), LocalChatMessage(old(nextId), userId, text, now, true,
                                      ChatUtils.FormatTimeLabel(clock(now).0, clock(now).1)))
      ensures session.outbox == old(session.outbox) +
        (if ConnectionManager.CanSend(session.State())
         then [(session.socketRef.value, ToJson(ServerChatMessage(userId, text, now)))] else [])
    {
      var payload := ServerChatMessage(userId, text, now);
      var local := LocalChatMessage(nextId, userId, text, now, true, ChatUtils.FormatTimeLabel(clock(now).0, clock(now).1));
      Show(local);
      pendingMessage := [];
      Transmit(payload);
    }

    /** `sendMessage(payload)` through the screen's connection. */
    method Transmit(payload: ServerChatMessage)
      requires Sound()
      modifies session`outbox
      ensures Sound()
      ensures session.outbox == old(session.outbox) +
        (if ConnectionManager.CanSend(session.State()) then [(session.socketRef.value, ToJson(payload))] else [])
    {
      var _ := session.SendMessage(payload);
    }

    /** `setMessages(prev => addMessage(prev, entry))` for an entry carrying the next id. */
    method Show(entry: LocalChatMessage)
      requires Sound() && entry.id == nextId
      modifies this`messages, this`nextId
      ensures messages == AddMessage(old(messages), entry) && nextId == old(nextId) + 1 && Sound()
    {
      AddMessageKeepsIds(messages, entry, nextId);
      messages := AddMessage(messages, entry);
      nextId := nextId + 1;
    }

    /** `handleMessage`, for a message the connection delivered. */
    method ReceiveMessage(m: LocalChatMessage)
      requires Sound()
      modifies this`messages, this`nextId
      ensures (messages, nextId) == Incoming(old(messages), m, userId, old(nextId)) && Sound()
    {
      if m.userId == userId && IsDuplicate(messages, m) {
        return;
      }
      Show(m.(id := nextId));
    }

    /** A frame arriving on the connection: decoded by the hook, then handed to the screen. */
    method ReceiveFrame(frame: Option<JsonValue>, now: int, clock: int -> (nat, nat))
      requires Sound()
      modifies this`messages, this`nextId
      ensures var d := ConnectionManager.Deliver(frame, userId, now, clock);
        d.None? ==> messages == old(messages) && nextId == old(nextId)
      ensures var d := ConnectionManager.Deliver(frame, userId, now, clock);
        d.Some? ==> (messages, nextId) == Incoming(old(messages), d.value, userId, old(nextId))
      ensures Sound()
    {
      var d := session.Receive(frame, now, clock);
      if d.Some? {
        ReceiveMessage(d.value);
      }
    }
  }
}
