/** The chat client's connection manager (`ChatSystem/src/hooks/useWebSocket.ts`).

    The hook keeps its state in React state (`connectionStatus`, `shouldReconnect`) and refs
    (`socketRef`, `reconnectAttemptsRef`, `userIdRef`). The transport, the timers and animation
    frames are inputs: every socket the hook creates gets an index in `sockets`, and the events
    that drive the hook are the socket opening, the socket closing with a code, the connect
    timeout of a socket firing, and an animation frame.

    The connect effect depends on `[shouldReconnect]`: after every handler React re-runs it
    (cleanup first) exactly when the value of `shouldReconnect` differs from the one the effect
    last ran with. `Step` is the hook as written; `StepIntended` re-runs the effect on every
    reconnect request instead (see the findings). */
module ConnectionManager {
  import opened Base
  import opened Json
  import opened ChatTypes
  import ChatUtils

  const MaxReconnectAttempts: nat := 10
  /** `maxFrames`: a reconnect is requested on the 180th call of `scheduleReconnect`. */
  const ReconnectFrames: nat := 180
  const NormalClosure: int := 1000

  /** `readyState` 0..3 of a client socket. */
  datatype SocketState = SocketConnecting | SocketOpen | SocketClosing | SocketClosed

  /** What the JavaScript environment provides: the `WebSocket` class, whether its constructor
      throws, and the optional timer functions. */
  datatype Runtime = Runtime(
    hasWebSocket: bool,
    constructorThrows: bool,
    hasSetTimeout: bool,
    hasClearTimeout: bool,
    hasAnimationFrame: bool)

  /** `requestAnimationFrame || setTimeout || (() => {})`: without either, the no-op is used and
      the reconnect chain never advances. */
  predicate HasScheduler(rt: Runtime) {
    rt.hasAnimationFrame || rt.hasSetTimeout
  }

  /** The state of one mounted hook. */
  datatype Hook = Hook(
    status: ConnectionStatus,
    shouldReconnect: bool,
    /** The value of `shouldReconnect` the connect effect last ran with. */
    effectDeps: bool,
    /** `reconnectAttemptsRef.current`. */
    attempts: nat,
    /** `socketRef.current`, as an index into `sockets`. */
    socketRef: Option<nat>,
    /** The local `socket` of the last effect run, which its cleanup closes; `None` when that
        run returned no cleanup or created no socket. */
    live: Option<nat>,
    sockets: seq<SocketState>,
    /** Whether the connect timeout of socket `i` is still pending. */
    timers: seq<bool>,
    /** The `frameCount` of every `scheduleReconnect` chain still waiting for a frame. */
    chains: seq<nat>,
    /** `userIdRef.current`. */
    userId: string,
    mounted: bool)

  datatype Event =
    | Opened(socket: nat)
    /** The socket's `close` event; `code` is `event?.code || 0`. */
    | ClosedWith(socket: nat, code: int)
    | TimedOut(socket: nat)
    | Frame
    | UserIdChanged(userId: string)
    | Unmounted

  predicate WellFormed(h: Hook) {
    && |h.timers| == |h.sockets|
    && (h.live.Some? ==> h.live.value < |h.sockets|)
    && (h.socketRef.Some? ==> h.socketRef.value < |h.sockets|)
  }

  /** The invariant every reachable state keeps. */
  predicate Valid(h: Hook) {
    && WellFormed(h)
    && h.attempts <= MaxReconnectAttempts
    && (h.live.Some? ==> h.live.value == |h.sockets| - 1)
    && (h.socketRef.Some? ==> h.socketRef == h.live)
    && (h.mounted ==> h.effectDeps == h.shouldReconnect)
    && (forall i | 0 <= i < |h.chains| :: 1 <= h.chains[i] < ReconnectFrames)
  }

  /** Which events the environment can deliver in state `h`. */
  predicate Enabled(h: Hook, e: Event) {
    match e
    case Opened(s) => s < |h.sockets| && h.sockets[s] == SocketConnecting
    case ClosedWith(s, _) => s < |h.sockets| && h.sockets[s] != SocketClosed
    case TimedOut(s) => s < |h.timers| && h.timers[s]
    case Frame => true
    case UserIdChanged(_) => true
    case Unmounted => h.mounted
  }

  /** `socket.close()`: an opening or open socket starts closing. */
  function CloseRequested(s: SocketState): (r: SocketState)
    ensures r == SocketClosing || r == SocketClosed
    ensures s == SocketClosed ==> r == SocketClosed
  {
    match s
    case SocketConnecting => SocketClosing
    case SocketOpen => SocketClosing
    case SocketClosing => SocketClosing
    case SocketClosed => SocketClosed
  }

  /** The cleanup the last effect run returned: clear its timer, close its socket and clear
      `socketRef`. */
  function Cleanup(h: Hook, rt: Runtime): (r: Hook)
    requires WellFormed(h)
    ensures WellFormed(r) && r.live.None?
    ensures |r.sockets| == |h.sockets| && r.chains == h.chains && r.status == h.status
    ensures r.attempts == h.attempts && r.shouldReconnect == h.shouldReconnect
    ensures h.live.Some? ==> r.socketRef.None? && r.sockets[h.live.value] == CloseRequested(h.sockets[h.live.value])
    ensures h.live.Some? && rt.hasClearTimeout ==> !r.timers[h.live.value]
    ensures h.live.None? ==> r == h
  {
    match h.live
    case None => h
    case Some(s) =>
      h.(timers := if rt.hasClearTimeout then h.timers[s := false] else h.timers,
         sockets := h.sockets[s := CloseRequested(h.sockets[s])],
         socketRef := None,
         live := None)
  }

  /** The body of the connect effect. `limit` is the bound of the guard at its top; the hook
      as written uses `MaxReconnectAttempts`. */
  function Connect(h: Hook, rt: Runtime, limit: nat): (r: Hook)
    requires WellFormed(h) && h.live.None?
    ensures WellFormed(r)
    ensures r.attempts == h.attempts && r.chains == h.chains && r.shouldReconnect == h.shouldReconnect
    ensures h.shouldReconnect && h.attempts >= limit ==> r == h
    ensures !(h.shouldReconnect && h.attempts >= limit) ==>
      if rt.hasWebSocket && !rt.constructorThrows then
        && r.sockets == h.sockets + [SocketConnecting] && r.timers == h.timers + [rt.hasSetTimeout]
        && r.socketRef == r.live == Some(|h.sockets|) && r.status == Connecting
      else
        r == h.(status := Error)
  {
    if h.shouldReconnect && h.attempts >= limit then h
    else if !rt.hasWebSocket || rt.constructorThrows then h.(status := Error)
    else
      var s := |h.sockets|;
      h.(sockets := h.sockets + [SocketConnecting], timers := h.timers + [rt.hasSetTimeout],
         socketRef := Some(s), live := Some(s), status := Connecting)
  }

  /** One re-run of the connect effect: the previous cleanup, then the body. */
  function Rerun(h: Hook, rt: Runtime, limit: nat): (r: Hook)
    requires WellFormed(h)
    ensures WellFormed(r) && r.effectDeps == h.shouldReconnect
  {
    Connect(Cleanup(h, rt).(effectDeps := h.shouldReconnect), rt, limit)
  }

  /** What React does after a handler as written: re-run the effect iff `shouldReconnect`
      changed value. */
  function Commit(h: Hook, rt: Runtime): (r: Hook)
    requires WellFormed(h)
    ensures WellFormed(r)
    ensures h.mounted ==> r.effectDeps == h.shouldReconnect
    ensures !h.mounted || h.shouldReconnect == h.effectDeps ==> r == h
  {
    if h.mounted && h.shouldReconnect != h.effectDeps then Rerun(h, rt, MaxReconnectAttempts) else h
  }

  /** The first render: `userIdRef` is synchronised, then the connect effect runs. */
  function Init(rt: Runtime, userId: string): (r: Hook)
    ensures Valid(r) && r.mounted && r.attempts == 0 && r.chains == [] && !r.shouldReconnect
    ensures rt.hasWebSocket && !rt.constructorThrows ==>
      r.status == Connecting && r.sockets == [SocketConnecting] && r.socketRef == Some(0)
    ensures !(rt.hasWebSocket && !rt.constructorThrows) ==> r.status == Error && r.sockets == []
  {
    Connect(Hook(Connecting, false, false, 0, None, None, [], [], [], userId, true), rt, MaxReconnectAttempts)
  }

  /** `handleOpen` of socket `s`. */
  function OnOpen(h: Hook, s: nat, rt: Runtime): (r: Hook)
    requires WellFormed(h) && s < |h.sockets|
    ensures WellFormed(r)
  {
    h.(sockets := h.sockets[s := SocketOpen], status := Open, attempts := 0, shouldReconnect := false,
       timers := if rt.hasClearTimeout then h.timers[s := false] else h.timers)
  }

  /** `handleClose` of socket `s`. */
  function OnClose(h: Hook, s: nat, code: int, rt: Runtime): (r: Hook)
    requires WellFormed(h) && s < |h.sockets|
    ensures WellFormed(r)
  {
    var h1 := h.(sockets := h.sockets[s := SocketClosed], socketRef := None);
    if code == NormalClosure then h1.(status := Closed)
    else if h1.attempts < MaxReconnectAttempts then
      h1.(attempts := h1.attempts + 1, status := Connecting,
          chains := if HasScheduler(rt) then h1.chains + [1] else h1.chains)
    else h1.(status := Error)
  }

  /** The connect-timeout callback of socket `s`. */
  function OnTimeout(h: Hook, s: nat): (r: Hook)
    requires WellFormed(h) && s < |h.sockets|
    ensures WellFormed(r)
  {
    var h1 := h.(timers := h.timers[s := false]);
    if h.sockets[s] != SocketOpen then h1.(sockets := h.sockets[s := CloseRequested(h.sockets[s])], status := Error)
    else h1
  }

  /** One animation frame for every pending `scheduleReconnect` chain: its `frameCount` grows by
      one, and a chain reaching 180 requests a reconnect and ends. The second component says
      whether some chain requested. */
  function AdvanceChains(cs: seq<nat>): (r: (seq<nat>, bool))
    ensures |r.0| <= |cs|
  {
    if cs == [] then ([], false)
    else
      var rest := AdvanceChains(cs[1..]);
      if cs[0] + 1 >= ReconnectFrames then (rest.0, true)
      else ([cs[0] + 1] + rest.0, rest.1)
  }

  /** A reconnect is requested exactly when some chain reaches 180; the chains left keep
      counts between 1 and 179; and while none reaches 180, every chain just counts one up. */
  lemma {:induction false} AdvanceChainsFacts(cs: seq<nat>)
    ensures AdvanceChains(cs).1 <==> exists i | 0 <= i < |cs| :: cs[i] + 1 >= ReconnectFrames
    ensures (forall i | 0 <= i < |cs| :: cs[i] >= 1) ==>
      forall i | 0 <= i < |AdvanceChains(cs).0| :: 1 <= AdvanceChains(cs).0[i] < ReconnectFrames
    ensures (forall i | 0 <= i < |cs| :: cs[i] + 1 < ReconnectFrames) ==>
      AdvanceChains(cs).0 == seq(|cs|, i requires 0 <= i < |cs| => cs[i] + 1)
    decreases |cs|
  {
    if cs != [] {
      AdvanceChainsFacts(cs[1..]);
      assert forall i | 1 <= i < |cs| :: cs[1..][i - 1] == cs[i];
    }
  }

  function OnFrame(h: Hook): (r: Hook) {
    var a := AdvanceChains(h.chains);
    h.(chains := a.0, shouldReconnect := if a.1 then true else h.shouldReconnect)
  }

  /** One event and the commit that follows it, as written. */
  function Step(h: Hook, e: Event, rt: Runtime): (r: Hook)
    requires WellFormed(h) && Enabled(h, e)
    ensures WellFormed(r)
  {
    match e
    case Opened(s) => Commit(OnOpen(h, s, rt), rt)
    case ClosedWith(s, code) => Commit(OnClose(h, s, code, rt), rt)
    case TimedOut(s) => Commit(OnTimeout(h, s), rt)
    case Frame => Commit(OnFrame(h), rt)
    case UserIdChanged(u) => h.(userId := u)
    case Unmounted => Cleanup(h, rt).(mounted := false)
  }

  /** The commit of the corrected hook: the connect effect re-runs on every reconnect request
      (as if it depended on a request counter rather than on a boolean), and its guard lets
      the tenth announced attempt through. */
  function CommitIntended(h: Hook, requested: bool, rt: Runtime): (r: Hook)
    requires WellFormed(h)
    ensures WellFormed(r)
    ensures h.mounted ==> r.effectDeps == h.shouldReconnect
  {
    if !h.mounted then h
    else if requested then Rerun(h, rt, MaxReconnectAttempts + 1)
    else h.(effectDeps := h.shouldReconnect)
  }

  /** One event of the corrected hook. */
  function StepIntended(h: Hook, e: Event, rt: Runtime): (r: Hook)
    requires WellFormed(h) && Enabled(h, e)
    ensures WellFormed(r)
  {
    match e
    case Opened(s) => CommitIntended(OnOpen(h, s, rt), false, rt)
    case ClosedWith(s, code) => CommitIntended(OnClose(h, s, code, rt), false, rt)
    case TimedOut(s) => CommitIntended(OnTimeout(h, s), false, rt)
    case Frame => CommitIntended(OnFrame(h), AdvanceChains(h.chains).1, rt)
    case UserIdChanged(u) => h.(userId := u)
    case Unmounted => Cleanup(h, rt).(mounted := false)
  }

  /** The hook as written, or corrected. */
  datatype Design = AsWritten | Intended

  function StepIn(d: Design, h: Hook, e: Event, rt: Runtime): (r: Hook)
    requires WellFormed(h) && Enabled(h, e)
    ensures WellFormed(r)
  {
    if d == AsWritten then Step(h, e, rt) else StepIntended(h, e, rt)
  }

  /** The events `es` in turn from `h`; `None` when one of them cannot occur. */
  function Run(d: Design, h: Hook, es: seq<Event>, rt: Runtime): (r: Option<Hook>)
    requires WellFormed(h)
    ensures r.Some? ==> WellFormed(r.value)
    decreases |es|
  {
    if es == [] then Some(h)
    else if !Enabled(h, es[0]) then None
    else Run(d, StepIn(d, h, es[0], rt), es[1..], rt)
  }

  // ---------------------------------------------------------------------------------------
  // The hook: one object whose fields are the hook's state, one method per callback.

  class WebSocketSession {
    const rt: Runtime
    var status: ConnectionStatus
    var shouldReconnect: bool
    var effectDeps: bool
    var attempts: nat
    var socketRef: Option<nat>
    var live: Option<nat>
    var sockets: seq<SocketState>
    var timers: seq<bool>
    var chains: seq<nat>
    var userId: string
    var mounted: bool
    /** Every frame `sendMessage` handed to a socket, with the socket's index. */
    var outbox: seq<(nat, JsonValue)>

    function State(): Hook
      reads this`status, this`shouldReconnect, this`effectDeps, this`attempts, this`socketRef, this`live,
        this`sockets, this`timers, this`chains, this`userId, this`mounted
    {
      Hook(status, shouldReconnect, effectDeps, attempts, socketRef, live, sockets, timers, chains, userId, mounted)
    }

    predicate Sound()
      reads this`status, this`shouldReconnect, this`effectDeps, this`attempts, this`socketRef, this`live,
        this`sockets, this`timers, this`chains, this`userId, this`mounted
    {
      Valid(State())
    }

    /** Mounting the hook. */
    constructor (env: Runtime, user: string)
      ensures rt == env && State() == Init(env, user) && outbox == [] && Sound()
    {
      rt := env;
      status, shouldReconnect, effectDeps, attempts := Connecting, false, false, 0;
      socketRef, live, sockets, timers, chains := None, None, [], [], [];
      userId, mounted := user, true;
      outbox := [];
      new;
      ConnectEffect();
    }

    /** The cleanup of the last effect run. */
    method RunCleanup()
      requires WellFormed(State())
      modifies this
      ensures State() == Cleanup(old(State()), rt) && outbox == old(outbox)
    {
      if live.Some? {
        var s := live.value;
        if rt.hasClearTimeout {
          timers := timers[s := false];
        }
        sockets := sockets[s := CloseRequested(sockets[s])];
        socketRef := None;
        live := None;
      }
    }

    /** The body of the connect effect. */
    method ConnectEffect()
      requires WellFormed(State()) && live.None?
      modifies this
      ensures State() == Connect(old(State()), rt, MaxReconnectAttempts) && outbox == old(outbox)
    {
      if shouldReconnect && attempts >= MaxReconnectAttempts {
        return;
      }
      if !rt.hasWebSocket || rt.constructorThrows {
        status := Error;
        return;
      }
      var s := |sockets|;
      sockets := sockets + [SocketConnecting];
      timers := timers + [rt.hasSetTimeout];
      socketRef := Some(s);
      live := Some(s);
      status := Connecting;
    }

    /** React's commit after a handler. */
    method CommitEffects()
      requires WellFormed(State())
      modifies this
      ensures State() == Commit(old(State()), rt) && outbox == old(outbox)
    {
      if mounted && shouldReconnect != effectDeps {
        RunCleanup();
        effectDeps := shouldReconnect;
        ConnectEffect();
      }
    }

    /** `handleOpen` of socket `s`. */
    method HandleOpen(s: nat)
      requires Sound() && Enabled(State(), Opened(s))
      modifies this
      ensures State() == Step(old(State()), Opened(s), rt) && outbox == old(outbox) && Sound()
    {
      StepKeepsValid(State(), Opened(s), rt);
      OpenHandler(s);
      CommitEffects();
    }

    /** The state updates of `handleOpen`, before React's commit. */
    method OpenHandler(s: nat)
      requires WellFormed(State()) && s < |sockets|
      modifies this`sockets, this`status, this`attempts, this`shouldReconnect, this`timers
      ensures State() == OnOpen(old(State()), s, rt)
    {
      sockets := sockets[s := SocketOpen];
      status := Open;
      attempts := 0;
      shouldReconnect := false;
      if rt.hasClearTimeout {
        timers := timers[s := false];
      }
    }

    /** `handleClose` of socket `s` with the close code already defaulted to 0. */
    method HandleClose(s: nat, code: int)
      requires Sound() && Enabled(State(), ClosedWith(s, code))
      modifies this
      ensures State() == Step(old(State()), ClosedWith(s, code), rt) && outbox == old(outbox) && Sound()
    {
      StepKeepsValid(State(), ClosedWith(s, code), rt);
      CloseHandler(s, code);
      CommitEffects();
    }

    /** The state updates of `handleClose`, before React's commit. */
    method CloseHandler(s: nat, code: int)
      requires WellFormed(State()) && s < |sockets|
      modifies this`sockets, this`socketRef, this`status, this`attempts, this`chains
      ensures State() == OnClose(old(State()), s, code, rt)
    {
      sockets := sockets[s := SocketClosed];
      socketRef := None;
      if code == NormalClosure {
        status := Closed;
      } else if attempts < MaxReconnectAttempts {
        attempts := attempts + 1;
        status := Connecting;
        if HasScheduler(rt) {
          chains := chains + [1];
        }
      } else {
        status := Error;
      }
    }

    /** The connect-timeout callback of socket `s`. */
    method HandleTimeout(s: nat)
      requires Sound() && Enabled(State(), TimedOut(s))
      modifies this
      ensures State() == Step(old(State()), TimedOut(s), rt) && outbox == old(outbox) && Sound()
    {
      StepKeepsValid(State(), TimedOut(s), rt);
      TimeoutHandler(s);
      CommitEffects();
    }

    /** The state updates of the timeout callback, before React's commit. */
    method TimeoutHandler(s: nat)
      requires WellFormed(State()) && s < |sockets|
      modifies this`timers, this`sockets, this`status
      ensures State() == OnTimeout(old(State()), s)
    {
      timers := timers[s := false];
      if sockets[s] != SocketOpen {
        sockets := sockets[s := CloseRequested(sockets[s])];
        status := Error;
      }
    }

    /** An animation frame: every pending `scheduleReconnect` chain runs once. */
    method HandleFrame()
      requires Sound()
      modifies this
      ensures State() == Step(old(State()), Frame, rt) && outbox == old(outbox) && Sound()
    {
      StepKeepsValid(State(), Frame, rt);
      var remaining, requested := RunChains(chains);
      chains := remaining;
      if requested {
        shouldReconnect := true;
      }
      CommitEffects();
    }

    /** The synchronising effect: `userIdRef.current = userId`. */
    method SyncUserId(u: string)
      requires Sound()
      modifies this`userId
      ensures State() == Step(old(State()), UserIdChanged(u), rt) && Sound()
      ensures State() == old(State()).(userId := u)
    {
      StepKeepsValid(State(), UserIdChanged(u), rt);
      userId := u;
    }

    /** Unmounting: the last cleanup runs and no effect runs again. */
    method Unmount()
      requires Sound() && mounted
      modifies this
      ensures State() == Step(old(State()), Unmounted, rt) && outbox == old(outbox) && Sound()
    {
      StepKeepsValid(State(), Unmounted, rt);
      RunCleanup();
      mounted := false;
    }

    /** `sendMessage`: the payload goes out only through a `socketRef` socket in state 1. */
    method SendMessage(payload: ServerChatMessage) returns (ok: bool)
      requires WellFormed(State())
      modifies this`outbox
      ensures ok == CanSend(State())
      ensures outbox == if ok then old(outbox) + [(socketRef.value, ToJson(payload))] else old(outbox)
    {
      ok := socketRef.Some? && sockets[socketRef.value] == SocketOpen;
      if ok {
        outbox := outbox + [(socketRef.value, ToJson(payload))];
      }
    }

    /** `handleMessage` of any of the hook's sockets, for the current `userIdRef`. */
    function Receive(frame: Option<JsonValue>, now: int, clock: int -> (nat, nat)): (r: Option<LocalChatMessage>)
      reads this`userId
    {
      Deliver(frame, userId, now, clock)
    }
  }

  /** The `scheduleReconnect` calls of one frame, chain by chain. */
  method RunChains(cs: seq<nat>) returns (remaining: seq<nat>, requested: bool)
    ensures (remaining, requested) == AdvanceChains(cs)
  {
    remaining, requested := [], false;
    var pending := cs;
    while pending != []
      invariant AdvanceFrom(remaining, requested, pending) == AdvanceFrom([], false, cs)
      decreases |pending|
    {
      var frameCount := pending[0] + 1;
      if frameCount >= ReconnectFrames {
        requested := true;
      } else {
        remaining := remaining + [frameCount];
      }
      pending := pending[1..];
    }
    AdvanceFromChains([], false, cs);
    assert [] + AdvanceChains(cs).0 == AdvanceChains(cs).0;
  }

  /** The frame's chains run one after the other, from what the earlier ones left
      (`remaining`) and whether they requested. */
  function AdvanceFrom(remaining: seq<nat>, requested: bool, pending: seq<nat>): (seq<nat>, bool)
    decreases |pending|
  {
    if pending == [] then (remaining, requested)
    else
      var fc := pending[0] + 1;
      if fc >= ReconnectFrames then AdvanceFrom(remaining, true, pending[1..])
      else AdvanceFrom(remaining + [fc], requested, pending[1..])
  }

  /** Running the chains one by one appends what `AdvanceChains` leaves to what was left before. */
  lemma {:induction false} AdvanceFromChains(remaining: seq<nat>, requested: bool, pending: seq<nat>)
    ensures AdvanceFrom(remaining, requested, pending) ==
      (remaining + AdvanceChains(pending).0, requested || AdvanceChains(pending).1)
    decreases |pending|
  {
    if pending == [] {
      assert remaining + [] == remaining;
    } else {
      var fc := pending[0] + 1;
      var rest := AdvanceChains(pending[1..]);
      if fc >= ReconnectFrames {
        AdvanceFromChains(remaining, true, pending[1..]);
      } else {
        AdvanceFromChains(remaining + [fc], requested, pending[1..]);
        assert (remaining + [fc]) + rest.0 == remaining + ([fc] + rest.0);
      }
    }
  }

  /** The send gate: a socket in `socketRef` whose `readyState` is 1. */
  predicate CanSend(h: Hook)
    requires WellFormed(h)
  {
    h.socketRef.Some? && h.sockets[h.socketRef.value] == SocketOpen
  }

  // ---------------------------------------------------------------------------------------
  // Inbound frames.

  /** The fields `handleMessage` reads from a parsed frame; `None` when the frame is ignored.
      A chat frame is taken here only when its `userId` and `text` are strings and its
      `timestamp` a number. */
  function Decode(frame: Option<JsonValue>): (r: Option<ServerChatMessage>)
    ensures r.Some? ==> frame.Some? && Prop(frame.value, "type") == Some(JStr(ChatKind))
  {
    match frame
    case None => None
    case Some(v) =>
      if Prop(v, "type") != Some(JStr(ChatKind)) then None
      else if !HasString(v, "userId") || !HasString(v, "text") then None
      else if Prop(v, "timestamp").None? || !Prop(v, "timestamp").value.JNum? then None
      else Some(ServerChatMessage(StringProp(v, "userId"), StringProp(v, "text"), Prop(v, "timestamp").value.n))
  }

  /** The message handed to `onMessage`: the frame's fields, `id` from the clock, `self`
      from the current user id, and the label of the frame's timestamp on the local clock. */
  function Deliver(frame: Option<JsonValue>, userId: string, now: int, clock: int -> (nat, nat)): (r: Option<LocalChatMessage>)
    ensures r.Some? <==> Decode(frame).Some?
    ensures r.Some? ==> var m := Decode(frame).value;
      && r.value.userId == m.userId && r.value.text == m.text && r.value.timestamp == m.timestamp
      && (r.value.self <==> m.userId == userId)
  {
    match Decode(frame)
    case None => None
    case Some(m) =>
      var hm := clock(m.timestamp);
      Some(LocalChatMessage(now, m.userId, m.text, m.timestamp, m.userId == userId, ChatUtils.FormatTimeLabel(hm.0, hm.1)))
  }

  /** What the server broadcasts is delivered with its own fields. */
  lemma DecodeToJson(m: ServerChatMessage)
    ensures Decode(Some(ToJson(m))) == Some(m)
  {
  }

  /** A frame that did not parse, or whose `type` is not `"chat-message"`, is ignored. */
  lemma NonChatFramesIgnored(frame: Option<JsonValue>, userId: string, now: int, clock: int -> (nat, nat))
    requires frame.None? || Prop(frame.value, "type") != Some(JStr(ChatKind))
    ensures Deliver(frame, userId, now, clock).None?
  {
  }

  // ---------------------------------------------------------------------------------------
  // Properties of the hook as written.

  lemma StepKeepsValid(h: Hook, e: Event, rt: Runtime)
    requires Valid(h) && Enabled(h, e)
    ensures Valid(Step(h, e, rt))
  {
    match e
    case Opened(s) =>
      OpenKeepsValid(h, s, rt);
      CommitKeepsValid(OnOpen(h, s, rt), rt);
    case ClosedWith(s, code) =>
      CloseKeepsValid(h, s, code, rt);
      CommitKeepsValid(OnClose(h, s, code, rt), rt);
    case TimedOut(s) =>
      TimeoutKeepsValid(h, s);
      CommitKeepsValid(OnTimeout(h, s), rt);
    case Frame =>
      FrameKeepsValid(h);
      CommitKeepsValid(OnFrame(h), rt);
    case UserIdChanged(_) =>
    case Unmounted =>
  }

  lemma OpenKeepsValid(h: Hook, s: nat, rt: Runtime)
    requires Valid(h) && Enabled(h, Opened(s))
    ensures ValidButDeps(OnOpen(h, s, rt))
  {
  }

  lemma CloseKeepsValid(h: Hook, s: nat, code: int, rt: Runtime)
    requires Valid(h) && Enabled(h, ClosedWith(s, code))
    ensures ValidButDeps(OnClose(h, s, code, rt))
  {
    var r := OnClose(h, s, code, rt);
    if code != NormalClosure && h.attempts < MaxReconnectAttempts && HasScheduler(rt) {
      assert r.chains == h.chains + [1];
      assert forall i | 0 <= i < |h.chains| :: r.chains[i] == h.chains[i];
    } else {
      assert r.chains == h.chains;
    }
  }

  lemma TimeoutKeepsValid(h: Hook, s: nat)
    requires Valid(h) && Enabled(h, TimedOut(s))
    ensures ValidButDeps(OnTimeout(h, s))
  {
  }

  lemma FrameKeepsValid(h: Hook)
    requires Valid(h)
    ensures ValidButDeps(OnFrame(h))
  {
    AdvanceChainsFacts(h.chains);
  }

  /** A handler's own changes keep the invariant except for the effect dependency, which the
      commit restores. */
  predicate ValidButDeps(h: Hook) {
    && WellFormed(h)
    && h.attempts <= MaxReconnectAttempts
    && (h.live.Some? ==> h.live.value == |h.sockets| - 1)
    && (h.socketRef.Some? ==> h.socketRef == h.live)
    && (forall i | 0 <= i < |h.chains| :: 1 <= h.chains[i] < ReconnectFrames)
  }

  lemma CommitKeepsValid(h: Hook, rt: Runtime)
    requires ValidButDeps(h)
    ensures Valid(Commit(h, rt))
  {
  }

  /** Mounting starts in `connecting`; without `WebSocket`, or when its constructor throws, the
      status is `error` and there is no socket to send on. */
  lemma InitialStatus(rt: Runtime, userId: string)
    ensures var h := Init(rt, userId);
      && (rt.hasWebSocket && !rt.constructorThrows ==> h.status == Connecting)
      && (!rt.hasWebSocket || rt.constructorThrows ==> h.status == Error && !CanSend(h))
  {
  }

  /** Every connect attempt sets `connecting`; an attempt that cannot create a socket sets
      `error`. */
  lemma ConnectStatus(h: Hook, rt: Runtime)
    requires WellFormed(h) && h.live.None? && !(h.shouldReconnect && h.attempts >= MaxReconnectAttempts)
    ensures var r := Connect(h, rt, MaxReconnectAttempts);
      && (rt.hasWebSocket && !rt.constructorThrows ==> r.status == Connecting && |r.sockets| == |h.sockets| + 1)
      && (!rt.hasWebSocket || rt.constructorThrows ==> r.status == Error && r.sockets == h.sockets)
  {
  }

  /** A connect attempt is skipped entirely, with nothing changed, when a reconnect was requested
      and the counter is at 10 or more. */
  lemma ExhaustedRequestSkipped(h: Hook, rt: Runtime)
    requires WellFormed(h) && h.live.None? && h.shouldReconnect && h.attempts >= MaxReconnectAttempts
    ensures Connect(h, rt, MaxReconnectAttempts) == h
  {
  }

  /** The tenth announced reconnect as written: the abnormal close that announced it left
      `connecting` with the counter at 10, and the guard `>= 10` then skips the attempt, so no
      socket is made and the status is left at `connecting` instead of reaching `error`. With the
      guard raised by one, as `CommitIntended` does, the same request makes the attempt. */
  lemma TenthRetrySkipped(h: Hook, rt: Runtime)
    requires WellFormed(h) && h.live.None? && h.shouldReconnect
    requires h.attempts == MaxReconnectAttempts && h.status == Connecting
    requires rt.hasWebSocket && !rt.constructorThrows
    ensures var r := Connect(h, rt, MaxReconnectAttempts);
      r.status == Connecting && r.sockets == h.sockets && r.live.None?
    ensures var r := Connect(h, rt, MaxReconnectAttempts + 1);
      r.status == Connecting && |r.sockets| == |h.sockets| + 1 && r.live == Some(|h.sockets|)
  {
  }

  /** Opening while no reconnect is pending: status `open`, counter reset, `shouldReconnect`
      false, the socket's timeout cleared, and no effect re-run. */
  lemma OpenWithoutPendingReconnect(h: Hook, s: nat, rt: Runtime)
    requires Valid(h) && Enabled(h, Opened(s)) && (h.mounted ==> !h.shouldReconnect)
    ensures var r := Step(h, Opened(s), rt);
      && r.status == Open && r.attempts == 0 && !r.shouldReconnect
      && r.sockets == h.sockets[s := SocketOpen] && r.socketRef == h.socketRef
      && (rt.hasClearTimeout ==> !r.timers[s])
  {
  }

  /** Opening the socket of a reconnection attempt flips `shouldReconnect` from true to false,
      so the effect re-runs: its cleanup closes the socket that has just opened and a new
      attempt starts, leaving the status `connecting`. */
  lemma OpenAfterReconnectRestarts(h: Hook, s: nat, rt: Runtime)
    requires Valid(h) && Enabled(h, Opened(s)) && h.mounted && h.shouldReconnect && h.live == Some(s)
    requires rt.hasWebSocket && !rt.constructorThrows
    ensures var r := Step(h, Opened(s), rt);
      && r.sockets == h.sockets[s := SocketClosing] + [SocketConnecting]
      && r.status == Connecting && r.attempts == 0 && r.socketRef == Some(|h.sockets|)
  {
  }

  /** A close with code 1000: status `closed`, no retry, counter unchanged. */
  lemma NormalCloseIsFinal(h: Hook, s: nat, rt: Runtime)
    requires Valid(h) && Enabled(h, ClosedWith(s, NormalClosure))
    ensures var r := Step(h, ClosedWith(s, NormalClosure), rt);
      && r.status == Closed && r.attempts == h.attempts && r.chains == h.chains
      && r.sockets == h.sockets[s := SocketClosed] && r.socketRef.None?
  {
  }

  /** Any other close below the bound: the counter grows by one, status `connecting`, and a
      reconnect chain starts at frame 1. */
  lemma AbnormalCloseRetries(h: Hook, s: nat, code: int, rt: Runtime)
    requires Valid(h) && Enabled(h, ClosedWith(s, code)) && code != NormalClosure
    requires h.attempts < MaxReconnectAttempts && HasScheduler(rt)
    ensures var r := Step(h, ClosedWith(s, code), rt);
      && r.status == Connecting && r.attempts == h.attempts + 1 && r.chains == h.chains + [1]
      && r.sockets == h.sockets[s := SocketClosed] && r.socketRef.None?
  {
  }

  /** Any other close at the bound: status `error`, and nothing is requested. */
  lemma AbnormalCloseExhausted(h: Hook, s: nat, code: int, rt: Runtime)
    requires Valid(h) && Enabled(h, ClosedWith(s, code)) && code != NormalClosure
    requires h.attempts >= MaxReconnectAttempts
    ensures var r := Step(h, ClosedWith(s, code), rt);
      && r.status == Error && r.attempts == h.attempts && r.chains == h.chains
  {
  }

  /** The close handler of any socket clears `socketRef`: the close of an older socket, closed by
      an earlier cleanup, also takes the current open socket out of `sendMessage`'s reach. */
  lemma StaleCloseBlocksSending(h: Hook, s: nat, code: int, rt: Runtime)
    requires Valid(h) && Enabled(h, ClosedWith(s, code)) && h.live.Some? && s != h.live.value
    ensures var r := Step(h, ClosedWith(s, code), rt);
      h.live.value < |r.sockets| && r.sockets[h.live.value] == h.sockets[h.live.value] && !CanSend(r)
  {
    var h1 := OnClose(h, s, code, rt);
    assert h1.mounted == h.mounted && h1.shouldReconnect == h.shouldReconnect && h1.effectDeps == h.effectDeps;
    assert Step(h, ClosedWith(s, code), rt) == h1;
    assert h1.socketRef.None? && h1.sockets == h.sockets[s := SocketClosed];
  }

  /** The timeout callback closes a socket that is not open and sets `error`; on an open socket
      it does nothing. */
  lemma TimeoutOutcome(h: Hook, s: nat, rt: Runtime)
    requires Valid(h) && Enabled(h, TimedOut(s))
    ensures var r := Step(h, TimedOut(s), rt);
      && (h.sockets[s] != SocketOpen ==> r.status == Error && r.sockets == h.sockets[s := CloseRequested(h.sockets[s])])
      && (h.sockets[s] == SocketOpen ==> r == h.(timers := h.timers[s := false]))
  {
  }

  /** One frame advances every chain; none fires before its 180th call. */
  lemma FrameAdvances(d: Design, h: Hook, rt: Runtime)
    requires Valid(h) && forall i | 0 <= i < |h.chains| :: h.chains[i] + 1 < ReconnectFrames
    ensures StepIn(d, h, Frame, rt) == h.(chains := seq(|h.chains|, i requires 0 <= i < |h.chains| => h.chains[i] + 1))
  {
    AdvanceChainsFacts(h.chains);
  }

  /** Unmounting closes the live socket and clears its timer, but a pending reconnect chain keeps
      running; whatever it requests later creates no socket. */
  lemma UnmountKeepsChains(h: Hook, rt: Runtime)
    requires Valid(h) && h.mounted
    ensures var r := Step(h, Unmounted, rt);
      && !r.mounted && r.chains == h.chains && r.live.None? && |r.sockets| == |h.sockets|
      && (h.live.Some? ==> r.sockets[h.live.value] == CloseRequested(h.sockets[h.live.value]))
  {
  }

  /** After unmounting no event creates a socket and the hook stays unmounted. */
  lemma UnmountedStep(h: Hook, e: Event, rt: Runtime)
    requires WellFormed(h) && !h.mounted && Enabled(h, e)
    ensures !Step(h, e, rt).mounted && |Step(h, e, rt).sockets| == |h.sockets|
  {
    match e
    case Opened(s) => UnmountedCommit(OnOpen(h, s, rt), rt);
    case ClosedWith(s, code) => UnmountedCommit(OnClose(h, s, code, rt), rt);
    case TimedOut(s) => UnmountedCommit(OnTimeout(h, s), rt);
    case Frame => UnmountedCommit(OnFrame(h), rt);
    case UserIdChanged(u) =>
    case Unmounted =>
  }

  lemma UnmountedCommit(h: Hook, rt: Runtime)
    requires WellFormed(h) && !h.mounted
    ensures Commit(h, rt) == h
  {
  }

  lemma {:induction false} NoSocketAfterUnmount(h: Hook, es: seq<Event>, rt: Runtime)
    requires WellFormed(h) && !h.mounted
    ensures Run(AsWritten, h, es, rt).Some? ==> |Run(AsWritten, h, es, rt).value.sockets| == |h.sockets|
    decreases |es|
  {
    if es != [] && Enabled(h, es[0]) {
      UnmountedStep(h, es[0], rt);
      NoSocketAfterUnmount(Step(h, es[0], rt), es[1..], rt);
    }
  }

  /** `sendMessage` succeeds exactly when the socket in `socketRef` is open. */
  lemma SendGate(h: Hook)
    requires Valid(h)
    ensures CanSend(h) <==> h.socketRef.Some? && h.live == h.socketRef && h.sockets[h.live.value] == SocketOpen
  {
  }

  // ---------------------------------------------------------------------------------------
  // Retrying after failed attempts, as written and corrected.

  /** An environment in which every connect attempt creates a socket and reconnect chains run. */
  predicate Capable(rt: Runtime) {
    rt.hasWebSocket && !rt.constructorThrows && HasScheduler(rt)
  }

  /** `n` animation frames. */
  function Delay(n: nat): (es: seq<Event>)
    ensures |es| == n && forall i | 0 <= i < n :: es[i] == Frame
  {
    seq(n, _ => Frame)
  }

  /** Socket `k` fails with `code` and the 179 frames of the reconnect delay pass. */
  function FailedAttempt(k: nat, code: int): seq<Event> {
    [ClosedWith(k, code)] + Delay(ReconnectFrames - 2) + [Frame]
  }

  /** Attempt `k` is under way and `a` reconnects have been announced: socket `k` is the only one
      not closed, and it is still connecting. */
  predicate Attempting(h: Hook, k: nat, a: nat) {
    && Valid(h) && h.mounted
    && |h.sockets| == k + 1 && h.live == Some(k) && h.socketRef == Some(k)
    && h.sockets[k] == SocketConnecting && (forall i | 0 <= i < k :: h.sockets[i] == SocketClosed)
    && h.attempts == a && h.chains == [] && h.status == Connecting
  }

  /** Every socket is closed, no chain is pending, and a reconnect request would not change
      `shouldReconnect`. */
  predicate Stalled(h: Hook) {
    && WellFormed(h) && h.shouldReconnect && (h.mounted ==> h.effectDeps) && h.chains == []
    && forall i | 0 <= i < |h.sockets| :: h.sockets[i] == SocketClosed
  }

  lemma {:induction false} RunAppend(d: Design, h: Hook, a: seq<Event>, b: seq<Event>, rt: Runtime)
    requires WellFormed(h)
    ensures Run(d, h, a + b, rt) == match Run(d, h, a, rt) case None => None case Some(h2) => Run(d, h2, b, rt)
    decreases |a|
  {
    if a == [] {
      assert a + b == b;
    } else {
      assert (a + b)[0] == a[0];
      assert (a + b)[1..] == a[1..] + b;
      if Enabled(h, a[0]) {
        RunAppend(d, StepIn(d, h, a[0], rt), a[1..], b, rt);
      }
    }
  }

  /** A run that reaches `mid` after `a` goes on from `mid` with `b`. */
  lemma RunThen(d: Design, h: Hook, a: seq<Event>, b: seq<Event>, mid: Hook, rt: Runtime)
    requires WellFormed(h) && Run(d, h, a, rt) == Some(mid)
    ensures Run(d, h, a + b, rt) == Run(d, mid, b, rt)
  {
    RunAppend(d, h, a, b, rt);
  }

  /** A single enabled event is one step. */
  lemma RunOne(d: Design, h: Hook, e: Event, rt: Runtime)
    requires WellFormed(h) && Enabled(h, e)
    ensures Run(d, h, [e], rt) == Some(StepIn(d, h, e, rt))
  {
    assert [e][1..] == [];
  }

  /** A single pending chain advances by one per frame. */
  lemma DelayRun(d: Design, h: Hook, n: nat, rt: Runtime)
    requires Valid(h) && |h.chains| == 1 && h.chains[0] + n < ReconnectFrames
    ensures Run(d, h, Delay(n), rt) == Some(h.(chains := [h.chains[0] + n]))
  {
    var cur, left := h, n;
    while left > 0
      invariant Valid(cur) && |cur.chains| == 1 && cur.chains[0] + left == h.chains[0] + n
      invariant cur == h.(chains := cur.chains)
      invariant Run(d, h, Delay(n), rt) == Run(d, cur, Delay(left), rt)
    {
      cur := FrameThen(d, cur, left, rt);
      left := left - 1;
    }
    assert cur.chains == [h.chains[0] + n];
  }

  /** The first frame of a delay advances the one pending chain by one. */
  lemma FrameThen(d: Design, h: Hook, left: nat, rt: Runtime) returns (next: Hook)
    requires Valid(h) && |h.chains| == 1 && h.chains[0] + 1 < ReconnectFrames && left > 0
    ensures next == h.(chains := [h.chains[0] + 1]) && Valid(next)
    ensures Run(d, h, Delay(left), rt) == Run(d, next, Delay(left - 1), rt)
  {
    FrameAdvances(d, h, rt);
    next := h.(chains := [h.chains[0] + 1]);
    assert StepIn(d, h, Frame, rt) == next;
    assert Delay(left)[1..] == Delay(left - 1);
  }

  /** Socket `k` fails and 178 frames pass: the chain stands one frame short of its request. */
  lemma CloseAndWait(d: Design, h: Hook, k: nat, a: nat, code: int, rt: Runtime)
    requires Attempting(h, k, a) && a < MaxReconnectAttempts && code != NormalClosure && HasScheduler(rt)
    ensures Run(d, h, [ClosedWith(k, code)] + Delay(ReconnectFrames - 2), rt)
      == Some(h.(sockets := h.sockets[k := SocketClosed], socketRef := None, attempts := a + 1,
                 chains := [ReconnectFrames - 1]))
  {
    var h1 := h.(sockets := h.sockets[k := SocketClosed], socketRef := None, attempts := a + 1, chains := [1]);
    FailureStep(d, h, k, a, code, rt);
    RunOne(d, h, ClosedWith(k, code), rt);
    DelayRun(d, h1, ReconnectFrames - 2, rt);
    RunThen(d, h, [ClosedWith(k, code)], Delay(ReconnectFrames - 2), h1, rt);
  }

  /** The failure of attempt `k` closes its socket, counts the attempt and starts one chain. */
  lemma FailureStep(d: Design, h: Hook, k: nat, a: nat, code: int, rt: Runtime)
    requires Attempting(h, k, a) && a < MaxReconnectAttempts && code != NormalClosure && HasScheduler(rt)
    ensures Enabled(h, ClosedWith(k, code))
    ensures var h1 := h.(sockets := h.sockets[k := SocketClosed], socketRef := None, attempts := a + 1, chains := [1]);
      StepIn(d, h, ClosedWith(k, code), rt) == h1 && Valid(h1)
  {
    var h1 := h.(sockets := h.sockets[k := SocketClosed], socketRef := None, attempts := a + 1, chains := [1]);
    assert OnClose(h, k, code, rt) == h1.(status := Connecting);
    if d == AsWritten {
      assert Step(h, ClosedWith(k, code), rt) == h1;
    } else {
      assert StepIntended(h, ClosedWith(k, code), rt) == h1;
    }
  }

  /** As written, the first failure of a session that never opened is retried: the request flips
      `shouldReconnect` to true and the effect makes attempt `k + 1`. */
  lemma FirstFailureRetried(h: Hook, k: nat, a: nat, code: int, rt: Runtime)
    requires Attempting(h, k, a) && !h.shouldReconnect && a + 1 < MaxReconnectAttempts
    requires code != NormalClosure && Capable(rt)
    ensures var r := Run(AsWritten, h, FailedAttempt(k, code), rt);
      r.Some? && Attempting(r.value, k + 1, a + 1) && r.value.shouldReconnect
      && r.value.timers[k + 1] == rt.hasSetTimeout
  {
    CloseAndWait(AsWritten, h, k, a, code, rt);
    var w := h.(sockets := h.sockets[k := SocketClosed], socketRef := None, attempts := a + 1,
                chains := [ReconnectFrames - 1]);
    RunAppend(AsWritten, h, [ClosedWith(k, code)] + Delay(ReconnectFrames - 2), [Frame], rt);
    var r := Step(w, Frame, rt);
    assert Run(AsWritten, w, [Frame], rt) == Some(r);
  }

  /** As written, once `shouldReconnect` is true a further failure requests a reconnect that
      changes nothing: no effect re-runs and every socket is closed. */
  lemma LaterFailureLost(h: Hook, k: nat, a: nat, code: int, rt: Runtime)
    requires Attempting(h, k, a) && h.shouldReconnect && a < MaxReconnectAttempts
    requires code != NormalClosure && Capable(rt)
    ensures var r := Run(AsWritten, h, FailedAttempt(k, code), rt);
      && r.Some? && Stalled(r.value) && |r.value.sockets| == k + 1
      && r.value.status == Connecting && r.value.attempts == a + 1 && r.value.timers == h.timers
  {
    CloseAndWait(AsWritten, h, k, a, code, rt);
    var w := h.(sockets := h.sockets[k := SocketClosed], socketRef := None, attempts := a + 1,
                chains := [ReconnectFrames - 1]);
    RunAppend(AsWritten, h, [ClosedWith(k, code)] + Delay(ReconnectFrames - 2), [Frame], rt);
    var r := Step(w, Frame, rt);
    assert r == w.(chains := []);
    assert Run(AsWritten, w, [Frame], rt) == Some(r);
  }

  /** From a stalled state no event ever creates a socket again. */
  lemma {:induction false} StalledForever(h: Hook, es: seq<Event>, rt: Runtime)
    requires Stalled(h)
    ensures Run(AsWritten, h, es, rt).Some? ==>
      Stalled(Run(AsWritten, h, es, rt).value) && |Run(AsWritten, h, es, rt).value.sockets| == |h.sockets|
    decreases |es|
  {
    if es != [] && Enabled(h, es[0]) {
      var h1 := Step(h, es[0], rt);
      assert Stalled(h1) && |h1.sockets| == |h.sockets|;
      StalledForever(h1, es[1..], rt);
    }
  }

  /** The first finding: as written, a session whose attempts fail makes one reconnection
      attempt, announced as `1/10`, then a second one is announced (`2/10`) but never made —
      no later event creates a socket, although the counter is far from 10. */
  lemma AsWrittenStallsAfterOneRetry(rt: Runtime, userId: string, code: int)
    requires code != NormalClosure && Capable(rt)
    ensures var r := Run(AsWritten, Init(rt, userId), FailedAttempt(0, code) + FailedAttempt(1, code), rt);
      && r.Some? && |r.value.sockets| == 2 && r.value.attempts == 2 && r.value.status == Connecting
      && forall es :: Run(AsWritten, r.value, es, rt).Some? ==> |Run(AsWritten, r.value, es, rt).value.sockets| == 2
  {
    var h0 := Init(rt, userId);
    assert Attempting(h0, 0, 0);
    FirstFailureRetried(h0, 0, 0, code, rt);
    var h1 := Run(AsWritten, h0, FailedAttempt(0, code), rt).value;
    LaterFailureLost(h1, 1, 1, code, rt);
    var h2 := Run(AsWritten, h1, FailedAttempt(1, code), rt).value;
    RunAppend(AsWritten, h0, FailedAttempt(0, code), FailedAttempt(1, code), rt);
    forall es
      ensures Run(AsWritten, h2, es, rt).Some? ==> |Run(AsWritten, h2, es, rt).value.sockets| == 2
    {
      StalledForever(h2, es, rt);
    }
  }

  /** The stall of `AsWrittenStallsAfterOneRetry` does not stay `connecting` for good when
      `setTimeout` exists: `handleClose` never clears the connect timeout of the reconnect socket,
      and the effect that would clear it never runs again, so that timeout is still pending, and
      when it fires it finds the socket closed and sets `error`. Still no socket is created. */
  lemma StallEndsInTimeoutError(rt: Runtime, userId: string, code: int)
    requires code != NormalClosure && Capable(rt) && rt.hasSetTimeout
    ensures var r := Run(AsWritten, Init(rt, userId), FailedAttempt(0, code) + FailedAttempt(1, code), rt);
      && r.Some? && r.value.status == Connecting && Enabled(r.value, TimedOut(1))
      && Step(r.value, TimedOut(1), rt).status == Error && |Step(r.value, TimedOut(1), rt).sockets| == 2
  {
    var h0 := Init(rt, userId);
    assert Attempting(h0, 0, 0);
    FirstFailureRetried(h0, 0, 0, code, rt);
    var h1 := Run(AsWritten, h0, FailedAttempt(0, code), rt).value;
    LaterFailureLost(h1, 1, 1, code, rt);
    RunAppend(AsWritten, h0, FailedAttempt(0, code), FailedAttempt(1, code), rt);
  }

  /** `n` consecutive failed attempts, starting with socket `k`. */
  function FailedAttempts(k: nat, n: nat, code: int): seq<Event>
    decreases n
  {
    if n == 0 then [] else FailedAttempt(k, code) + FailedAttempts(k + 1, n - 1, code)
  }

  /** Corrected, every failure below the bound is followed by a new attempt. */
  lemma IntendedFailureRetried(h: Hook, k: nat, a: nat, code: int, rt: Runtime) returns (h1: Hook)
    requires Attempting(h, k, a) && a < MaxReconnectAttempts && code != NormalClosure && Capable(rt)
    ensures Run(Intended, h, FailedAttempt(k, code), rt) == Some(h1) && Attempting(h1, k + 1, a + 1)
  {
    CloseAndWait(Intended, h, k, a, code, rt);
    var w := h.(sockets := h.sockets[k := SocketClosed], socketRef := None, attempts := a + 1,
                chains := [ReconnectFrames - 1]);
    RunAppend(Intended, h, [ClosedWith(k, code)] + Delay(ReconnectFrames - 2), [Frame], rt);
    h1 := StepIntended(w, Frame, rt);
    assert Run(Intended, w, [Frame], rt) == Some(h1);
  }

  lemma IntendedFailuresRetried(h: Hook, k: nat, a: nat, n: nat, code: int, rt: Runtime) returns (last: Hook)
    requires Attempting(h, k, a) && a + n <= MaxReconnectAttempts && code != NormalClosure && Capable(rt)
    ensures Run(Intended, h, FailedAttempts(k, n, code), rt) == Some(last) && Attempting(last, k + n, a + n)
  {
    last := h;
    var next, announced, left := k, a, n;
    while left > 0
      invariant next + left == k + n && announced + left == a + n
      invariant Attempting(last, next, announced)
      invariant Run(Intended, h, FailedAttempts(k, n, code), rt) == Run(Intended, last, FailedAttempts(next, left, code), rt)
    {
      last := AttemptThen(last, next, announced, left, code, rt);
      next, announced, left := next + 1, announced + 1, left - 1;
    }
    assert FailedAttempts(next, left, code) == [];
  }

  /** Running `n` failed attempts is running the first, which leaves the next attempt under
      way, then the other `n - 1`. */
  lemma AttemptThen(h: Hook, k: nat, a: nat, n: nat, code: int, rt: Runtime) returns (h1: Hook)
    requires Attempting(h, k, a) && a < MaxReconnectAttempts && code != NormalClosure && Capable(rt) && n > 0
    ensures Attempting(h1, k + 1, a + 1)
    ensures Run(Intended, h, FailedAttempts(k, n, code), rt) == Run(Intended, h1, FailedAttempts(k + 1, n - 1, code), rt)
  {
    h1 := IntendedFailureRetried(h, k, a, code, rt);
    RunThen(Intended, h, FailedAttempt(k, code), FailedAttempts(k + 1, n - 1, code), h1, rt);
  }

  /** The corrected hook makes all ten announced reconnection attempts, one per failure, and
      the eleventh failure leaves it in `error` with nothing more requested. */
  lemma IntendedRetriesUntilError(rt: Runtime, userId: string, code: int)
    requires code != NormalClosure && Capable(rt)
    ensures var r := Run(Intended, Init(rt, userId), FailedAttempts(0, MaxReconnectAttempts, code) + [ClosedWith(MaxReconnectAttempts, code)], rt);
      && r.Some? && |r.value.sockets| == MaxReconnectAttempts + 1 && r.value.attempts == MaxReconnectAttempts
      && r.value.status == Error && r.value.chains == []
      && forall i | 0 <= i < |r.value.sockets| :: r.value.sockets[i] == SocketClosed
  {
    var h0 := Init(rt, userId);
    assert Attempting(h0, 0, 0);
    var h1 := IntendedFailuresRetried(h0, 0, 0, MaxReconnectAttempts, code, rt);
    RunAppend(Intended, h0, FailedAttempts(0, MaxReconnectAttempts, code), [ClosedWith(MaxReconnectAttempts, code)], rt);
    var h2 := StepIntended(h1, ClosedWith(MaxReconnectAttempts, code), rt);
    assert Run(Intended, h1, [ClosedWith(MaxReconnectAttempts, code)], rt) == Some(h2);
  }

  /** The second finding, corrected: opening the socket of any attempt keeps it; the effect
      does not re-run, so the session is `open` and can send. */
  lemma IntendedOpenKeepsConnection(h: Hook, s: nat, rt: Runtime)
    requires Valid(h) && Enabled(h, Opened(s)) && h.live == Some(s) && h.socketRef == Some(s)
    ensures var r := StepIntended(h, Opened(s), rt);
      && r.status == Open && r.attempts == 0 && r.sockets == h.sockets[s := SocketOpen] && CanSend(r)
  {
  }
}
