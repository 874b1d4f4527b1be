/** The protocol client's polling: draining the current socket's events, falling back from TLS,
    alternating schemes and reconnecting. Composed with the traces module `WebSocket` allows. */
module ProtocolClient {
  import opened WebSocket

  datatype ClientState = Offline | SocketConnecting | SocketConnected | RoomInfo | SlotConnected {
    function Rank(): nat {
      match this
      case Offline => 0
      case SocketConnecting => 1
      case SocketConnected => 2
      case RoomInfo => 3
      case SlotConnected => 4
    }
  }

  /** What a command of a message does to the client's state; a malformed one does nothing. */
  datatype Command = RoomInfoCommand | ConnectedCommand | OtherCommand

  type Parser = string -> seq<Command>

  const MIN_INTERVAL := 1500
  const MAX_INTERVAL := 15000

  datatype Client = Client(
    state: ClientState,
    currentAttemptTls: bool,
    reconnectInterval: int,
    reconnectNow: bool,
    lastConnectAttempt: int,
    attempts: seq<bool>)  // the scheme of every connection attempt, in order

  /** A client just built: an explicit ws:// starts in plaintext. */
  function Created(preferTls: bool): Client {
    Client(Offline, preferTls, MIN_INTERVAL, true, 0, [])
  }

  function Min(a: int, b: int): int { if a < b then a else b }

  function ConnectSocket(c: Client, tls: bool, now: int): Client {
    Client(SocketConnecting, tls, Min(c.reconnectInterval * 2, MAX_INTERVAL), false, now, c.attempts + [tls])
  }

  function ProcessCommand(state: ClientState, cmd: Command): ClientState {
    match cmd
    case RoomInfoCommand => if state.Rank() < RoomInfo.Rank() then RoomInfo else state
    case ConnectedCommand => SlotConnected
    case OtherCommand => state
  }

  function ProcessMessage(state: ClientState, cmds: seq<Command>): ClientState {
    if |cmds| == 0 then state else ProcessCommand(ProcessMessage(state, cmds[..|cmds| - 1]), cmds[|cmds| - 1])
  }

  /** The poll loop's state: the client, and whether a TLS failure calls for plaintext. */
  datatype Loop = Loop(c: Client, fallback: bool)

  function HandleEvent(parse: Parser, l: Loop, e: Event): Loop {
    match e
    case Open => l.(c := l.c.(state := SocketConnected, reconnectInterval := MIN_INTERVAL))
    case Error(ssl) => if ssl && l.c.state == SocketConnecting then l.(fallback := true) else l
    case Close =>
      var c := if l.c.state.Rank() > SocketConnecting.Rank() then l.c.(state := Offline)
               else if !l.fallback then l.c.(currentAttemptTls := !l.c.currentAttemptTls)
               else l.c;
      l.(c := if l.fallback then c else c.(state := Offline))
    case Message(text) => l.(c := l.c.(state := ProcessMessage(l.c.state, parse(text))))
  }

  function HandleEvents(parse: Parser, l: Loop, events: seq<Event>): Loop {
    if |events| == 0 then l
    else HandleEvent(parse, HandleEvents(parse, l, events[..|events| - 1]), events[|events| - 1])
  }

  predicate Due(c: Client, now: int) {
    c.state.Rank() < SocketConnected.Rank() && (c.reconnectNow || now - c.lastConnectAttempt >= c.reconnectInterval)
  }

  function Poll(parse: Parser, c: Client, events: seq<Event>, now: int): Client {
    var l := HandleEvents(parse, Loop(c, false), events);
    if l.fallback then ConnectSocket(l.c, false, now)
    else if Due(l.c, now) then ConnectSocket(l.c, l.c.currentAttemptTls, now)
    else l.c
  }

  predicate Connects(parse: Parser, c: Client, events: seq<Event>, now: int) {
    var l := HandleEvents(parse, Loop(c, false), events);
    l.fallback || Due(l.c, now)
  }

  // ----- The polling as it runs -----

  /** The bridge between the socket's strand and the game thread. */
  class EventQueue {
    var events: seq<Event>

    constructor ()
      ensures events == []
    {
      events := [];
    }

    method Push(e: Event)
      modifies this
      ensures events == old(events) + [e]
    {
      events := events + [e];
    }

    method Drain() returns (drained: seq<Event>)
      modifies this
      ensures drained == old(events) && events == []
    {
      drained := events;
      events := [];
    }
  }

  lemma EventsStep(parse: Parser, l: Loop, events: seq<Event>, i: nat)
    requires i < |events|
    ensures HandleEvents(parse, l, events[..i + 1])
            == HandleEvent(parse, HandleEvents(parse, l, events[..i]), events[i])
  {
    assert events[..i + 1][..i] == events[..i];
  }

  /** A socket the client connected: its callbacks hold the queue they were made with, never the client. */
  class Socket {
    const eventQueue: EventQueue
    const tls: bool
    var stopped: bool

    constructor (eventQueue: EventQueue, tls: bool)
      ensures this.eventQueue == eventQueue && this.tls == tls && !stopped
    {
      this.eventQueue := eventQueue;
      this.tls := tls;
      stopped := false;
    }

    /** A callback of the socket's strand, whether or not the client still listens. */
    method Deliver(e: Event)
      modifies eventQueue
      ensures eventQueue.events == old(eventQueue.events) + [e]
    {
      eventQueue.Push(e);
    }
  }

  class PollingClient {
    const parse: Parser
    var ws: Socket?
    var eventQueue: EventQueue
    var state: ClientState
    var currentAttemptTls: bool
    var reconnectInterval: int
    var reconnectNow: bool
    var lastConnectAttempt: int
    var attempts: seq<bool>

    ghost function Abs(): Client
      reads this
    {
      Client(state, currentAttemptTls, reconnectInterval, reconnectNow, lastConnectAttempt, attempts)
    }

    /** The current socket feeds the queue the client drains. */
    ghost predicate Wired()
      reads this, ws
    {
      ws != null ==> ws.eventQueue == eventQueue && !ws.stopped
    }

    constructor (parse: Parser, preferTls: bool)
      ensures Abs() == Created(preferTls) && this.parse == parse && Wired() && fresh(eventQueue)
              && eventQueue.events == []
    {
      this.parse := parse;
      ws := null;
      eventQueue := new EventQueue();
      state := Offline;
      currentAttemptTls := preferTls;
      reconnectInterval := MIN_INTERVAL;
      reconnectNow := true;
      lastConnectAttempt := 0;
      attempts := [];
    }

    method Connect(useTls: bool, now: int)
      requires Wired()
      modifies this, ws
      ensures Abs() == ConnectSocket(old(Abs()), useTls, now)
      ensures Wired() && ws != null && fresh(ws) && ws.tls == useTls
      ensures fresh(eventQueue) && eventQueue.events == []
      ensures old(ws) != null ==> old(ws).stopped
    {
      reconnectNow := false;
      if ws != null {
        ws.stopped := true;
      }
      eventQueue := new EventQueue();
      state := SocketConnecting;
      currentAttemptTls := useTls;
      ws := new Socket(eventQueue, useTls);
      attempts := attempts + [useTls];
      lastConnectAttempt := now;
      reconnectInterval := Min(reconnectInterval * 2, MAX_INTERVAL);
    }

    /** An event that the replaced socket still delivers is not among those the client will drain. */
    method ConnectBeforeDelivery(useTls: bool, now: int, late: Event)
      requires Wired() && ws != null
      modifies this, ws, eventQueue
      ensures Abs() == ConnectSocket(old(Abs()), useTls, now)
      ensures Wired() && fresh(eventQueue) && eventQueue.events == []
      ensures old(eventQueue).events == old(eventQueue.events) + [late]
    {
      var replaced := ws;
      Connect(useTls, now);
      replaced.Deliver(late);
    }

    method Process(text: string)
      modifies this`state
      ensures state == ProcessMessage(old(state), parse(text))
    {
      var cmds := parse(text);
      for i := 0 to |cmds|
        invariant state == ProcessMessage(old(state), cmds[..i])
      {
        assert cmds[..i + 1][..i] == cmds[..i];
        match cmds[i] {
          case RoomInfoCommand =>
            if state.Rank() < RoomInfo.Rank() {
              state := RoomInfo;
            }
          case ConnectedCommand => state := SlotConnected;
          case OtherCommand =>
        }
      }
      assert cmds[..|cmds|] == cmds;
    }

    /** Drains and handles the current socket's events, and reconnects when it is time. A connection
        leaves the old queue to the old socket: what it pushes there is never drained again. */
    method PollEvents(now: int)
      requires Wired()
      modifies this, ws, eventQueue
      ensures Abs() == Poll(parse, old(Abs()), old(eventQueue.events), now)
      ensures Wired() && eventQueue.events == []
      ensures if Connects(parse, old(Abs()), old(eventQueue.events), now)
              then fresh(eventQueue) && fresh(ws) && (old(ws) != null ==> old(ws).stopped)
              else eventQueue == old(eventQueue) && ws == old(ws)
    {
      hide HandleEvents, ProcessMessage;
      var events := eventQueue.Drain();
      ghost var start := Loop(Abs(), false);
      var shouldFallbackToPlain := false;
      NoEvents(parse, Abs());
      for i := 0 to |events|
        invariant Loop(Abs(), shouldFallbackToPlain) == HandleEvents(parse, start, events[..i])
        invariant Wired() && eventQueue == old(eventQueue) && ws == old(ws) && eventQueue.events == []
      {
        EventsStep(parse, start, events, i);
        match events[i] {
          case Open =>
            state := SocketConnected;
            reconnectInterval := MIN_INTERVAL;
          case Error(ssl) =>
            if ssl && state == SocketConnecting {
              shouldFallbackToPlain := true;
            }
          case Close =>
            if state.Rank() > SocketConnecting.Rank() {
              state := Offline;
            } else if !shouldFallbackToPlain {
              currentAttemptTls := !currentAttemptTls;
            }
            if !shouldFallbackToPlain {
              state := Offline;
            }
          case Message(text) => Process(text);
        }
      }
      assert events[..|events|] == events;
      if shouldFallbackToPlain {
        Connect(false, now);
        return;
      }
      if state.Rank() < SocketConnected.Rank() {
        if reconnectNow || now - lastConnectAttempt >= reconnectInterval {
          Connect(currentAttemptTls, now);
        }
      }
    }
  }

  // ----- Composed with the traces of a socket -----

  /** The scheme a failed or ended attempt hands to the next, from its trace alone: plaintext after a
      TLS failure, the other scheme after another refusal, and the same one after anything else. */
  function NextScheme(tls: bool, trace: seq<Event>): bool {
    if |trace| > 0 && trace[0] == Error(true) then false
    else if trace == [Error(false), Close] then !tls
    else tls
  }

  /** Whether a message after Close makes the client believe it is back in the room. */
  ghost predicate Revived(parse: Parser, trace: seq<Event>) {
    exists i :: 0 <= i < |trace| && LateWelcome(parse, trace, i)
  }

  ghost predicate LateWelcome(parse: Parser, trace: seq<Event>, i: nat)
    requires i < |trace|
  {
    StageOf(trace[..i]).Gone? && trace[i].Message? && Welcomes(parse(trace[i].text))
  }

  predicate Welcomes(cmds: seq<Command>) {
    RoomInfoCommand in cmds || ConnectedCommand in cmds
  }

  /** What the client knows of its current socket, whose trace it has read up to `seen`. */
  ghost predicate Follows(parse: Parser, c: Client, tls: bool, seen: seq<Event>) {
    match StageOf(seen)
    case Silent => seen == [] && c.state == SocketConnecting && c.currentAttemptTls == tls
    case Dying(wasOpen) =>
      && c.currentAttemptTls == tls
      && (if wasOpen then c.state.Rank() >= SocketConnected.Rank() && seen[0].Open?
          else seen == [Error(false)] && c.state == SocketConnecting)
    case Refused => seen == [Error(false), Close] && c.state == Offline && c.currentAttemptTls == !tls
    case Live => c.state.Rank() >= SocketConnected.Rank() && c.currentAttemptTls == tls && seen[0].Open?
    case Gone =>
      && c.currentAttemptTls == tls && seen[0].Open?
      && (if Revived(parse, seen) then c.state.Rank() >= RoomInfo.Rank() else c.state == Offline)
    case Broken => false
  }

  /** Within a poll that has met a TLS failure: whatever follows, plaintext is next. */
  ghost predicate FollowsLoop(parse: Parser, l: Loop, tls: bool, seen: seq<Event>) {
    if l.fallback then |seen| > 0 && seen[0] == Error(true) && l.c.state == SocketConnecting
                       && (seen == [Error(true)] || seen == [Error(true), Close])
    else Follows(parse, l.c, tls, seen)
  }

  lemma {:induction false} MessageState(state: ClientState, cmds: seq<Command>)
    ensures var t := ProcessMessage(state, cmds);
            if Welcomes(cmds) then t.Rank() >= RoomInfo.Rank() else t == state
    ensures ProcessMessage(state, cmds).Rank() >= state.Rank()
  {
    if |cmds| > 0 {
      var n := |cmds| - 1;
      MessageState(state, cmds[..n]);
      assert cmds == cmds[..n] + [cmds[n]];
    }
  }

  lemma RevivedStep(parse: Parser, seen: seq<Event>, e: Event)
    ensures Revived(parse, seen + [e])
       <==> Revived(parse, seen) || (StageOf(seen).Gone? && e.Message? && Welcomes(parse(e.text)))
  {
    var all := seen + [e];
    assert all[..|seen|] == seen;
    forall i | 0 <= i < |seen| ensures LateWelcome(parse, all, i) == LateWelcome(parse, seen, i) {
      assert all[..i] == seen[..i];
    }
    if Revived(parse, seen) {
      var i :| 0 <= i < |seen| && LateWelcome(parse, seen, i);
      assert LateWelcome(parse, all, i);
    }
    if StageOf(seen).Gone? && e.Message? && Welcomes(parse(e.text)) {
      assert LateWelcome(parse, all, |seen|);
    }
  }

  lemma {:induction false} OnlyGoneRevives(parse: Parser, seen: seq<Event>)
    requires !StageOf(seen).Broken? && !StageOf(seen).Gone?
    ensures !Revived(parse, seen)
  {
    if Revived(parse, seen) {
      var i :| 0 <= i < |seen| && LateWelcome(parse, seen, i);
      StagePast(seen, i);
    }
  }

  /** One event of a legal trace keeps the client in step with its socket. */
  lemma EventFollows(parse: Parser, l: Loop, tls: bool, seen: seq<Event>, e: Event)
    requires FollowsLoop(parse, l, tls, seen) && !StageOf(seen + [e]).Broken?
    ensures FollowsLoop(parse, HandleEvent(parse, l, e), tls, seen + [e])
  {
    hide StageAfter, StageOf, ProcessMessage, Revived, Welcomes;
    StageOfOne(seen, e);
    RevivedStep(parse, seen, e);
    if e.Message? {
      MessageState(l.c.state, parse(e.text));
    }
    StageOfOne([], Error(true));
    StageOfTwo([], Error(true), Close);
    EmptyStage();
    assert [] + [Error(true)] == [Error(true)] && [] + [Error(true), Close] == [Error(true), Close];
    if !StageOf(seen).Broken? && !StageOf(seen).Gone? {
      OnlyGoneRevives(parse, seen);
    }
  }

  lemma EmptyStage()
    ensures StageOf([]) == Silent
  {
  }

  lemma {:induction false} EventsFollow(parse: Parser, c: Client, tls: bool, seen: seq<Event>, chunk: seq<Event>)
    requires Follows(parse, c, tls, seen) && !StageOf(seen + chunk).Broken?
    ensures FollowsLoop(parse, HandleEvents(parse, Loop(c, false), chunk), tls, seen + chunk)
    decreases |chunk|
  {
    hide Follows, HandleEvent;
    if |chunk| == 0 {
      assert seen + chunk == seen;
    } else {
      var n := |chunk| - 1;
      StagePast(seen + chunk, |seen| + n);
      assert (seen + chunk)[..|seen| + n] == seen + chunk[..n];
      assert seen + chunk == (seen + chunk[..n]) + [chunk[n]];
      EventsFollow(parse, c, tls, seen, chunk[..n]);
      EventFollows(parse, HandleEvents(parse, Loop(c, false), chunk[..n]), tls, seen + chunk[..n], chunk[n]);
    }
  }

  // ----- Whole runs: polls cut a socket's trace anywhere, and connections replace the socket -----

  /** A client and the socket it last connected, whose trace it has read up to `seen`. */
  datatype World = World(c: Client, hasSocket: bool, tls: bool, seen: seq<Event>)

  datatype Tick = Tick(chunk: seq<Event>, now: int)

  /** Traces a socket of the scheme can have produced so far. */
  ghost predicate Produced(tls: bool, trace: seq<Event>) {
    exists steps: seq<Step>, socks: seq<Sock>, n: nat :: ProducedBy(tls, trace, steps, socks, n)
  }

  ghost predicate ProducedBy(tls: bool, trace: seq<Event>, steps: seq<Step>, socks: seq<Sock>, n: nat) {
    IsRun(tls, steps, socks) && n <= |steps| && trace <= socks[n].trace
  }

  lemma ProducedLegal(tls: bool, trace: seq<Event>)
    requires Produced(tls, trace)
    ensures !StageOf(trace).Broken?
  {
    var steps: seq<Step>, socks: seq<Sock>, n: nat :| ProducedBy(tls, trace, steps, socks, n);
    RunKeeps(tls, steps, socks, n);
    StagePast(socks[n].trace, |trace|);
    assert socks[n].trace[..|trace|] == trace;
  }

  ghost predicate TickEnabled(w: World, t: Tick) {
    if w.hasSocket then Produced(w.tls, w.seen + t.chunk) else t.chunk == []
  }

  function TickNext(parse: Parser, w: World, t: Tick): World {
    var c := Poll(parse, w.c, t.chunk, t.now);
    if Connects(parse, w.c, t.chunk, t.now) then World(c, true, c.currentAttemptTls, [])
    else w.(c := c, seen := w.seen + t.chunk)
  }

  ghost predicate WorldInv(parse: Parser, w: World) {
    && MIN_INTERVAL <= w.c.reconnectInterval <= MAX_INTERVAL
    && if w.hasSocket
       then Follows(parse, w.c, w.tls, w.seen) && !w.c.reconnectNow && |w.c.attempts| > 0
         && w.c.attempts[|w.c.attempts| - 1] == w.tls
       else w.c.state == Offline && w.c.reconnectNow && w.seen == []
  }

  lemma {:induction false} IntervalKept(parse: Parser, l: Loop, events: seq<Event>)
    requires MIN_INTERVAL <= l.c.reconnectInterval <= MAX_INTERVAL
    ensures var m := HandleEvents(parse, l, events);
            && MIN_INTERVAL <= m.c.reconnectInterval <= MAX_INTERVAL
            && m.c.reconnectNow == l.c.reconnectNow && m.c.attempts == l.c.attempts
            && m.c.lastConnectAttempt == l.c.lastConnectAttempt
  {
    if |events| > 0 {
      IntervalKept(parse, l, events[..|events| - 1]);
    }
  }

  lemma TickKeeps(parse: Parser, w: World, t: Tick)
    requires WorldInv(parse, w) && TickEnabled(w, t)
    ensures WorldInv(parse, TickNext(parse, w, t))
  {
    hide HandleEvent, HandleEvents, StageAfter, Produced, Revived;
    IntervalKept(parse, Loop(w.c, false), t.chunk);
    EmptyStage();
    if w.hasSocket {
      ProducedLegal(w.tls, w.seen + t.chunk);
      EventsFollow(parse, w.c, w.tls, w.seen, t.chunk);
    } else {
      NoEvents(parse, w.c);
    }
  }

  lemma NoEvents(parse: Parser, c: Client)
    ensures HandleEvents(parse, Loop(c, false), []) == Loop(c, false)
  {
  }

  ghost predicate IsPolling(parse: Parser, preferTls: bool, ticks: seq<Tick>, worlds: seq<World>) {
    && |worlds| == |ticks| + 1 && worlds[0] == World(Created(preferTls), false, preferTls, [])
    && forall i :: 0 <= i < |ticks| ==> TicksTo(parse, worlds[i], ticks[i], worlds[i + 1])
  }

  ghost predicate TicksTo(parse: Parser, v: World, t: Tick, w: World) {
    TickEnabled(v, t) && w == TickNext(parse, v, t)
  }

  lemma {:induction false} PollingKeeps(parse: Parser, preferTls: bool, ticks: seq<Tick>, worlds: seq<World>, n: nat)
    requires IsPolling(parse, preferTls, ticks, worlds) && n <= |ticks|
    ensures WorldInv(parse, worlds[n])
  {
    if n > 0 {
      PollingKeeps(parse, preferTls, ticks, worlds, n - 1);
      assert TicksTo(parse, worlds[n - 1], ticks[n - 1], worlds[n]);
      TickKeeps(parse, worlds[n - 1], ticks[n - 1]);
    }
  }

  /** However polls cut the trace, the scheme of the next attempt depends on the trace alone: plaintext
      after a TLS failure, flipped once after another refusal, and otherwise kept. In particular a
      connection that was established is never followed by a downgrade. */
  lemma SchemeOfNextAttempt(parse: Parser, preferTls: bool, ticks: seq<Tick>, worlds: seq<World>, n: nat)
    requires IsPolling(parse, preferTls, ticks, worlds) && n < |ticks|
    requires Connects(parse, worlds[n].c, ticks[n].chunk, ticks[n].now)
    ensures var v, w := worlds[n], worlds[n + 1]; var trace := v.seen + ticks[n].chunk;
            && w.c.attempts == v.c.attempts + [w.tls]
            && (if v.hasSocket then w.tls == NextScheme(v.tls, trace) else w.tls == preferTls)
            && (v.hasSocket && Open in trace ==> w.tls == v.tls)
  {
    var v, t := worlds[n], ticks[n];
    PollingKeeps(parse, preferTls, ticks, worlds, n);
    assert TicksTo(parse, v, t, worlds[n + 1]);
    IntervalKept(parse, Loop(v.c, false), t.chunk);
    if v.hasSocket {
      NextSchemeFollows(parse, v, t);
    } else {
      NoEvents(parse, v.c);
      NeverConnected(parse, preferTls, ticks, worlds, n);
    }
  }

  lemma NextSchemeFollows(parse: Parser, v: World, t: Tick)
    requires WorldInv(parse, v) && v.hasSocket && TickEnabled(v, t) && Connects(parse, v.c, t.chunk, t.now)
    ensures TickNext(parse, v, t).tls == NextScheme(v.tls, v.seen + t.chunk)
    ensures Open in v.seen + t.chunk ==> TickNext(parse, v, t).tls == v.tls
  {
    hide HandleEvent, HandleEvents, StageAfter, StageOf, Revived, Produced;
    var trace := v.seen + t.chunk;
    ProducedLegal(v.tls, trace);
    EventsFollow(parse, v.c, v.tls, v.seen, t.chunk);
  }

  lemma {:induction false} NeverConnected(parse: Parser, preferTls: bool, ticks: seq<Tick>, worlds: seq<World>, n: nat)
    requires IsPolling(parse, preferTls, ticks, worlds) && n <= |ticks| && !worlds[n].hasSocket
    ensures worlds[n].c.currentAttemptTls == preferTls
  {
    if n > 0 {
      assert TicksTo(parse, worlds[n - 1], ticks[n - 1], worlds[n]);
      NeverConnected(parse, preferTls, ticks, worlds, n - 1);
      NoEvents(parse, worlds[n - 1].c);
    }
  }

  /** The reconnect interval stays within its bounds, and two attempts are at least the shortest
      interval apart unless the second is the fallback to plaintext. */
  lemma AttemptsSpaced(parse: Parser, preferTls: bool, ticks: seq<Tick>, worlds: seq<World>, n: nat)
    requires IsPolling(parse, preferTls, ticks, worlds) && n < |ticks|
    ensures MIN_INTERVAL <= worlds[n].c.reconnectInterval <= MAX_INTERVAL
    ensures var v, t := worlds[n], ticks[n];
            var fellBack := v.seen + t.chunk != [] && (v.seen + t.chunk)[0] == Error(true);
            v.hasSocket && Connects(parse, v.c, t.chunk, t.now) && !fellBack ==>
              t.now - v.c.lastConnectAttempt >= MIN_INTERVAL
  {
    hide HandleEvent, HandleEvents, StageAfter, Revived, Produced;
    var v, t := worlds[n], ticks[n];
    PollingKeeps(parse, preferTls, ticks, worlds, n);
    assert TicksTo(parse, v, t, worlds[n + 1]);
    IntervalKept(parse, Loop(v.c, false), t.chunk);
    if v.hasSocket {
      ProducedLegal(v.tls, v.seen + t.chunk);
      EventsFollow(parse, v.c, v.tls, v.seen, t.chunk);
    }
  }

  // ----- Coming back after a loss -----

  /** Once its connection is gone the client tries again, unless a message that was read late brought
      it back into the room: then it never does. */
  lemma ComesBackIff(parse: Parser, preferTls: bool, ticks: seq<Tick>, worlds: seq<World>, n: nat)
    requires IsPolling(parse, preferTls, ticks, worlds) && n <= |ticks|
    requires worlds[n].hasSocket && StageOf(worlds[n].seen).Gone?
    ensures (exists now :: Connects(parse, worlds[n].c, [], now)) <==> !Revived(parse, worlds[n].seen)
  {
    var w := worlds[n];
    PollingKeeps(parse, preferTls, ticks, worlds, n);
    NoEvents(parse, w.c);
    if !Revived(parse, w.seen) {
      assert Connects(parse, w.c, [], w.c.lastConnectAttempt + w.c.reconnectInterval);
    }
  }

  /** Nothing the dead socket can still deliver lets a revived client reconnect. */
  lemma RevivedForGood(parse: Parser, w: World, t: Tick)
    requires WorldInv(parse, w) && w.hasSocket && StageOf(w.seen).Gone? && Revived(parse, w.seen)
    requires TickEnabled(w, t)
    ensures !Connects(parse, w.c, t.chunk, t.now)
    ensures var w' := TickNext(parse, w, t); w'.hasSocket && StageOf(w'.seen).Gone? && Revived(parse, w'.seen)
  {
    var trace := w.seen + t.chunk;
    ProducedLegal(w.tls, trace);
    EventsFollow(parse, w.c, w.tls, w.seen, t.chunk);
    StagePast(trace, |w.seen|);
    assert trace[..|w.seen|] == w.seen;
    var i :| 0 <= i < |w.seen| && LateWelcome(parse, w.seen, i);
    assert trace[..i] == w.seen[..i];
    assert LateWelcome(parse, trace, i);
  }
}
