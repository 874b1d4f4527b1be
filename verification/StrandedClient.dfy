/** A client that never reconnects: the run of its socket and its polls. */
module StrandedClient {
  import opened WebSocket
  import opened ProtocolClient

  // The socket: in the room, a write fails while a read has already completed.

  function LateStep(i: nat, hello: string, late: string): Step {
    match i
    case 0 => CallConnect
    case 1 => Resolved(Ok)
    case 2 => TcpConnected(Ok)
    case 3 => HandshakeDone(Ok)
    case 4 => ReadDone(Received(hello))
    case 5 => CallSend("Connect")
    case 6 => WriteDone(Ok)
    case 7 => CallSend("Bounce")
    case 8 => WriteDone(Failed(false))
    case _ => ReadDone(Received(late))
  }

  function LateSock(i: nat, hello: string, late: string): Sock {
    var on := Ops(Over, true, NoWrite, false, false);
    match i
    case 0 => Fresh(false)
    case 1 => Fresh(false).(state := Connecting, ops := Ops(Resolving, false, NoWrite, false, false))
    case 2 => Fresh(false).(state := Connecting, ops := Ops(TcpConnecting, false, NoWrite, false, false))
    case 3 => Fresh(false).(state := Connecting, ops := Ops(WsHandshaking, false, NoWrite, false, false))
    case 4 => Sock(Connected, false, false, false, false, [], on, [], [], [Open])
    case 5 => Sock(Connected, false, false, false, false, [], on, [], [], [Open, Message(hello)])
    case 6 => Sock(Connected, true, false, false, false, ["Connect"], on.(write := Write("Connect", true)),
                   ["Connect"], [], [Open, Message(hello)])
    case 7 => Sock(Connected, false, false, false, false, [], on, ["Connect"], ["Connect"], [Open, Message(hello)])
    case 8 => Sock(Connected, true, false, false, false, ["Bounce"], on.(write := Write("Bounce", true)),
                   ["Connect", "Bounce"], ["Connect"], [Open, Message(hello)])
    case 9 => Sock(Disconnected, false, false, false, false, [], on.(shut := true), ["Connect", "Bounce"], ["Connect"],
                   [Open, Message(hello), Error(false), Close])
    case _ => Sock(Disconnected, false, false, false, false, [], on.(shut := true), ["Connect", "Bounce"], ["Connect"],
                   [Open, Message(hello), Error(false), Close, Message(late)])
  }

  lemma LateConnects(i: nat, hello: string, late: string)
    requires i < 5 && Inv(LateSock(i, hello, late))
    ensures StepsTo(LateSock(i, hello, late), LateStep(i, hello, late), LateSock(i + 1, hello, late))
  {
    hide OpsInv, QueueInv, TraceInv;
  }

  lemma LateFails(i: nat, hello: string, late: string)
    requires 5 <= i < 10 && Inv(LateSock(i, hello, late))
    ensures StepsTo(LateSock(i, hello, late), LateStep(i, hello, late), LateSock(i + 1, hello, late))
  {
    hide OpsInv, QueueInv, TraceInv;
  }

  lemma {:induction false} LateStepTaken(i: nat, hello: string, late: string)
    requires i < 10
    ensures Inv(LateSock(i, hello, late))
            && StepsTo(LateSock(i, hello, late), LateStep(i, hello, late), LateSock(i + 1, hello, late))
  {
    hide Inv, LateStep, Next, Enabled;
    if i == 0 {
      FreshInv(false);
    } else {
      LateStepTaken(i - 1, hello, late);
      StepKeeps(LateSock(i - 1, hello, late), LateStep(i - 1, hello, late));
    }
    if i < 5 {
      LateConnects(i, hello, late);
    } else {
      LateFails(i, hello, late);
    }
  }

  /** A socket that has opened and handed over `hello`, and only then takes messages: the second one's
      write fails with `late` already read. */
  lemma LateMessageRun(hello: string, late: string) returns (steps: seq<Step>, socks: seq<Sock>)
    ensures IsRun(false, steps, socks) && |steps| == 10
    ensures socks[5].trace == [Open, Message(hello)] && socks[5].accepted == []
    ensures socks[8].written == ["Connect"] && socks[8].accepted == ["Connect", "Bounce"]
    ensures socks[10].trace == [Open, Message(hello), Error(false), Close, Message(late)]
  {
    hide StepsTo, LateStep;
    steps := seq(10, (i: nat) => LateStep(i, hello, late));
    socks := seq(11, (i: nat) => LateSock(i, hello, late));
    forall i | 0 <= i < 10 ensures StepsTo(socks[i], steps[i], socks[i + 1]) {
      LateStepTaken(i, hello, late);
    }
  }

  lemma ProducedOf(tls: bool, trace: seq<Event>, steps: seq<Step>, socks: seq<Sock>, n: nat)
    requires IsRun(tls, steps, socks) && n <= |steps| && trace <= socks[n].trace
    ensures Produced(tls, trace)
  {
    assert ProducedBy(tls, trace, steps, socks, n);
  }

  // The connection before it, welcomed and lost.

  function LossStep(i: nat, hello: string, welcome: string): Step {
    match i
    case 5 => ReadDone(Received(welcome))
    case 6 => ReadDone(ReadFailed(false))
    case _ => LateStep(i, hello, "")
  }

  function LossSock(i: nat, hello: string, welcome: string): Sock {
    var on := Ops(Over, true, NoWrite, false, false);
    match i
    case 6 => Sock(Connected, false, false, false, false, [], on, [], [], [Open, Message(hello), Message(welcome)])
    case 7 => Sock(Disconnected, false, false, false, false, [], on.(reading := false, shut := true), [], [],
                   [Open, Message(hello), Message(welcome), Error(false), Close])
    case _ => LateSock(i, hello, "")
  }

  lemma LossReads(i: nat, hello: string, welcome: string)
    requires 5 <= i < 7 && Inv(LossSock(i, hello, welcome))
    ensures StepsTo(LossSock(i, hello, welcome), LossStep(i, hello, welcome), LossSock(i + 1, hello, welcome))
  {
    hide OpsInv, QueueInv, TraceInv;
  }

  lemma {:induction false} LossStepTaken(i: nat, hello: string, welcome: string)
    requires i < 7
    ensures Inv(LossSock(i, hello, welcome))
    ensures StepsTo(LossSock(i, hello, welcome), LossStep(i, hello, welcome), LossSock(i + 1, hello, welcome))
  {
    hide Inv, Next, Enabled;
    if i < 5 {
      LateStepTaken(i, hello, "");
    } else {
      LossStepTaken(i - 1, hello, welcome);
      StepKeeps(LossSock(i - 1, hello, welcome), LossStep(i - 1, hello, welcome));
      LossReads(i, hello, welcome);
    }
  }

  /** A socket that opens, hands over two messages and loses its peer. */
  lemma LossRun(hello: string, welcome: string)
    ensures Produced(false, [Open, Message(hello), Message(welcome), Error(false), Close])
  {
    hide StepsTo, LossStep;
    var steps := seq(7, (i: nat) => LossStep(i, hello, welcome));
    var socks := seq(8, (i: nat) => LossSock(i, hello, welcome));
    forall i | 0 <= i < 7 ensures StepsTo(socks[i], steps[i], socks[i + 1]) {
      LossStepTaken(i, hello, welcome);
    }
    ProducedOf(false, LossSock(7, hello, welcome).trace, steps, socks, 7);
  }

  lemma ProducedPrefix(tls: bool, trace: seq<Event>, part: seq<Event>)
    requires Produced(tls, trace) && part <= trace
    ensures Produced(tls, part)
  {
    var steps: seq<Step>, socks: seq<Sock>, n: nat :| ProducedBy(tls, trace, steps, socks, n);
    assert ProducedBy(tls, part, steps, socks, n);
  }

  /** Such a run of the client, for any messages that welcome it. Its first connection is greeted, polled
      into its slot and lost. On the second it polls the room's greeting, only then sends, and its next
      poll reads the failure, the close and the late message. */
  lemma LateWelcomeStrands(parse: Parser, hello: string, welcome: string, late: string)
      returns (ticks: seq<Tick>, worlds: seq<World>, steps: seq<Step>, socks: seq<Sock>)
    requires Welcomes(parse(hello)) && ConnectedCommand in parse(welcome) && Welcomes(parse(late))
    ensures IsPolling(parse, false, ticks, worlds) && |ticks| == 7
    ensures worlds[3].seen == [Open, Message(hello), Message(welcome)] && worlds[3].c.state == SlotConnected
    ensures worlds[4].seen == worlds[3].seen + [Error(false), Close] && worlds[4].c.state == Offline
    ensures worlds[5].seen == [] && |worlds[5].c.attempts| == 2
    ensures worlds[6].seen == [Open, Message(hello)] && worlds[6].c.state.Rank() >= RoomInfo.Rank()
    ensures IsRun(false, steps, socks) && |steps| == 10 && socks[5].trace == worlds[6].seen && socks[5].accepted == []
    ensures socks[10].trace == worlds[7].seen == worlds[6].seen + [Error(false), Close, Message(late)]
    ensures worlds[7].hasSocket && StageOf(worlds[7].seen).Gone? && Revived(parse, worlds[7].seen)
  {
    hide HandleEvent, HandleEvents, StageAfter, StageOf, Produced, Revived, Welcomes, Poll, Connects, WorldInv;
    var t4, ws := LostConnection(parse, hello, welcome);
    var w4 := ws[4];
    var due := Tick([], w4.c.lastConnectAttempt + w4.c.reconnectInterval);
    var up := TickNext(parse, w4, due);
    Reconnects(parse, w4, due);
    TickKeeps(parse, w4, due);
    steps, socks := LateMessageRun(hello, late);
    var hi, trace := [Open, Message(hello)], [Open, Message(hello), Error(false), Close, Message(late)];
    ProducedOf(false, hi, steps, socks, 10);
    ProducedOf(false, trace, steps, socks, 10);
    assert [] + hi == hi && hi + trace[2..] == trace;
    Greeted(parse, up, hello, due.now);
    var inRoom := TickNext(parse, up, Tick(hi, due.now));
    TickKeeps(parse, up, Tick(hi, due.now));
    LateTrace(parse, hello, late);
    LatePoll(parse, inRoom, Tick(trace[2..], due.now), hello, late);
    var down := TickNext(parse, inRoom, Tick(trace[2..], due.now));
    ticks := t4 + [due, Tick(hi, due.now), Tick(trace[2..], due.now)];
    worlds := ws + [up, inRoom, down];
  }

  /** The first four polls: connect, be greeted, be welcomed to the slot, and lose the connection. */
  lemma LostConnection(parse: Parser, hello: string, welcome: string) returns (ticks: seq<Tick>, worlds: seq<World>)
    requires Welcomes(parse(hello)) && ConnectedCommand in parse(welcome)
    ensures IsPolling(parse, false, ticks, worlds) && |ticks| == 4
    ensures worlds[3].seen == [Open, Message(hello), Message(welcome)] && worlds[3].c.state == SlotConnected
    ensures var w := worlds[4];
            && w.seen == worlds[3].seen + [Error(false), Close] && w.c.state == Offline
            && WorldInv(parse, w) && w.hasSocket && !w.tls && Produced(false, w.seen)
            && StageOf(w.seen).Gone? && !Revived(parse, w.seen) && |w.c.attempts| == 1
  {
    hide HandleEvent, HandleEvents, StageAfter, StageOf, Produced, Revived, Welcomes, Poll, Connects;
    var hi, trace := [Open, Message(hello)], [Open, Message(hello), Message(welcome), Error(false), Close];
    ticks := [Tick([], 0), Tick(hi, 0), Tick([Message(welcome)], 0), Tick([Error(false), Close], 0)];
    var start := World(Created(false), false, false, []);
    var up := World(ConnectSocket(Created(false), false, 0), true, false, []);
    FirstConnection(parse);
    TickKeeps(parse, start, ticks[0]);
    LossRun(hello, welcome);
    ProducedPrefix(false, trace, hi);
    ProducedPrefix(false, trace, hi + [Message(welcome)]);
    assert [] + hi == hi && hi + [Message(welcome)] == trace[..3] && trace[..3] + [Error(false), Close] == trace;
    Greeted(parse, up, hello, 0);
    var inRoom := TickNext(parse, up, ticks[1]);
    TickKeeps(parse, up, ticks[1]);
    LossTrace(parse, hello, welcome);
    Welcomed(parse, inRoom, hello, welcome);
    var inSlot := TickNext(parse, inRoom, ticks[2]);
    TickKeeps(parse, inRoom, ticks[2]);
    Loses(parse, inSlot, hello, welcome);
    var down := TickNext(parse, inSlot, ticks[3]);
    TickKeeps(parse, inSlot, ticks[3]);
    worlds := [start, up, inRoom, inSlot, down];
  }

  /** The poll that reads the slot's welcome. */
  lemma Welcomed(parse: Parser, w: World, hello: string, welcome: string)
    requires WorldInv(parse, w) && w.hasSocket && w.seen == [Open, Message(hello)]
             && w.c.state.Rank() >= RoomInfo.Rank()
    requires ConnectedCommand in parse(welcome)
    ensures var w' := TickNext(parse, w, Tick([Message(welcome)], 0));
            && w'.hasSocket && w'.tls == w.tls && w'.seen == w.seen + [Message(welcome)] && w'.c.state == SlotConnected
            && w'.c.attempts == w.c.attempts && w'.c.lastConnectAttempt == w.c.lastConnectAttempt
  {
    hide StageAfter, Produced, Revived, ProcessMessage, HandleEvents;
    var l := Loop(w.c, false);
    NoEvents(parse, w.c);
    EventsStep(parse, l, [Message(welcome)], 0);
    assert [Message(welcome)][..0] == [] && [Message(welcome)][..1] == [Message(welcome)];
    ConnectedState(w.c.state, parse(welcome));
  }

  lemma {:induction false} ConnectedState(state: ClientState, cmds: seq<Command>)
    ensures ProcessMessage(SlotConnected, cmds) == SlotConnected
    ensures ConnectedCommand in cmds ==> ProcessMessage(state, cmds) == SlotConnected
  {
    if |cmds| > 0 {
      var n := |cmds| - 1;
      ConnectedState(state, cmds[..n]);
      assert cmds == cmds[..n] + [cmds[n]];
    }
  }

  /** The poll that reads the loss: the client is offline, and not yet due. */
  lemma Loses(parse: Parser, w: World, hello: string, welcome: string)
    requires WorldInv(parse, w) && w.hasSocket && w.seen == [Open, Message(hello), Message(welcome)]
    requires w.c.lastConnectAttempt == 0
    requires TickEnabled(w, Tick([Error(false), Close], 0)) && StageOf(w.seen + [Error(false), Close]).Gone?
    requires !Revived(parse, w.seen + [Error(false), Close])
    ensures var w' := TickNext(parse, w, Tick([Error(false), Close], 0));
            && w'.hasSocket && w'.tls == w.tls && w'.seen == w.seen + [Error(false), Close] && w'.c.state == Offline
            && w'.c.attempts == w.c.attempts
  {
    hide HandleEvent, HandleEvents, StageAfter, StageOf, Produced, Revived;
    var chunk := [Error(false), Close];
    ProducedLegal(w.tls, w.seen + chunk);
    EventsFollow(parse, w.c, w.tls, w.seen, chunk);
    IntervalKept(parse, Loop(w.c, false), chunk);
  }

  /** A client that lost its connection connects again when it is due. */
  lemma Reconnects(parse: Parser, w: World, t: Tick)
    requires WorldInv(parse, w) && w.hasSocket && StageOf(w.seen).Gone? && !Revived(parse, w.seen)
    requires Produced(w.tls, w.seen) && t == Tick([], w.c.lastConnectAttempt + w.c.reconnectInterval)
    ensures var w' := TickNext(parse, w, t);
            && TickEnabled(w, t) && w'.hasSocket && w'.tls == w.tls && w'.seen == []
               && w'.c.attempts == w.c.attempts + [w.tls]
  {
    hide StageAfter, StageOf, Revived, Produced, HandleEvents;
    NoEvents(parse, w.c);
    assert w.seen + [] == w.seen;
  }

  lemma FirstConnection(parse: Parser)
    ensures WorldInv(parse, World(Created(false), false, false, []))
    ensures TickNext(parse, World(Created(false), false, false, []), Tick([], 0))
         == World(ConnectSocket(Created(false), false, 0), true, false, [])
  {
    NoEvents(parse, Created(false));
  }

  /** The poll that reads the greeting stays with its socket, in the room. */
  lemma Greeted(parse: Parser, w: World, hello: string, now: int)
    requires WorldInv(parse, w) && w.hasSocket && w.seen == [] && Welcomes(parse(hello))
    requires TickEnabled(w, Tick([Open, Message(hello)], now))
    ensures var w' := TickNext(parse, w, Tick([Open, Message(hello)], now));
            w'.hasSocket && w'.tls == w.tls && w'.seen == [Open, Message(hello)] && w'.c.state.Rank() >= RoomInfo.Rank()
            && w'.c.attempts == w.c.attempts && w'.c.lastConnectAttempt == w.c.lastConnectAttempt
  {
    hide StageAfter, Produced, Revived, Welcomes, ProcessMessage, HandleEvents;
    var hi := [Open, Message(hello)];
    var l := Loop(w.c, false);
    NoEvents(parse, w.c);
    EventsStep(parse, l, hi, 0);
    EventsStep(parse, l, hi, 1);
    assert hi[..0] == [] && hi[..2] == hi && [] + hi == hi;
    MessageState(SocketConnected, parse(hello));
  }

  lemma LatePoll(parse: Parser, w: World, t: Tick, hello: string, late: string)
    requires WorldInv(parse, w) && w.hasSocket && w.seen == [Open, Message(hello)]
             && t.chunk == [Error(false), Close, Message(late)]
    requires TickEnabled(w, t) && Revived(parse, w.seen + t.chunk) && StageOf(w.seen + t.chunk).Gone?
    ensures var w' := TickNext(parse, w, t); w'.hasSocket && w'.seen == w.seen + t.chunk
  {
    hide HandleEvent, HandleEvents, StageAfter, StageOf, Produced, Revived;
    ProducedLegal(w.tls, w.seen + t.chunk);
    EventsFollow(parse, w.c, w.tls, w.seen, t.chunk);
    IntervalKept(parse, Loop(w.c, false), t.chunk);
  }

  lemma LateTrace(parse: Parser, hello: string, late: string)
    requires Welcomes(parse(late))
    ensures var trace := [Open, Message(hello), Error(false), Close, Message(late)];
            StageOf(trace).Gone? && Revived(parse, trace)
  {
    hide StageAfter, StageOf, Welcomes;
    var trace := [Open, Message(hello), Error(false), Close, Message(late)];
    EmptyStage();
    StageOfOne([], Open);
    StageOfOne([Open], Message(hello));
    StageOfTwo([Open, Message(hello)], Error(false), Close);
    assert [] + [Open] == [Open] && [Open] + [Message(hello)] == [Open, Message(hello)];
    assert [Open, Message(hello)] + [Error(false), Close] == trace[..4];
    StageOfOne(trace[..4], Message(late));
    assert trace == trace[..4] + [Message(late)];
    assert LateWelcome(parse, trace, 4);
  }

  lemma LossTrace(parse: Parser, hello: string, welcome: string)
    ensures var trace := [Open, Message(hello), Message(welcome), Error(false), Close];
            StageOf(trace).Gone? && !Revived(parse, trace)
  {
    hide StageAfter, StageOf, Revived;
    var trace := [Open, Message(hello), Message(welcome), Error(false), Close];
    EmptyStage();
    StageOfOne([], Open);
    StageOfOne([Open], Message(hello));
    StageOfOne([Open, Message(hello)], Message(welcome));
    StageOfTwo(trace[..3], Error(false), Close);
    StageOfOne(trace[..3], Error(false));
    assert [] + [Open] == [Open] && [Open] + [Message(hello)] == [Open, Message(hello)];
    assert [Open, Message(hello)] + [Message(welcome)] == trace[..3] && trace[..3] + [Error(false), Close] == trace;
    assert trace[..3] + [Error(false)] == trace[..4] && trace[..4] + [Close] == trace;
    OnlyGoneRevives(parse, trace[..4]);
    RevivedStep(parse, trace[..4], Close);
  }
}
