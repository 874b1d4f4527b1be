/** The protocol client over whole runs: when it tries to connect, at once after a TLS failure and
    otherwise no sooner and no later than its doubling interval says, and what it takes itself to have
    reached. */
module PollingRuns {
  import opened WebSocket
  import opened ProtocolClient

  /** How many attempts were made since the last connection that opened, or since the start. */
  function AttemptsSince(ticks: seq<Tick>, worlds: seq<World>, n: nat): int
    requires n <= |ticks| && |worlds| == |ticks| + 1
  {
    if n == 0 then 0
    else
      (if Open in ticks[n - 1].chunk then 0 else AttemptsSince(ticks, worlds, n - 1))
      + |worlds[n].c.attempts| - |worlds[n - 1].c.attempts|
  }

  function Doubled(k: int): nat {
    if k <= 0 then 1 else 2 * Doubled(k - 1)
  }

  /** The interval after k attempts in vain: 1500 milliseconds doubled k times, and 15 seconds at most. */
  function Interval(k: int): nat {
    if 1500 * Doubled(k) < 15000 then 1500 * Doubled(k) else 15000
  }

  /** A refused TLS handshake, which calls for plaintext at once. */
  predicate FellBack(trace: seq<Event>) {
    |trace| > 0 && trace[0] == Error(true)
  }

  lemma {:induction false} IntervalAfter(parse: Parser, l: Loop, events: seq<Event>)
    ensures HandleEvents(parse, l, events).c.reconnectInterval
         == if Open in events then 1500 else l.c.reconnectInterval
    ensures HandleEvents(parse, l, events).c.lastConnectAttempt == l.c.lastConnectAttempt
    ensures HandleEvents(parse, l, events).c.attempts == l.c.attempts
  {
    if |events| > 0 {
      IntervalAfter(parse, l, events[..|events| - 1]);
      assert events == events[..|events| - 1] + [events[|events| - 1]];
    }
  }

  /** What one poll does to the count of attempts and the clocks, whether or not it connects. */
  lemma PollCounts(parse: Parser, v: World, t: Tick)
    ensures var w := TickNext(parse, v, t);
            var interval := if Open in t.chunk then 1500 else v.c.reconnectInterval;
            if |w.c.attempts| > |v.c.attempts|
            then |w.c.attempts| == |v.c.attempts| + 1 && w.c.lastConnectAttempt == t.now
                 && w.c.reconnectInterval == (if 2 * interval < 15000 then 2 * interval else 15000)
            else w.c.attempts == v.c.attempts && w.c.lastConnectAttempt == v.c.lastConnectAttempt
                 && w.c.reconnectInterval == interval
  {
    hide HandleEvents;
    IntervalAfter(parse, Loop(v.c, false), t.chunk);
  }

  lemma NextInterval(k: int)
    requires k >= 0
    ensures Interval(0) == 1500 && Interval(1) == 3000
    ensures Interval(k + 1) == if 2 * Interval(k) < 15000 then 2 * Interval(k) else 15000
  {
    assert Doubled(1) == 2 * Doubled(0);
  }

  /** The interval doubles with every attempt, from 1500 up to 15000 milliseconds, and starts over with
      every connection that opens. */
  lemma {:induction false} IntervalDoubles(parse: Parser, preferTls: bool, ticks: seq<Tick>, worlds: seq<World>,
                                           n: nat)
    requires IsPolling(parse, preferTls, ticks, worlds) && n <= |ticks|
    ensures AttemptsSince(ticks, worlds, n) >= 0
    ensures worlds[n].c.reconnectInterval == Interval(AttemptsSince(ticks, worlds, n))
  {
    hide TickNext;
    if n == 0 {
      NextInterval(0);
    } else {
      IntervalDoubles(parse, preferTls, ticks, worlds, n - 1);
      assert TicksTo(parse, worlds[n - 1], ticks[n - 1], worlds[n]);
      PollCounts(parse, worlds[n - 1], ticks[n - 1]);
      NextInterval(AttemptsSince(ticks, worlds, n - 1));
      NextInterval(0);
    }
  }

  /** A poll makes an attempt exactly when there was none before, or when its socket's TLS was refused, or
      when the client is not connected and its interval has passed since the last attempt, and nothing
      but an attempt moves the time of the last one. */
  lemma AttemptIff(parse: Parser, preferTls: bool, ticks: seq<Tick>, worlds: seq<World>, n: nat)
    requires IsPolling(parse, preferTls, ticks, worlds) && n < |ticks|
    ensures var v, t, w := worlds[n], ticks[n], worlds[n + 1];
            var interval := if Open in t.chunk then 1500 else Interval(AttemptsSince(ticks, worlds, n));
            (|w.c.attempts| > |v.c.attempts| <==>
             || !v.hasSocket || FellBack(v.seen + t.chunk)
             || ((w.c.state == Offline || w.c.state == SocketConnecting)
                 && t.now - v.c.lastConnectAttempt >= interval))
    ensures worlds[n + 1].c.lastConnectAttempt
         == if |worlds[n + 1].c.attempts| > |worlds[n].c.attempts| then ticks[n].now else worlds[n].c.lastConnectAttempt
  {
    hide HandleEvents, Produced, StageOf, StageAfter, Revived, AttemptsSince, Interval;
    var v, t, w := worlds[n], ticks[n], worlds[n + 1];
    PollingKeeps(parse, preferTls, ticks, worlds, n);
    IntervalDoubles(parse, preferTls, ticks, worlds, n);
    assert TicksTo(parse, v, t, w);
    IntervalAfter(parse, Loop(v.c, false), t.chunk);
    IntervalKept(parse, Loop(v.c, false), t.chunk);
    if v.hasSocket {
      ProducedLegal(v.tls, v.seen + t.chunk);
      EventsFollow(parse, v.c, v.tls, v.seen, t.chunk);
    } else {
      NoEvents(parse, v.c);
    }
    PollCounts(parse, v, t);
  }

  // ----- What the client takes itself to have reached -----

  /** A command that one of the messages of a trace carries. */
  ghost predicate Came(parse: Parser, cmd: Command, trace: seq<Event>) {
    exists i :: 0 <= i < |trace| && trace[i].Message? && cmd in parse(trace[i].text)
  }

  /** How far an open connection has got: as far as the furthest command that came. */
  ghost predicate Reached(parse: Parser, state: ClientState, trace: seq<Event>) {
    state == if Came(parse, ConnectedCommand, trace) then SlotConnected
             else if Came(parse, RoomInfoCommand, trace) then RoomInfo
             else SocketConnected
  }

  lemma {:induction false} MessageReaches(state: ClientState, cmds: seq<Command>)
    ensures ProcessMessage(state, cmds)
         == if ConnectedCommand in cmds then SlotConnected
            else if RoomInfoCommand in cmds && state != SlotConnected then RoomInfo
            else state
  {
    if |cmds| > 0 {
      var n := |cmds| - 1;
      MessageReaches(state, cmds[..n]);
      assert cmds == cmds[..n] + [cmds[n]];
    }
  }

  lemma CameOneMore(parse: Parser, cmd: Command, trace: seq<Event>, e: Event)
    ensures Came(parse, cmd, trace + [e]) <==> Came(parse, cmd, trace) || (e.Message? && cmd in parse(e.text))
  {
    var all := trace + [e];
    assert all[|trace|] == e && forall i :: 0 <= i < |trace| ==> all[i] == trace[i];
  }

  lemma EventReaches(parse: Parser, l: Loop, seen: seq<Event>, e: Event)
    requires StageOf(seen).Live? ==> Reached(parse, l.c.state, seen)
    requires StageOf(seen).Silent? ==> seen == []
    ensures StageOf(seen + [e]).Live? ==> Reached(parse, HandleEvent(parse, l, e).c.state, seen + [e])
  {
    hide StageAfter, StageOf, ProcessMessage, Came;
    StageOfOne(seen, e);
    CameOneMore(parse, ConnectedCommand, seen, e);
    CameOneMore(parse, RoomInfoCommand, seen, e);
    NothingCame(parse);
    if e.Message? {
      MessageReaches(l.c.state, parse(e.text));
    }
  }

  lemma NothingCame(parse: Parser)
    ensures forall cmd :: !Came(parse, cmd, [])
  {
  }

  lemma {:induction false} EventsReach(parse: Parser, c: Client, seen: seq<Event>, chunk: seq<Event>)
    requires StageOf(seen).Live? ==> Reached(parse, c.state, seen)
    requires !StageOf(seen + chunk).Broken?
    ensures StageOf(seen + chunk).Live? ==>
              Reached(parse, HandleEvents(parse, Loop(c, false), chunk).c.state, seen + chunk)
    decreases |chunk|
  {
    hide StageAfter, StageOf, HandleEvent, Reached;
    if |chunk| == 0 {
      assert seen + chunk == seen;
    } else {
      var n := |chunk| - 1;
      var before := seen + chunk[..n];
      assert (seen + chunk)[..|before|] == before && seen + chunk == before + [chunk[n]];
      StagePast(seen + chunk, |before|);
      EventsReach(parse, c, seen, chunk[..n]);
      assert before[..|before|] == before;
      FirstStage(before, |before|);
      EventReaches(parse, HandleEvents(parse, Loop(c, false), chunk[..n]), before, chunk[n]);
    }
  }

  /** While its connection is open the client takes itself to be connected to the slot exactly once a
      `Connected` came over it, and in the room, short of that, exactly once a `RoomInfo` did. */
  lemma {:induction false} StateReached(parse: Parser, preferTls: bool, ticks: seq<Tick>, worlds: seq<World>, n: nat)
    requires IsPolling(parse, preferTls, ticks, worlds) && n <= |ticks|
    requires worlds[n].hasSocket && StageOf(worlds[n].seen).Live?
    ensures Reached(parse, worlds[n].c.state, worlds[n].seen)
  {
    hide StageAfter, StageOf, HandleEvents, Produced, Reached;
    EmptyStage();
    if n > 0 {
      var v, t := worlds[n - 1], ticks[n - 1];
      assert TicksTo(parse, v, t, worlds[n]);
      if v.hasSocket {
        ProducedLegal(v.tls, v.seen + t.chunk);
        if StageOf(v.seen).Live? {
          StateReached(parse, preferTls, ticks, worlds, n - 1);
        }
        EventsReach(parse, v.c, v.seen, t.chunk);
      }
    }
  }
}
