/** The asynchronous WebSocket client as one step relation: calls from the game and completions of
    outstanding operations, in whatever order the strand runs them. */
module WebSocket {

  datatype ConnState = Disconnected | Connecting | Connected | Closing

  /** Which operation of the connection chain is outstanding, if any. */
  datatype Chain = Unstarted | Resolving | TcpConnecting | TlsHandshaking | WsHandshaking | Over

  /** What the user's callbacks are told. `ssl` says whether an error is of the SSL category. */
  datatype Event = Open | Close | Message(text: string) | Error(ssl: bool)

  datatype Outcome = Ok | Failed(ssl: bool)
  datatype ReadOutcome = Received(text: string) | PeerClosed | ReadFailed(ssl: bool)
  datatype CloseOutcome = Closed | CloseFailed(ssl: bool)

  /** An outstanding write. One started on a closed socket can only fail. */
  datatype Write = NoWrite | Write(text: string, live: bool)

  /** The outstanding operations of the stream, and whether this side closed its socket. */
  datatype Ops = Ops(chain: Chain, reading: bool, write: Write, closing: bool, shut: bool)

  datatype Sock = Sock(
    state: ConnState,
    writing: bool,
    closeRequested: bool,
    stopped: bool,
    tls: bool,
    queue: seq<string>,
    ops: Ops,
    accepted: seq<string>,  // messages `Send` took, in order
    written: seq<string>,   // messages whose write succeeded, in order
    trace: seq<Event>)

  function Fresh(tls: bool): Sock {
    Sock(Disconnected, false, false, false, tls, [], Ops(Unstarted, false, NoWrite, false, false), [], [], [])
  }

  datatype Step =
    | CallConnect
    | CallSend(text: string)
    | CallClose
    | CallStop
    | Resolved(outcome: Outcome)
    | TcpConnected(outcome: Outcome)
    | TlsDone(outcome: Outcome)
    | HandshakeDone(outcome: Outcome)
    | ReadDone(read: ReadOutcome)
    | WriteDone(outcome: Outcome)
    | CloseDone(close: CloseOutcome)

  predicate Enabled(s: Sock, e: Step) {
    match e
    case CallConnect => s.ops.chain == Unstarted
    case CallSend(_) => true
    case CallClose => true
    case CallStop => true
    case Resolved(_) => s.ops.chain == Resolving
    case TcpConnected(_) => s.ops.chain == TcpConnecting
    case TlsDone(_) => s.ops.chain == TlsHandshaking
    case HandshakeDone(_) => s.ops.chain == WsHandshaking
    case ReadDone(_) => s.ops.reading
    case WriteDone(outcome) => s.ops.write.Write? && (outcome.Ok? ==> s.ops.write.live)
    case CloseDone(_) => s.ops.closing
  }

  // ----- The handlers -----

  function Emit(s: Sock, es: seq<Event>): Sock {
    s.(trace := s.trace + es)
  }

  /** Beast allows one outstanding read. */
  function DoRead(s: Sock): Sock
    requires !s.ops.reading
  {
    s.(ops := s.ops.(reading := true))
  }

  /** Beast allows one outstanding write, of a buffer that stays put until it completes. */
  function DoWrite(s: Sock): Sock
    requires s.ops.write.NoWrite? && !s.ops.closing && |s.queue| > 0
  {
    s.(writing := true, ops := s.ops.(write := Write(s.queue[0], !s.ops.shut)))
  }

  /** `async_close` is a write too: none may be outstanding. */
  function DoClose(s: Sock): Sock
    requires s.ops.write.NoWrite? && !s.ops.closing
  {
    s.(ops := s.ops.(closing := true))
  }

  function Fail(s: Sock, ssl: bool): Sock {
    var t := s.(state := Disconnected, closeRequested := false,
                queue := if s.writing then s.queue else [],
                ops := s.ops.(shut := true));
    if s.stopped then t else Emit(t, [Error(ssl), Close])
  }

  function OnChain(s: Sock, outcome: Outcome, next: Chain): Sock {
    var t := s.(ops := s.ops.(chain := if s.stopped || outcome.Failed? then Over else next));
    if s.stopped then t else if outcome.Failed? then Fail(t, outcome.ssl) else t
  }

  function OnHandshake(s: Sock, outcome: Outcome): Sock
    requires !s.ops.reading
  {
    var t := OnChain(s, outcome, Over);
    if s.stopped || outcome.Failed? then t
    else DoRead(Emit(t.(state := Connected), [Open]))
  }

  function OnRead(s: Sock, read: ReadOutcome): Sock {
    var t := s.(ops := s.ops.(reading := false));
    if s.stopped then t
    else match read
      case Received(text) => DoRead(Emit(t, [Message(text)]))
      case PeerClosed =>
        if s.state == Disconnected || s.state == Closing then t
        else Emit(t.(state := Disconnected), [Close])
      case ReadFailed(ssl) =>
        if s.state == Disconnected || s.state == Closing then t else Fail(t, ssl)
  }

  function OnWrite(s: Sock, outcome: Outcome): Sock
    requires s.ops.write.Write? && !s.ops.closing && |s.queue| > 0
  {
    var t := s.(writing := false, ops := s.ops.(write := NoWrite),
                written := if outcome.Ok? then s.written + [s.ops.write.text] else s.written);
    if s.stopped then t
    else if outcome.Failed? then
      if s.closeRequested then
        Emit(t.(closeRequested := false, state := Disconnected, ops := t.ops.(shut := true)), [Close])
      else if s.state == Disconnected || s.state == Closing then t
      else Fail(t, outcome.ssl)
    else
      var u := t.(queue := t.queue[1..]);
      if u.closeRequested then DoClose(u.(closeRequested := false))
      else if |u.queue| > 0 && u.state == Connected then DoWrite(u)
      else u
  }

  function OnClose(s: Sock, close: CloseOutcome): Sock {
    var t := s.(state := Disconnected, ops := s.ops.(closing := false));
    if s.stopped then t
    else Emit(t, if close.CloseFailed? then [Error(close.ssl), Close] else [Close])
  }

  function Send(s: Sock, text: string): Sock
    requires s.state == Connected && !s.writing ==> s.ops.write.NoWrite? && !s.ops.closing
  {
    if s.state != Connected then s
    else
      var t := s.(queue := s.queue + [text], accepted := s.accepted + [text]);
      if t.writing then t else DoWrite(t)
  }

  function RequestClose(s: Sock): Sock
    requires s.state == Connected && !s.writing ==> s.ops.write.NoWrite? && !s.ops.closing
  {
    if s.state != Connected then s
    else
      var t := s.(state := Closing);
      if t.writing then t.(closeRequested := true) else DoClose(t)
  }

  function Stop(s: Sock): Sock {
    if s.stopped then s else s.(stopped := true, ops := s.ops.(shut := true))
  }

  function Next(s: Sock, e: Step): Sock
    requires Inv(s) && Enabled(s, e)
  {
    match e
    case CallConnect =>
      if s.state != Disconnected then s else s.(state := Connecting, ops := s.ops.(chain := Resolving))
    case CallSend(text) => Send(s, text)
    case CallClose => RequestClose(s)
    case CallStop => Stop(s)
    case Resolved(outcome) => OnChain(s, outcome, TcpConnecting)
    case TcpConnected(outcome) => OnChain(s, outcome, if s.tls then TlsHandshaking else WsHandshaking)
    case TlsDone(outcome) => OnChain(s, outcome, WsHandshaking)
    case HandshakeDone(outcome) => OnHandshake(s, outcome)
    case ReadDone(read) => OnRead(s, read)
    case WriteDone(outcome) => OnWrite(s, outcome)
    case CloseDone(close) => OnClose(s, close)
  }

  // ----- What the callbacks may see -----

  /** Where a trace of callbacks stands. `Broken` is a trace no socket may produce. */
  datatype Stage = Silent | Live | Dying(wasOpen: bool) | Refused | Gone | Broken

  function Advance(st: Stage, e: Event): Stage {
    match (st, e)
    case (Silent, Open) => Live
    case (Silent, Error(_)) => Dying(false)
    case (Live, Message(_)) => Live
    case (Live, Error(_)) => Dying(true)
    case (Live, Close) => Gone
    case (Dying(wasOpen), Close) => if wasOpen then Gone else Refused
    case (Gone, Message(_)) => Gone  // a read that had already completed
    case _ => Broken
  }

  function StageAfter(st: Stage, trace: seq<Event>): Stage {
    if |trace| == 0 then st else Advance(StageAfter(st, trace[..|trace| - 1]), trace[|trace| - 1])
  }

  function StageOf(trace: seq<Event>): Stage {
    StageAfter(Silent, trace)
  }

  lemma {:induction false} StageAppend(st: Stage, a: seq<Event>, b: seq<Event>)
    ensures StageAfter(st, a + b) == StageAfter(StageAfter(st, a), b)
    decreases |b|
  {
    if |b| == 0 {
      assert a + b == a;
    } else {
      assert (a + b)[..|a + b| - 1] == a + b[..|b| - 1];
      StageAppend(st, a, b[..|b| - 1]);
    }
  }

  // ----- The invariant -----

  predicate InChain(c: Chain) {
    c.Resolving? || c.TcpConnecting? || c.TlsHandshaking? || c.WsHandshaking?
  }

  /** Outstanding operations never clash, and the in-flight buffer is the front of the queue. */
  ghost predicate OpsInv(s: Sock) {
    && (s.writing <==> s.ops.write.Write?)
    && (s.writing ==> |s.queue| > 0 && s.queue[0] == s.ops.write.text)
    && (s.ops.closing ==> !s.writing && !s.closeRequested && s.state == Closing)
    && (s.closeRequested ==> s.state == Closing && (s.writing || s.stopped))
    && (!s.stopped && s.state == Closing ==> s.closeRequested || s.ops.closing)
    && (s.stopped ==> s.ops.shut)
    && (s.ops.chain == Unstarted ==> s.state == Disconnected)
    && (InChain(s.ops.chain) ==> s.state == Connecting)
    && (s.state == Connecting && !s.stopped ==> InChain(s.ops.chain))
    && (!s.ops.chain.Over? ==> !s.ops.reading && !s.writing && s.accepted == [])
  }

  /** Nothing is lost or reordered while connected, and nothing is ever written out of order. */
  ghost predicate QueueInv(s: Sock) {
    && s.written <= s.accepted
    && (s.ops.write.Write? && s.ops.write.live ==> s.written + [s.ops.write.text] <= s.accepted)
    && (!s.stopped && (s.state == Connected || s.state == Closing) ==> s.accepted == s.written + s.queue)
    && (!s.stopped && (s.state != Disconnected || s.ops.chain == Unstarted) ==> !s.ops.shut)
    && (!s.stopped && s.state == Connected && |s.queue| > 0 ==> s.writing)
    && (s.state == Connecting ==> s.queue == [])
    && (s.ops.chain == Unstarted ==> s.queue == [])
  }

  /** The trace is a legal one, and until `Stop` it says what the state says. */
  ghost predicate TraceInv(s: Sock) {
    var st := StageOf(s.trace);
    && !st.Broken? && !st.Dying?
    && (s.ops.reading ==> st.Live? || st.Gone?)
    && (!s.ops.chain.Over? ==> s.trace == [])
    && (!s.stopped ==>
          match s.state
          case Connecting => st.Silent?
          case Connected => st.Live?
          case Closing => st.Live?
          case Disconnected => if s.ops.chain == Unstarted then st.Silent? else st.Refused? || st.Gone?)
  }

  ghost predicate Inv(s: Sock) {
    OpsInv(s) && QueueInv(s) && TraceInv(s)
  }

  lemma StageOfOne(trace: seq<Event>, e: Event)
    ensures StageOf(trace + [e]) == Advance(StageOf(trace), e)
  {
    assert (trace + [e])[..|trace|] == trace;
  }

  lemma StageOfTwo(trace: seq<Event>, e: Event, f: Event)
    ensures StageOf(trace + [e, f]) == Advance(Advance(StageOf(trace), e), f)
  {
    StageOfOne(trace, e);
    StageOfOne(trace + [e], f);
    assert trace + [e, f] == trace + [e] + [f];
  }

  /** An error tears the connection down, whether it was still being made or already open. */
  lemma FailKeeps(s: Sock, ssl: bool)
    requires OpsInv(s.(ops := s.ops.(chain := Over), state := Disconnected)) && !s.stopped && s.ops.chain.Over?
    requires s.written <= s.accepted
    requires s.ops.write.Write? && s.ops.write.live ==> s.written + [s.ops.write.text] <= s.accepted
    requires !s.ops.closing && !s.closeRequested
    requires StageOf(s.trace).Silent? || StageOf(s.trace).Live?
    requires s.ops.reading ==> StageOf(s.trace).Live?
    ensures Inv(Fail(s, ssl))
  {
    hide StageOf;
    StageOfTwo(s.trace, Error(ssl), Close);
  }

  lemma ConnectKeeps(s: Sock)
    requires Inv(s) && s.ops.chain == Unstarted
    ensures Inv(Next(s, CallConnect))
  {
  }

  lemma ChainKeeps(s: Sock, outcome: Outcome, next: Chain)
    requires Inv(s) && InChain(s.ops.chain) && InChain(next)
    ensures Inv(OnChain(s, outcome, next))
  {
    hide Fail, StageAfter;
    if !s.stopped && outcome.Failed? {
      FailKeeps(s.(ops := s.ops.(chain := Over)), outcome.ssl);
    }
  }

  lemma HandshakeKeeps(s: Sock, outcome: Outcome)
    requires Inv(s) && s.ops.chain == WsHandshaking
    ensures Inv(OnHandshake(s, outcome))
  {
    hide Fail, StageAfter;
    StageOfOne(s.trace, Open);
    if !s.stopped && outcome.Failed? {
      FailKeeps(s.(ops := s.ops.(chain := Over)), outcome.ssl);
    }
  }

  lemma CallKeeps(s: Sock, e: Step)
    requires Inv(s) && Enabled(s, e) && (e.CallSend? || e.CallClose? || e.CallStop?)
    ensures Inv(Next(s, e))
  {
    hide StageAfter, StageOf;
  }

  lemma ReceivedKeeps(s: Sock, text: string)
    requires Inv(s) && s.ops.reading
    ensures Inv(OnRead(s, Received(text)))
  {
    hide StageAfter, StageOf;
    StageOfOne(s.trace, Message(text));
  }

  lemma ReadKeeps(s: Sock, read: ReadOutcome)
    requires Inv(s) && s.ops.reading && !read.Received?
    ensures Inv(OnRead(s, read))
  {
    hide StageAfter, StageOf, Fail;
    StageOfOne(s.trace, Close);
    if !s.stopped && s.state == Connected && read.ReadFailed? {
      FailKeeps(s.(ops := s.ops.(reading := false)), read.ssl);
    }
  }

  lemma WriteFailureKeeps(s: Sock, outcome: Outcome)
    requires Inv(s) && s.ops.write.Write? && outcome.Failed?
    ensures Inv(OnWrite(s, outcome))
  {
    hide StageAfter, StageOf, Fail;
    StageOfOne(s.trace, Close);
    if !s.stopped && !s.closeRequested && s.state == Connected {
      FailKeeps(s.(writing := false, ops := s.ops.(write := NoWrite)), outcome.ssl);
    }
  }

  lemma WriteKeepsQueue(s: Sock)
    requires Inv(s) && s.ops.write.Write? && s.ops.write.live
    ensures QueueInv(OnWrite(s, Ok))
  {
    hide StageAfter, StageOf, TraceInv;
    var rest := s.queue[1..];
    assert s.queue == [s.ops.write.text] + rest;
    assert s.written + s.queue == s.written + [s.ops.write.text] + rest;
    assert |rest| > 0 ==> s.written + s.queue == s.written + [s.ops.write.text] + [rest[0]] + rest[1..];
  }

  lemma WriteKeeps(s: Sock)
    requires Inv(s) && s.ops.write.Write? && s.ops.write.live
    ensures Inv(OnWrite(s, Ok))
  {
    hide StageAfter, StageOf, QueueInv;
    WriteKeepsQueue(s);
  }

  lemma CloseKeeps(s: Sock, close: CloseOutcome)
    requires Inv(s) && s.ops.closing
    ensures Inv(OnClose(s, close))
  {
    hide StageAfter, StageOf;
    StageOfOne(s.trace, Close);
    if close.CloseFailed? {
      StageOfTwo(s.trace, Error(close.ssl), Close);
    }
  }

  lemma StepKeeps(s: Sock, e: Step)
    requires Inv(s) && Enabled(s, e)
    ensures Inv(Next(s, e))
  {
    hide OpsInv, QueueInv, TraceInv, OnRead, OnWrite, OnClose, OnChain, OnHandshake;
    match e {
      case CallConnect => ConnectKeeps(s);
      case CallSend(_) => CallKeeps(s, e);
      case CallClose => CallKeeps(s, e);
      case CallStop => CallKeeps(s, e);
      case Resolved(outcome) => ChainKeeps(s, outcome, TcpConnecting);
      case TcpConnected(outcome) => ChainKeeps(s, outcome, if s.tls then TlsHandshaking else WsHandshaking);
      case TlsDone(outcome) => ChainKeeps(s, outcome, WsHandshaking);
      case HandshakeDone(outcome) => HandshakeKeeps(s, outcome);
      case ReadDone(read) => if read.Received? { ReceivedKeeps(s, read.text); } else { ReadKeeps(s, read); }
      case WriteDone(outcome) => if outcome.Ok? { WriteKeeps(s); } else { WriteFailureKeeps(s, outcome); }
      case CloseDone(close) => CloseKeeps(s, close);
    }
  }

  // ----- Whole runs -----

  /** One step of a run. `Next` is only defined where Beast's own demands are met; a state that
      failed them could go anywhere. */
  ghost predicate StepsTo(v: Sock, e: Step, w: Sock) {
    Enabled(v, e) && (Inv(v) ==> w == Next(v, e))
  }

  ghost predicate IsRun(tls: bool, steps: seq<Step>, socks: seq<Sock>) {
    && |socks| == |steps| + 1 && socks[0] == Fresh(tls)
    && forall i :: 0 <= i < |steps| ==> StepsTo(socks[i], steps[i], socks[i + 1])
  }

  lemma {:induction false} RunKeeps(tls: bool, steps: seq<Step>, socks: seq<Sock>, n: nat)
    requires IsRun(tls, steps, socks) && n <= |steps|
    ensures Inv(socks[n])
  {
    hide OpsInv, QueueInv, TraceInv, Next;
    if n == 0 {
      FreshInv(tls);
    } else {
      RunKeeps(tls, steps, socks, n - 1);
      assert StepsTo(socks[n - 1], steps[n - 1], socks[n]);
      StepKeeps(socks[n - 1], steps[n - 1]);
    }
  }

  lemma FreshInv(tls: bool)
    ensures Inv(Fresh(tls))
  {
  }

  /** In every interleaving what reaches the wire is a prefix of what `Send` took, in order; a
      connected socket with nothing in flight has sent it all; and a close on request is never lost. */
  lemma SentInOrder(tls: bool, steps: seq<Step>, socks: seq<Sock>, n: nat)
    requires IsRun(tls, steps, socks) && n <= |steps|
    ensures var s := socks[n];
            && s.written <= s.accepted
            && (s.state == Connected && !s.stopped && s.ops.write.NoWrite? ==> s.written == s.accepted)
            && (s.state == Closing && !s.stopped ==> s.ops.closing || (s.closeRequested && s.ops.write.Write?))
            && !(s.ops.closing && s.ops.write.Write?)
  {
    RunKeeps(tls, steps, socks, n);
  }

  /** The buffer of an outstanding write is the queue's front, and no step but its completion moves it. */
  lemma BufferStays(s: Sock, e: Step)
    requires Inv(s) && Enabled(s, e) && s.ops.write.Write? && !e.WriteDone?
    ensures var t := Next(s, e);
            && t.ops.write == s.ops.write
            && |t.queue| > 0 && t.queue[0] == s.queue[0] == s.ops.write.text
  {
    hide TraceInv;
  }

  /** The callbacks of a step, read off the state and the completion alone. */
  function Callbacks(s: Sock, e: Step): seq<Event> {
    var down := s.state == Disconnected || s.state == Closing;
    if s.stopped then []
    else match e
      case Resolved(outcome) => if outcome.Failed? then [Error(outcome.ssl), Close] else []
      case TcpConnected(outcome) => if outcome.Failed? then [Error(outcome.ssl), Close] else []
      case TlsDone(outcome) => if outcome.Failed? then [Error(outcome.ssl), Close] else []
      case HandshakeDone(outcome) => if outcome.Failed? then [Error(outcome.ssl), Close] else [Open]
      case ReadDone(Received(text)) => [Message(text)]
      case ReadDone(PeerClosed) => if down then [] else [Close]
      case ReadDone(ReadFailed(ssl)) => if down then [] else [Error(ssl), Close]
      case WriteDone(Failed(ssl)) => if s.closeRequested then [Close] else if down then [] else [Error(ssl), Close]
      case CloseDone(Closed) => [Close]
      case CloseDone(CloseFailed(ssl)) => [Error(ssl), Close]
      case _ => []
  }

  lemma ToldConnecting(s: Sock, e: Step)
    requires Inv(s) && Enabled(s, e) && !(e.ReadDone? || e.WriteDone? || e.CloseDone?)
    ensures ToldBy(s, e)
  {
    hide TraceInv, StageOf, StageAfter, QueueInv;
  }

  lemma ToldConnected(s: Sock, e: Step)
    requires Inv(s) && Enabled(s, e) && (e.ReadDone? || e.WriteDone? || e.CloseDone?)
    ensures ToldBy(s, e)
  {
    hide TraceInv, StageOf, StageAfter, QueueInv;
  }

  ghost predicate ToldBy(s: Sock, e: Step)
    requires Inv(s) && Enabled(s, e)
  {
    && Next(s, e).trace == s.trace + Callbacks(s, e)
    && (Close in Callbacks(s, e) <==> !s.stopped && s.state != Disconnected && Next(s, e).state == Disconnected)
  }

  /** Close is told exactly when the socket goes down, an error only right before its Close, and
      nothing at all once stopped. */
  lemma Told(s: Sock, e: Step)
    requires Inv(s) && Enabled(s, e)
    ensures Next(s, e).trace == s.trace + Callbacks(s, e)
    ensures Close in Callbacks(s, e) <==> !s.stopped && s.state != Disconnected && Next(s, e).state == Disconnected
  {
    hide Next, Callbacks, Inv, Enabled;
    if e.ReadDone? || e.WriteDone? || e.CloseDone? {
      ToldConnected(s, e);
    } else {
      ToldConnecting(s, e);
    }
  }

  lemma {:induction false} StagePast(trace: seq<Event>, i: nat)
    requires i <= |trace| && !StageOf(trace).Broken?
    ensures !StageOf(trace[..i]).Broken?
    ensures StageOf(trace[..i]).Live? ==> StageOf(trace).Live? || StageOf(trace).Gone? || StageOf(trace) == Dying(true)
    ensures StageOf(trace[..i]).Gone? ==> StageOf(trace).Gone?
    ensures StageOf(trace[..i]).Refused? ==> i == |trace|
    ensures StageOf(trace[..i]) == Dying(false) ==> i == |trace| || StageOf(trace).Refused?
    ensures StageOf(trace[..i]) == Dying(true) ==> i == |trace| || StageOf(trace).Gone?
    decreases |trace| - i
  {
    if i == |trace| {
      assert trace[..i] == trace;
    } else {
      assert trace[..i + 1][..i] == trace[..i];
      StagePast(trace, i + 1);
    }
  }

  /** Every trace a socket produces: Open at most once, Close at most once, an error followed at once
      by Close, nothing but late messages after Close, and no message before Open. */
  lemma TraceShape(tls: bool, steps: seq<Step>, socks: seq<Sock>, n: nat, i: nat)
    requires IsRun(tls, steps, socks) && n <= |steps| && i < |socks[n].trace|
    ensures var trace := socks[n].trace;
            && (trace[i].Open? ==> i == 0)
            && (trace[i].Message? ==> 0 < i && trace[0].Open?)
            && (trace[i].Error? ==> i + 1 < |trace| && trace[i + 1].Close?)
            && (trace[i].Close? ==> forall j :: i < j < |trace| ==> trace[j].Message?)
  {
    RunKeeps(tls, steps, socks, n);
    var trace := socks[n].trace;
    StagePast(trace, i);
    StagePast(trace, i + 1);
    assert trace[..i + 1][..i] == trace[..i];
    FirstStage(trace, i);
    if trace[i].Error? && i + 1 < |trace| {
      StagePast(trace, i + 2);
      assert trace[..i + 2][..i + 1] == trace[..i + 1];
    }
    if trace[i].Close? {
      forall j | i < j < |trace| ensures trace[j].Message? {
        StagePast(trace, j + 1);
        assert trace[..j + 1][..j] == trace[..j];
        StagePast(trace[..j], i + 1);
        assert trace[..j][..i + 1] == trace[..i + 1];
      }
    }
  }

  /** Only the empty trace is silent, and only a trace that starts with Open goes live. */
  lemma {:induction false} FirstStage(trace: seq<Event>, i: nat)
    requires i <= |trace| && !StageOf(trace[..i]).Broken?
    ensures StageOf(trace[..i]).Silent? <==> i == 0
    ensures var st := StageOf(trace[..i]); st.Live? || st.Gone? || st == Dying(true) ==> trace[0].Open?
  {
    if i > 0 {
      assert trace[..i][..i - 1] == trace[..i - 1];
      FirstStage(trace, i - 1);
    }
  }
}
