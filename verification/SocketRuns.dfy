/** The socket over whole runs, told by its calls and completions: how a connection opens, what is
    accepted, and what closing and stopping put an end to. */
module SocketRuns {
  import opened WebSocket

  /** What has to succeed, and in which order, before a connection is open. */
  function Plan(tls: bool): seq<Step> {
    [CallConnect, Resolved(Ok), TcpConnected(Ok)] + (if tls then [TlsDone(Ok)] else []) + [HandshakeDone(Ok)]
  }

  /** The steps of a run that belong to a plan, in order. */
  function Made(steps: seq<Step>): seq<Step> {
    if |steps| == 0 then []
    else
      var last := steps[|steps| - 1];
      Made(steps[..|steps| - 1]) + if last in Plan(true) then [last] else []
  }

  /** Where a chain stands is how much of its plan was made. */
  ghost predicate Stands(s: Sock, tls: bool, made: seq<Step>) {
    && s.tls == tls && made <= Plan(tls)
    && (match s.ops.chain
        case Unstarted => made == []
        case Resolving => |made| == 1
        case TcpConnecting => |made| == 2
        case TlsHandshaking => tls && |made| == 3
        case WsHandshaking => |made| == |Plan(tls)| - 1
        case Over => s.stopped || s.trace != [])
    && (Open in s.trace ==> made == Plan(tls))
    && (made == Plan(tls) ==> s.stopped || Open in s.trace)
  }

  lemma PlanIs()
    ensures Plan(true) == [CallConnect, Resolved(Ok), TcpConnected(Ok), TlsDone(Ok), HandshakeDone(Ok)]
    ensures Plan(false) == [CallConnect, Resolved(Ok), TcpConnected(Ok), HandshakeDone(Ok)]
  {
  }

  lemma ChainStands(s: Sock, e: Step, made: seq<Step>)
    requires Inv(s) && Enabled(s, e) && Stands(s, s.tls, made)
    requires e.CallConnect? || e.Resolved? || e.TcpConnected? || e.TlsDone? || e.HandshakeDone?
    ensures Stands(Next(s, e), s.tls, if e in Plan(true) then made + [e] else made)
  {
    hide QueueInv, StageOf, StageAfter;
    PlanIs();
  }

  lemma MadeStep(steps: seq<Step>, i: nat)
    requires i < |steps|
    ensures steps[..i + 1] == steps[..i] + [steps[i]]
    ensures Made(steps[..i + 1]) == if steps[i] in Plan(true) then Made(steps[..i]) + [steps[i]] else Made(steps[..i])
  {
    assert steps[..i + 1][..i] == steps[..i];
  }

  predicate OfChain(e: Step) {
    e.CallConnect? || e.Resolved? || e.TcpConnected? || e.TlsDone? || e.HandshakeDone?
  }

  /** What no step takes back, and what only the chain's own steps change. */
  ghost predicate Apart(s: Sock, e: Step, t: Sock) {
    && t.tls == s.tls && (t.stopped <==> s.stopped || e.CallStop?)
    && (!OfChain(e) ==> t.ops.chain == s.ops.chain)
  }

  lemma StepApart(s: Sock, e: Step)
    requires Inv(s) && Enabled(s, e)
    ensures Apart(s, e, Next(s, e))
  {
    hide Inv, Enabled, Next, Apart;
    match e {
      case ReadDone(read) => ReadApart(s, e);
      case WriteDone(outcome) => WriteApart(s, e);
      case _ => CallApart(s, e);
    }
  }

  lemma ReadApart(s: Sock, e: Step)
    requires Inv(s) && Enabled(s, e) && e.ReadDone?
    ensures Apart(s, e, Next(s, e))
  {
    hide Inv;
  }

  lemma WriteApart(s: Sock, e: Step)
    requires Inv(s) && Enabled(s, e) && e.WriteDone?
    ensures Apart(s, e, Next(s, e))
  {
    hide TraceInv;
  }

  lemma CallApart(s: Sock, e: Step)
    requires Inv(s) && Enabled(s, e) && !e.ReadDone? && !e.WriteDone?
    ensures Apart(s, e, Next(s, e))
  {
    hide Inv;
  }

  lemma RestStands(s: Sock, e: Step, made: seq<Step>)
    requires Inv(s) && Enabled(s, e) && Stands(s, s.tls, made) && !OfChain(e)
    ensures Stands(Next(s, e), s.tls, made) && e !in Plan(true)
  {
    hide Inv, Next;
    PlanIs();
    Told(s, e);
    StepApart(s, e);
  }

  /** Every step of the plan so far was made in its turn, and nothing was left out. */
  lemma {:induction false} RunStands(tls: bool, steps: seq<Step>, socks: seq<Sock>, n: nat)
    requires IsRun(tls, steps, socks) && n <= |steps|
    ensures Stands(socks[n], tls, Made(steps[..n]))
    ensures socks[n].stopped <==> CallStop in steps[..n]
  {
    hide Stands, Next, Inv;
    RunKeeps(tls, steps, socks, n);
    if n == 0 {
      FreshStands(tls);
    } else {
      var v, e := socks[n - 1], steps[n - 1];
      RunStands(tls, steps, socks, n - 1);
      RunKeeps(tls, steps, socks, n - 1);
      assert StepsTo(v, e, socks[n]);
      MadeStep(steps, n - 1);
      assert v.tls == tls by { StandsScheme(v, tls, Made(steps[..n - 1])); }
      StepApart(v, e);
      if OfChain(e) {
        ChainStands(v, e, Made(steps[..n - 1]));
      } else {
        RestStands(v, e, Made(steps[..n - 1]));
      }
    }
  }

  lemma FreshStands(tls: bool)
    ensures Stands(Fresh(tls), tls, Made([]))
  {
  }

  lemma StandsScheme(s: Sock, tls: bool, made: seq<Step>)
    requires Stands(s, tls, made)
    ensures s.tls == tls
  {
  }

  /** A connection opens exactly by its plan: what succeeded so far is always a first part of it, in its
      order; an open one has been through all of it; one that has been through all of it is open unless
      it was stopped; and while nothing was told and nothing stopped, the next part is under way. */
  lemma OpensByPlan(tls: bool, steps: seq<Step>, socks: seq<Sock>, n: nat)
    requires IsRun(tls, steps, socks) && n <= |steps|
    ensures var made, s := Made(steps[..n]), socks[n];
            && made <= Plan(tls)
            && (Open in s.trace ==> made == Plan(tls))
            && (made == Plan(tls) && CallStop !in steps[..n] ==> Open in s.trace)
            && (CallStop !in steps[..n] && s.trace == [] ==> |made| < |Plan(tls)| && Enabled(s, Plan(tls)[|made|]))
  {
    hide Made, Inv;
    RunStands(tls, steps, socks, n);
    PlanIs();
  }

  /** Where the k-th of the made steps was made. */
  lemma {:induction false} MadeAt(steps: seq<Step>, k: nat) returns (i: nat)
    requires k < |Made(steps)|
    ensures i < |steps| && steps[i] == Made(steps)[k] && |Made(steps[..i])| == k
    decreases |steps|
  {
    hide Plan;
    var but := steps[..|steps| - 1];
    if k < |Made(but)| {
      i := MadeAt(but, k);
      assert but[..i] == steps[..i];
    } else {
      i := |steps| - 1;
    }
  }

  lemma {:induction false} MadeGrows(steps: seq<Step>, i: nat, j: nat)
    requires i <= j <= |steps|
    ensures |Made(steps[..i])| <= |Made(steps[..j])|
    decreases j
  {
    hide Plan;
    if i < j {
      MadeGrows(steps, i, j - 1);
      assert steps[..j][..j - 1] == steps[..j - 1];
    }
  }

  /** A socket that opened made its TCP connection first, then, exactly when it is a TLS one, the TLS
      handshake, and the WebSocket handshake after both. */
  lemma TlsBeforeOpen(tls: bool, steps: seq<Step>, socks: seq<Sock>, n: nat) returns (tcp: nat, shaken: nat)
    requires IsRun(tls, steps, socks) && n <= |steps| && Open in socks[n].trace
    ensures tcp < shaken < n && steps[tcp] == TcpConnected(Ok) && steps[shaken] == HandshakeDone(Ok)
    ensures tls <==> TlsDone(Ok) in steps[..n]
    ensures tls <==> exists i :: tcp < i < shaken && steps[i] == TlsDone(Ok)
  {
    hide Plan;
    PlanIs();
    OpensByPlan(tls, steps, socks, n);
    var done := steps[..n];
    tcp := MadeAt(done, 2);
    shaken := MadeAt(done, |Plan(tls)| - 1);
    if shaken <= tcp {
      MadeGrows(done, shaken, tcp);
    }
    if tls {
      var i := MadeAt(done, 3);
      if i <= tcp {
        MadeGrows(done, i, tcp);
      }
      if shaken <= i {
        MadeGrows(done, shaken, i);
      }
    } else {
      AllMade(done);
    }
  }

  lemma {:induction false} AllMade(steps: seq<Step>)
    ensures forall e :: e in steps && e in Plan(true) ==> e in Made(steps)
  {
    hide Plan;
    if |steps| > 0 {
      AllMade(steps[..|steps| - 1]);
      assert steps == steps[..|steps| - 1] + [steps[|steps| - 1]];
    }
  }

  // ----- Sending, closing, stopping -----

  /** What was sent while connected, in order. */
  function Offered(steps: seq<Step>, socks: seq<Sock>): seq<string>
    requires |steps| < |socks|
  {
    if |steps| == 0 then []
    else
      var n := |steps| - 1;
      Offered(steps[..n], socks)
      + if steps[n].CallSend? && socks[n].state == Connected then [steps[n].text] else []
  }

  /** How a step moves the socket, by its own account of itself. */
  ghost predicate Moves(s: Sock, e: Step, t: Sock) {
    && t.accepted == s.accepted + (if e.CallSend? && s.state == Connected then [e.text] else [])
    && (t.state == Connected ==> s.state == Connected || e == HandshakeDone(Ok))
    && (t.state == Closing ==> s.state == Closing || (e == CallClose && s.state == Connected))
    && (e == CallClose && s.state == Connected ==> t.state == Closing)
    && (t.state == Connected && !t.stopped ==> t.ops.reading || (s.state == Connected && !s.ops.reading))
    && (s.ops.chain.Over? ==> t.ops.chain.Over?)
  }

  lemma StepMoves(s: Sock, e: Step)
    requires Inv(s) && Enabled(s, e)
    ensures Moves(s, e, Next(s, e))
  {
    hide Inv, Enabled, Next, Moves;
    if e.ReadDone? {
      ReadMoves(s, e);
    } else if e.WriteDone? || e.CloseDone? {
      WriteMoves(s, e);
    } else {
      CallMoves(s, e);
    }
  }

  lemma ReadMoves(s: Sock, e: Step)
    requires Inv(s) && Enabled(s, e) && e.ReadDone?
    ensures Moves(s, e, Next(s, e))
  {
    hide TraceInv, QueueInv;
    assert s.accepted + [] == s.accepted;
  }

  lemma WriteMoves(s: Sock, e: Step)
    requires Inv(s) && Enabled(s, e) && (e.WriteDone? || e.CloseDone?)
    ensures Moves(s, e, Next(s, e))
  {
    hide TraceInv, QueueInv;
    assert s.accepted + [] == s.accepted;
  }

  lemma CallMoves(s: Sock, e: Step)
    requires Inv(s) && Enabled(s, e) && !e.ReadDone? && !e.WriteDone? && !e.CloseDone?
    ensures Moves(s, e, Next(s, e))
  {
    hide TraceInv, QueueInv;
    assert s.accepted + [] == s.accepted;
  }

  /** What is accepted is what was sent while connected, all of it and nothing else; and a connected
      socket always has a read under way. */
  lemma {:induction false} AcceptsWhatIsSent(tls: bool, steps: seq<Step>, socks: seq<Sock>, n: nat)
    requires IsRun(tls, steps, socks) && n <= |steps|
    ensures socks[n].accepted == Offered(steps[..n], socks)
    ensures socks[n].state == Connected && !socks[n].stopped ==> socks[n].ops.reading
  {
    hide Next, Inv;
    if n > 0 {
      AcceptsWhatIsSent(tls, steps, socks, n - 1);
      RunKeeps(tls, steps, socks, n - 1);
      assert StepsTo(socks[n - 1], steps[n - 1], socks[n]);
      StepMoves(socks[n - 1], steps[n - 1]);
      StepApart(socks[n - 1], steps[n - 1]);
      assert steps[..n][..n - 1] == steps[..n - 1];
    }
  }

  /** Asked to close while connected, a socket takes no more messages and never opens again. */
  lemma {:induction false} ClosedForGood(tls: bool, steps: seq<Step>, socks: seq<Sock>, i: nat, n: nat)
    requires IsRun(tls, steps, socks) && i < n <= |steps|
    requires steps[i] == CallClose && socks[i].state == Connected
    ensures socks[i + 1].state == Closing
    ensures (socks[n].state == Closing || socks[n].state == Disconnected) && socks[n].ops.chain.Over?
    ensures socks[n].accepted == socks[i].accepted
    decreases n
  {
    hide Next, Inv;
    RunKeeps(tls, steps, socks, n - 1);
    OpenIsOver(tls, steps, socks, i);
    assert StepsTo(socks[n - 1], steps[n - 1], socks[n]);
    StepMoves(socks[n - 1], steps[n - 1]);
    if n > i + 1 {
      ClosedForGood(tls, steps, socks, i, n - 1);
      OverEnds(socks[n - 1], steps[n - 1]);
    }
  }

  lemma OpenIsOver(tls: bool, steps: seq<Step>, socks: seq<Sock>, n: nat)
    requires IsRun(tls, steps, socks) && n <= |steps|
    ensures socks[n].state == Connected ==> socks[n].ops.chain.Over?
  {
    RunKeeps(tls, steps, socks, n);
  }

  /** Once its chain is over a socket is past making a connection. */
  lemma OverEnds(s: Sock, e: Step)
    requires Inv(s) && Enabled(s, e) && s.ops.chain.Over? && (s.state == Closing || s.state == Disconnected)
    ensures Next(s, e).state == Closing || Next(s, e).state == Disconnected
  {
    hide TraceInv, QueueInv;
  }

  /** A socket is only ever closing because it was asked to while connected. */
  lemma {:induction false} ClosingWasAsked(tls: bool, steps: seq<Step>, socks: seq<Sock>, n: nat) returns (i: nat)
    requires IsRun(tls, steps, socks) && n <= |steps| && socks[n].state == Closing
    ensures i < n && steps[i] == CallClose && socks[i].state == Connected
    decreases n
  {
    hide Next, Inv;
    assert n > 0;
    RunKeeps(tls, steps, socks, n - 1);
    assert StepsTo(socks[n - 1], steps[n - 1], socks[n]);
    StepMoves(socks[n - 1], steps[n - 1]);
    if socks[n - 1].state == Closing {
      i := ClosingWasAsked(tls, steps, socks, n - 1);
    } else {
      i := n - 1;
    }
  }

  /** Nothing is told after a stop, and the socket is shut. */
  lemma {:induction false} SilentOnceStopped(tls: bool, steps: seq<Step>, socks: seq<Sock>, i: nat, n: nat)
    requires IsRun(tls, steps, socks) && i < n <= |steps| && steps[i] == CallStop
    ensures socks[n].trace == socks[i].trace && socks[n].ops.shut
    decreases n
  {
    hide Next;
    RunKeeps(tls, steps, socks, n - 1);
    RunKeeps(tls, steps, socks, n);
    RunStands(tls, steps, socks, n);
    RunStands(tls, steps, socks, n - 1);
    assert CallStop in steps[..n] by { assert steps[..n][i] == CallStop; }
    assert StepsTo(socks[n - 1], steps[n - 1], socks[n]);
    Told(socks[n - 1], steps[n - 1]);
    if n > i + 1 {
      SilentOnceStopped(tls, steps, socks, i, n - 1);
      assert CallStop in steps[..n - 1] by { assert steps[..n - 1][i] == CallStop; }
    }
  }
}
