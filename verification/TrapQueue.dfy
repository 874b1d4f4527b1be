/** The queue of received traps: what waits, what springs on an update, and what teleports hold. */
module TrapQueue {
  import opened Options
  import opened SlotItems
  import TrapList

  const TRAP_DELAY_AFTER_TELEPORT := 3000

  datatype Spring = Spring(trap: TrapType, at: int)

  /** `column` is the saved list, as text. `ready` is whether the slot data has arrived. The rest is
      history: what was received and went off, in order, what each new session loaded, and the most
      traps a save was asked to hold. */
  datatype Queue = Queue(
    column: string,
    pending: seq<TrapType>,
    heldUntil: int,
    bombRun: bool,
    ready: bool,
    received: seq<TrapType>,
    sprung: seq<Spring>,
    reloads: seq<Reload>,
    largestSave: nat,
    runsEnded: nat)           // bomb runs that ran out or were cut short

  /** What waited when a session ended, and what the next one loaded. */
  datatype Reload = Reload(waiting: seq<TrapType>, loaded: seq<TrapType>)

  /** What waited and was not loaded. */
  function Lost(reloads: seq<Reload>): multiset<TrapType> {
    if |reloads| == 0 then multiset{}
    else
      var last := reloads[|reloads| - 1];
      Lost(reloads[..|reloads| - 1]) + (multiset(last.waiting) - multiset(last.loaded))
  }

  /** What was loaded and did not wait. */
  function Doubled(reloads: seq<Reload>): multiset<TrapType> {
    if |reloads| == 0 then multiset{}
    else
      var last := reloads[|reloads| - 1];
      Doubled(reloads[..|reloads| - 1]) + (multiset(last.loaded) - multiset(last.waiting))
  }

  /** An update: the game time, whether the character is being teleported, whether a Teleport Trap
      can spring, and whether each waiting trap can when its turn comes. */
  datatype Tick = Tick(now: int, teleporting: bool, canTeleport: bool, can: TrapTurns)

  /** Whether the trap of a type can spring at a turn; springing one may change it for the next. */
  type TrapTurns = (nat, TrapType) -> bool

  datatype Pass = Pass(waiting: seq<TrapType>, sprung: seq<TrapType>, bombRun: bool)

  predicate SpringsNow(can: TrapTurns, bombRun: bool, turn: nat, t: TrapType) {
    can(turn, t) && !(t == Bombs && bombRun)
  }

  /** The pass over the waiting traps: one bomb run at a time. */
  function SpringPass(traps: seq<TrapType>, can: TrapTurns, bombRun: bool): Pass {
    if |traps| == 0 then Pass([], [], bombRun)
    else
      var n := |traps| - 1;
      var p := SpringPass(traps[..n], can, bombRun);
      if SpringsNow(can, p.bombRun, n, traps[n]) then
        Pass(p.waiting, p.sprung + [traps[n]], p.bombRun || traps[n] == Bombs)
      else p.(waiting := p.waiting + [traps[n]])
  }

  function FirstTeleport(traps: seq<TrapType>): (i: nat)
    ensures i <= |traps| && (i < |traps| ==> traps[i] == Teleport) && Teleport !in traps[..i]
  {
    if |traps| == 0 || traps[0] == Teleport then 0
    else
      var i := 1 + FirstTeleport(traps[1..]);
      assert traps[..i] == [traps[0]] + traps[1..][..i - 1];
      i
  }

  function SpringsAt(traps: seq<TrapType>, at: int): seq<Spring> {
    seq(|traps|, i requires 0 <= i < |traps| => Spring(traps[i], at))
  }

  function Max(a: nat, b: nat): nat { if a > b then a else b }

  /** A list too long for the column has the row refused, and the old one stays. */
  function Save(q: Queue): Queue {
    q.(largestSave := Max(q.largestSave, |q.pending|),
       column := if |TrapList.Print(q.pending)| <= TrapList.COLUMN_WIDTH then TrapList.Print(q.pending) else q.column)
  }

  function Receive(q: Queue, t: TrapType, canSpring: bool): Queue {
    var r := q.(pending := q.pending + [t], received := q.received + [t]);
    if canSpring then r else Save(r)
  }

  function SpringPending(q: Queue, tick: Tick): Queue {
    if |q.pending| == 0 || !q.ready then q
    else if tick.teleporting then q.(heldUntil := tick.now + TRAP_DELAY_AFTER_TELEPORT)
    else if tick.now < q.heldUntil then q
    else if FirstTeleport(q.pending) < |q.pending| && tick.canTeleport then SpringTeleport(q, tick.now)
    else
      var p := SpringPass(q.pending, tick.can, q.bombRun);
      var r := q.(sprung := q.sprung + SpringsAt(p.sprung, tick.now), bombRun := p.bombRun);
      if |p.waiting| != |q.pending| then Save(r.(pending := p.waiting)) else r
  }

  function SpringTeleport(q: Queue, now: int): Queue
    requires FirstTeleport(q.pending) < |q.pending|
  {
    var i := FirstTeleport(q.pending);
    Save(q.(pending := q.pending[..i] + q.pending[i + 1..])).(
      sprung := q.sprung + [Spring(Teleport, now)], heldUntil := now + TRAP_DELAY_AFTER_TELEPORT)
  }

  function EndBombRun(q: Queue): Queue {
    if q.bombRun then q.(bombRun := false, runsEnded := q.runsEnded + 1) else q
  }

  function Restarted(q: Queue, loaded: seq<TrapType>): Queue {
    Queue(q.column, loaded, 0, false, false, q.received, q.sprung, q.reloads + [Reload(q.pending, loaded)],
          q.largestSave, if q.bombRun then q.runsEnded + 1 else q.runsEnded)
  }

  /** A new session: the waiting traps are those of the column, and nothing else is remembered. */
  function Relog(q: Queue): Queue {
    var loaded := TrapList.Parse(q.column);
    if loaded.None? then q else Restarted(q, loaded.value)
  }

  // ----- As the queue is updated -----

  class TrapKeeper {
    var column: string
    var pendingTraps: seq<TrapType>
    var trapsHeldUntil: int
    var bombRun: bool
    var maxLevel: nat
    var sprung: seq<Spring>
    ghost var received: seq<TrapType>
    ghost var reloads: seq<Reload>
    ghost var largestSave: nat
    ghost var runsEnded: nat

    ghost function Abs(): Queue
      reads this
    {
      Queue(column, pendingTraps, trapsHeldUntil, bombRun, maxLevel != 0, received, sprung, reloads, largestSave,
        runsEnded)
    }

    constructor ()
      ensures Abs() == NEW_QUEUE
    {
      column, pendingTraps, trapsHeldUntil, bombRun, maxLevel, sprung := "", [], 0, false, 0, [];
      received, reloads, largestSave, runsEnded := [], [], 0, 0;
    }

    method SavePreferences()
      modifies this`column, this`largestSave
      ensures Abs() == Save(old(Abs()))
    {
      var traps := TrapList.PrintTraps(pendingTraps);
      largestSave := Max(largestSave, |pendingTraps|);
      if |traps| <= TrapList.COLUMN_WIDTH {
        column := traps;
      }
    }

    /** A new session loads what the column holds; a column that does not parse stops the login. */
    method LoadPreferences() returns (loaded: bool)
      modifies this
      ensures loaded == TrapList.Parse(old(column)).Some? && Abs() == Relog(old(Abs()))
    {
      hide TrapList.Parse, Restarted;
      var traps := TrapList.ParseTraps(column);
      if traps.None? {
        return false;
      }
      Restart(traps.value);
      return true;
    }

    /** The state of a login that waits on `traps`. */
    method Restart(traps: seq<TrapType>)
      modifies this
      ensures Abs() == Restarted(old(Abs()), traps)
    {
      reloads := reloads + [Reload(pendingTraps, traps)];
      runsEnded := if bombRun then runsEnded + 1 else runsEnded;
      pendingTraps, trapsHeldUntil, maxLevel, bombRun := traps, 0, 0, false;
    }

    method ReceiveTrap(t: TrapType, canSpring: bool)
      modifies this
      ensures Abs() == Receive(old(Abs()), t, canSpring)
    {
      pendingTraps := pendingTraps + [t];
      received := received + [t];
      if canSpring {
        return;
      }
      SavePreferences();
    }

    method SpringPendingTraps(tick: Tick)
      modifies this
      ensures Abs() == SpringPending(old(Abs()), tick)
    {
      hide SpringPass, SpringsAt, TrapList.Print;
      if |pendingTraps| == 0 || maxLevel == 0 {
        return;
      }
      if tick.teleporting {
        trapsHeldUntil := tick.now + TRAP_DELAY_AFTER_TELEPORT;
        return;
      }
      if tick.now < trapsHeldUntil {
        return;
      }
      var teleport := FirstTeleport(pendingTraps);
      if teleport < |pendingTraps| && tick.canTeleport {
        pendingTraps := pendingTraps[..teleport] + pendingTraps[teleport + 1..];
        SavePreferences();
        sprung := sprung + [Spring(Teleport, tick.now)];
        trapsHeldUntil := tick.now + TRAP_DELAY_AFTER_TELEPORT;
        return;
      }
      var waiting := SpringWaiting(tick);
      if |waiting| != |pendingTraps| {
        pendingTraps := waiting;
        SavePreferences();
      }
    }

    /** Springs what can, in order, and returns what cannot. */
    method SpringWaiting(tick: Tick) returns (waiting: seq<TrapType>)
      modifies this`sprung, this`bombRun
      ensures var p := SpringPass(pendingTraps, tick.can, old(bombRun));
              && waiting == p.waiting && bombRun == p.bombRun && sprung == old(sprung) + SpringsAt(p.sprung, tick.now)
    {
      waiting := [];
      ghost var p := Pass([], [], bombRun);
      assert sprung + SpringsAt(p.sprung, tick.now) == sprung;
      for i := 0 to |pendingTraps|
        invariant p == SpringPass(pendingTraps[..i], tick.can, old(bombRun))
        invariant waiting == p.waiting && bombRun == p.bombRun && sprung == old(sprung) + SpringsAt(p.sprung, tick.now)
      {
        var t := pendingTraps[i];
        assert pendingTraps[..i + 1][..i] == pendingTraps[..i];
        p := SpringPass(pendingTraps[..i + 1], tick.can, old(bombRun));
        if tick.can(i, t) && !(t == Bombs && bombRun) {
          sprung := sprung + [Spring(t, tick.now)];
          if t == Bombs {
            bombRun := true;
          }
        } else {
          waiting := waiting + [t];
        }
        assert sprung == old(sprung) + SpringsAt(p.sprung, tick.now);
      }
      assert pendingTraps[..|pendingTraps|] == pendingTraps;
    }
  }

  const NEW_QUEUE := Queue("", [], 0, false, false, [], [], [], 0, 0)

  // ----- Runs -----

  datatype Event =
    | Received(trap: TrapType, canSpring: bool)
    | Updated(tick: Tick)
    | SlotDataArrived
    | PreferencesSaved
    | BombRunOver
    | Relogged

  function Next(q: Queue, e: Event): Queue {
    match e
    case Received(t, canSpring) => Receive(q, t, canSpring)
    case Updated(tick) => SpringPending(q, tick)
    case SlotDataArrived => q.(ready := true)
    case PreferencesSaved => Save(q)
    case BombRunOver => EndBombRun(q)
    case Relogged => Relog(q)
  }

  function After(q: Queue, events: seq<Event>): Queue {
    if |events| == 0 then q else Next(After(q, events[..|events| - 1]), events[|events| - 1])
  }

  function Traps(springs: seq<Spring>): seq<TrapType> {
    seq(|springs|, i requires 0 <= i < |springs| => springs[i].trap)
  }

  /** Where each entry of `a` stands in `b`, in order. */
  ghost predicate Positions(f: seq<nat>, a: seq<TrapType>, b: seq<TrapType>) {
    && |f| == |a|
    && (forall i :: 0 <= i < |f| ==> f[i] < |b| && b[f[i]] == a[i])
    && (forall i, j :: 0 <= i < j < |f| ==> f[i] < f[j])
  }

  /** `a` is what is left of `b` with some entries dropped. */
  ghost predicate Subsequence(a: seq<TrapType>, b: seq<TrapType>) {
    exists f: seq<nat> :: Positions(f, a, b)
  }

  /** The traps of the column are the first of those that wait. */
  ghost predicate ColumnInv(q: Queue) {
    exists k: nat :: k <= |q.pending| && q.column == TrapList.Print(q.pending[..k])
  }

  /** The column is the print of some list that fits it. */
  ghost predicate ColumnPrinted(q: Queue) {
    exists l: seq<TrapType> :: IsColumn(q, l)
  }

  ghost predicate IsColumn(q: Queue, l: seq<TrapType>) {
    q.column == TrapList.Print(l) && |l| <= TrapList.TRAPS_THAT_FIT
  }

  ghost predicate Balanced(received: multiset<TrapType>, doubled: multiset<TrapType>, sprung: multiset<TrapType>,
                           pending: multiset<TrapType>, lost: multiset<TrapType>)
  {
    received + doubled == sprung + pending + lost
  }

  /** What holds whatever the database refuses: a trap that went off, waits or was lost was received,
      or came back with a session that no longer should have had it. */
  ghost predicate Accounts(q: Queue) {
    && Balanced(multiset(q.received), Doubled(q.reloads), multiset(Traps(q.sprung)), multiset(q.pending),
       Lost(q.reloads))
    && ColumnPrinted(q)
    && multiset(Traps(q.sprung))[Bombs] == q.runsEnded + (if q.bombRun then 1 else 0)
  }

  /** What holds while every save fits the column: nothing comes back, and the order is kept. */
  ghost predicate InStep(q: Queue) {
    q.largestSave <= TrapList.TRAPS_THAT_FIT ==>
      Doubled(q.reloads) == multiset{} && Subsequence(q.pending, q.received) && ColumnInv(q)
  }

  // ----- Each event keeps it -----

  lemma SubsequenceOf(a: seq<TrapType>, b: seq<TrapType>, c: seq<TrapType>)
    requires Subsequence(a, b) && Subsequence(b, c)
    ensures Subsequence(a, c)
  {
    var f: seq<nat> :| Positions(f, a, b);
    var g: seq<nat> :| Positions(g, b, c);
    var h := seq(|f|, i requires 0 <= i < |f| => g[f[i]]);
    assert Positions(h, a, c);
  }

  lemma SubsequenceSame(a: seq<TrapType>)
    ensures Subsequence(a, a)
  {
    assert Positions(seq(|a|, i => i), a, a);
  }

  lemma SubsequenceAppend(a: seq<TrapType>, b: seq<TrapType>, t: TrapType)
    requires Subsequence(a, b)
    ensures Subsequence(a, b + [t]) && Subsequence(a + [t], b + [t])
  {
    var f: seq<nat> :| Positions(f, a, b);
    assert Positions(f, a, b + [t]);
    assert Positions(f + [|b|], a + [t], b + [t]);
  }

  lemma SubsequencePrefix(a: seq<TrapType>, k: nat)
    requires k <= |a|
    ensures Subsequence(a[..k], a)
  {
    assert Positions(seq(k, i => i), a[..k], a);
  }

  lemma SubsequenceWithout(a: seq<TrapType>, k: nat)
    requires k < |a|
    ensures Subsequence(a[..k] + a[k + 1..], a)
    ensures multiset(a) == multiset(a[..k] + a[k + 1..]) + multiset{a[k]}
  {
    assert Positions(seq(|a| - 1, i => if i < k then i else i + 1), a[..k] + a[k + 1..], a);
    assert a == a[..k] + [a[k]] + a[k + 1..];
  }

  lemma TrapsAppend(springs: seq<Spring>, traps: seq<TrapType>, at: int)
    ensures Traps(springs + SpringsAt(traps, at)) == Traps(springs) + traps
  {
  }

  lemma Together(a: seq<TrapType>, b: seq<TrapType>)
    ensures multiset(a + b) == multiset(a) + multiset(b)
  {
  }

  lemma OneMore(traps: seq<TrapType>, t: TrapType)
    ensures multiset(traps + [t]) == multiset(traps) + multiset{t}
  {
  }

  lemma {:induction false} PassConserves(traps: seq<TrapType>, can: TrapTurns, bombRun: bool)
    ensures var p := SpringPass(traps, can, bombRun);
            && multiset(traps) == multiset(p.waiting) + multiset(p.sprung)
            && |p.waiting| + |p.sprung| == |traps|
  {
    hide SpringsNow;
    if |traps| > 0 {
      var n := |traps| - 1;
      var p := SpringPass(traps[..n], can, bombRun);
      PassConserves(traps[..n], can, bombRun);
      OneMore(traps[..n], traps[n]);
      OneMore(p.waiting, traps[n]);
      OneMore(p.sprung, traps[n]);
      assert traps == traps[..n] + [traps[n]];
    }
  }

  lemma {:induction false} PassInOrder(traps: seq<TrapType>, can: TrapTurns, bombRun: bool)
    ensures Subsequence(SpringPass(traps, can, bombRun).waiting, traps)
  {
    hide Subsequence, SpringsNow;
    if |traps| == 0 {
      SubsequenceSame(traps);
    } else {
      var n := |traps| - 1;
      PassInOrder(traps[..n], can, bombRun);
      SubsequenceAppend(SpringPass(traps[..n], can, bombRun).waiting, traps[..n], traps[n]);
      assert traps == traps[..n] + [traps[n]];
    }
  }

  /** Bombs start at most one run in a pass, and none while one is on. */
  lemma {:induction false} PassBombs(traps: seq<TrapType>, can: TrapTurns, bombRun: bool)
    ensures var p := SpringPass(traps, can, bombRun);
            multiset(p.sprung)[Bombs] + (if bombRun then 1 else 0) == (if p.bombRun then 1 else 0)
  {
    if |traps| > 0 {
      var n := |traps| - 1;
      var p := SpringPass(traps[..n], can, bombRun);
      PassBombs(traps[..n], can, bombRun);
      OneMore(p.sprung, traps[n]);
    }
  }

  lemma {:induction false} PassIdle(traps: seq<TrapType>, can: TrapTurns, bombRun: bool)
    requires SpringPass(traps, can, bombRun).sprung == []
    ensures SpringPass(traps, can, bombRun).waiting == traps
  {
    hide SpringsNow;
    if |traps| > 0 {
      PassIdle(traps[..|traps| - 1], can, bombRun);
      assert traps == traps[..|traps| - 1] + [traps[|traps| - 1]];
    }
  }

  lemma SaveKeeps(q: Queue)
    ensures ColumnPrinted(q) ==> ColumnPrinted(Save(q))
    ensures Save(q).largestSave <= TrapList.TRAPS_THAT_FIT ==> ColumnInv(Save(q))
  {
    hide TrapList.Print;
    TrapList.FitsColumnIff(q.pending);
    var r := Save(q);
    assert q.pending[..|q.pending|] == q.pending;
    if |q.pending| <= TrapList.TRAPS_THAT_FIT {
      assert IsColumn(r, q.pending);
      assert r.column == TrapList.Print(r.pending[..|q.pending|]);
    } else if ColumnPrinted(q) {
      var l: seq<TrapType> :| IsColumn(q, l);
      assert IsColumn(r, l);
    }
  }

  lemma ColumnOnly(q: Queue, r: Queue)
    requires q.column == r.column
    ensures ColumnPrinted(q) ==> ColumnPrinted(r)
    ensures ColumnInv(q) && q.pending <= r.pending ==> ColumnInv(r)
  {
    hide TrapList.Print;
    if ColumnPrinted(q) {
      var l: seq<TrapType> :| IsColumn(q, l);
      assert IsColumn(r, l);
    }
    if ColumnInv(q) && q.pending <= r.pending {
      var k: nat :| k <= |q.pending| && q.column == TrapList.Print(q.pending[..k]);
      assert r.pending[..k] == q.pending[..k];
    }
  }

  lemma OneMoreWaits(received: multiset<TrapType>, doubled: multiset<TrapType>, sprung: multiset<TrapType>,
                     p: multiset<TrapType>, lost: multiset<TrapType>, t: TrapType)
    requires Balanced(received, doubled, sprung, p, lost)
    ensures Balanced(received + multiset{t}, doubled, sprung, p + multiset{t}, lost)
  {
    assert received + multiset{t} + doubled == received + doubled + multiset{t};
  }

  lemma ReceiveKeeps(q: Queue, t: TrapType, canSpring: bool)
    requires Accounts(q) && InStep(q)
    ensures Accounts(Receive(q, t, canSpring)) && InStep(Receive(q, t, canSpring))
  {
    hide Subsequence, ColumnInv, ColumnPrinted, TrapList.Print, Balanced, Doubled, Lost;
    var r := q.(pending := q.pending + [t], received := q.received + [t]);
    OneMore(q.pending, t);
    OneMore(q.received, t);
    OneMoreWaits(multiset(q.received), Doubled(q.reloads), multiset(Traps(q.sprung)), multiset(q.pending),
      Lost(q.reloads), t);
    if Subsequence(q.pending, q.received) {
      SubsequenceAppend(q.pending, q.received, t);
    }
    ColumnOnly(q, r);
    SaveKeeps(r);
  }

  lemma SomeSprung(received: multiset<TrapType>, doubled: multiset<TrapType>, sprung: multiset<TrapType>,
                   p: multiset<TrapType>, lost: multiset<TrapType>, left: multiset<TrapType>, off: multiset<TrapType>)
    requires Balanced(received, doubled, sprung, p, lost) && p == left + off
    ensures Balanced(received, doubled, sprung + off, left, lost)
  {
    assert sprung + (left + off) == sprung + off + left;
  }

  /** What an update is left with that springs a Teleport. */
  lemma TeleportLeaves(q: Queue, now: int) returns (left: seq<TrapType>)
    requires FirstTeleport(q.pending) < |q.pending|
    ensures Subsequence(left, q.pending) && multiset(q.pending) == multiset(left) + multiset{Teleport}
    ensures SpringTeleport(q, now) ==
            Save(q.(pending := left)).(sprung := q.sprung + [Spring(Teleport, now)],
              heldUntil := now + TRAP_DELAY_AFTER_TELEPORT)
  {
    hide Subsequence, Save;
    var i := FirstTeleport(q.pending);
    left := q.pending[..i] + q.pending[i + 1..];
    SubsequenceWithout(q.pending, i);
  }

  lemma TeleportKeeps(q: Queue, now: int)
    requires Accounts(q) && InStep(q) && FirstTeleport(q.pending) < |q.pending|
    ensures Accounts(SpringTeleport(q, now)) && InStep(SpringTeleport(q, now))
  {
    hide Subsequence, ColumnInv, ColumnPrinted, FirstTeleport, SpringTeleport, TrapList.Print, Balanced, Doubled, Lost,
      Traps, SpringsAt;
    var left := TeleportLeaves(q, now);
    SomeSprung(multiset(q.received), Doubled(q.reloads), multiset(Traps(q.sprung)), multiset(q.pending),
               Lost(q.reloads), multiset(left), multiset{Teleport});
    OneMore(Traps(q.sprung), Teleport);
    OneSpring(q.sprung, now);
    if Subsequence(q.pending, q.received) {
      SubsequenceOf(left, q.pending, q.received);
    }
    var r := q.(pending := left);
    ColumnOnly(q, r);
    SaveKeeps(r);
    ColumnOnly(Save(r), SpringTeleport(q, now));
  }

  lemma OneSpring(springs: seq<Spring>, now: int)
    ensures Traps(springs + [Spring(Teleport, now)]) == Traps(springs) + [Teleport]
  {
  }

  /** What an update is left with that makes its pass. */
  lemma PassLeaves(q: Queue, tick: Tick)
    requires |q.pending| > 0 && q.ready && !tick.teleporting && tick.now >= q.heldUntil
    requires FirstTeleport(q.pending) == |q.pending| || !tick.canTeleport
    ensures var p := SpringPass(q.pending, tick.can, q.bombRun);
            var r := q.(pending := p.waiting, sprung := q.sprung + SpringsAt(p.sprung, tick.now), bombRun := p.bombRun);
            SpringPending(q, tick) == if p.sprung == [] then r else Save(r)
  {
    hide SpringPass, FirstTeleport, Save;
    PassConserves(q.pending, tick.can, q.bombRun);
    if SpringPass(q.pending, tick.can, q.bombRun).sprung == [] {
      PassIdle(q.pending, tick.can, q.bombRun);
    }
  }

  lemma PassQueueKeeps(q: Queue, tick: Tick)
    requires Accounts(q) && InStep(q) && |q.pending| > 0 && q.ready && !tick.teleporting && tick.now >= q.heldUntil
    requires FirstTeleport(q.pending) == |q.pending| || !tick.canTeleport
    ensures Accounts(SpringPending(q, tick)) && InStep(SpringPending(q, tick))
  {
    hide Subsequence, ColumnInv, ColumnPrinted, FirstTeleport, SpringPass, SpringPending, TrapList.Print, Balanced,
      Doubled, Lost;
    var p := SpringPass(q.pending, tick.can, q.bombRun);
    PassLeaves(q, tick);
    PassConserves(q.pending, tick.can, q.bombRun);
    SomeSprung(multiset(q.received), Doubled(q.reloads), multiset(Traps(q.sprung)), multiset(q.pending),
               Lost(q.reloads), multiset(p.waiting), multiset(p.sprung));
    Together(Traps(q.sprung), p.sprung);
    PassBombs(q.pending, tick.can, q.bombRun);
    TrapsAppend(q.sprung, p.sprung, tick.now);
    var r := q.(pending := p.waiting, sprung := q.sprung + SpringsAt(p.sprung, tick.now), bombRun := p.bombRun);
    if p.sprung == [] {
      PassIdle(q.pending, tick.can, q.bombRun);
    }
    ColumnOnly(q, r);
    SaveKeeps(r);
    PassInOrder(q.pending, tick.can, q.bombRun);
    if Subsequence(q.pending, q.received) {
      SubsequenceOf(p.waiting, q.pending, q.received);
    }
  }

  /** Whatever was refused, the column loads: as a list that fits, and as the first traps that wait if
      it holds those. */
  lemma ColumnLoads(q: Queue) returns (loaded: seq<TrapType>)
    requires ColumnPrinted(q)
    ensures TrapList.Parse(q.column) == Some(loaded) && IsColumn(q, loaded)
    ensures ColumnInv(q) ==> loaded <= q.pending
  {
    hide TrapList.Print, TrapList.Parse;
    loaded :| IsColumn(q, loaded);
    TrapList.RoundTrip(loaded);
    if ColumnInv(q) {
      var k: nat :| k <= |q.pending| && q.column == TrapList.Print(q.pending[..k]);
      TrapList.RoundTrip(q.pending[..k]);
    }
  }

  /** Loading `l` where `p` waits: what comes too many and what goes missing make up the difference. */
  lemma Reloaded(received: multiset<TrapType>, doubled: multiset<TrapType>, sprung: multiset<TrapType>,
                 p: multiset<TrapType>, lost: multiset<TrapType>, l: multiset<TrapType>)
    requires Balanced(received, doubled, sprung, p, lost)
    ensures Balanced(received, doubled + (l - p), sprung, l, lost + (p - l))
  {
    forall t: TrapType ensures (received + (doubled + (l - p)))[t] == (sprung + l + (lost + (p - l)))[t] {
      assert (received + doubled)[t] == (sprung + p + lost)[t];
    }
  }

  lemma ReloadAppend(reloads: seq<Reload>, r: Reload)
    ensures Lost(reloads + [r]) == Lost(reloads) + (multiset(r.waiting) - multiset(r.loaded))
    ensures Doubled(reloads + [r]) == Doubled(reloads) + (multiset(r.loaded) - multiset(r.waiting))
  {
    assert (reloads + [r])[..|reloads|] == reloads;
  }

  lemma RelogAccounts(q: Queue, loaded: seq<TrapType>)
    requires Accounts(q) && TrapList.Parse(q.column) == Some(loaded) && IsColumn(q, loaded)
    ensures Accounts(Relog(q)) && Relog(q).largestSave == q.largestSave
  {
    hide TrapList.Parse, TrapList.Print, Balanced, Lost, Doubled;
    ReloadAppend(q.reloads, Reload(q.pending, loaded));
    Reloaded(multiset(q.received), Doubled(q.reloads), multiset(Traps(q.sprung)), multiset(q.pending), Lost(q.reloads),
      multiset(loaded));
    assert IsColumn(Relog(q), loaded);
  }

  lemma RelogInStep(q: Queue, loaded: seq<TrapType>)
    requires InStep(q) && q.largestSave <= TrapList.TRAPS_THAT_FIT && loaded <= q.pending
    requires TrapList.Parse(q.column) == Some(loaded) && IsColumn(q, loaded)
    ensures InStep(Relog(q))
  {
    hide Subsequence, ColumnInv, TrapList.Parse, TrapList.Print, Doubled;
    SubsequencePrefix(q.pending, |loaded|);
    assert q.pending[..|loaded|] == loaded;
    SubsequenceOf(loaded, q.pending, q.received);
    assert q.pending == loaded + q.pending[|loaded|..];
    ReloadAppend(q.reloads, Reload(q.pending, loaded));
    assert multiset(loaded) - multiset(q.pending) == multiset{};
    ColumnWhole(Relog(q));
  }

  lemma RelogKeeps(q: Queue)
    requires Accounts(q) && InStep(q)
    ensures Accounts(Relog(q)) && InStep(Relog(q))
  {
    hide Subsequence, ColumnInv, TrapList.Parse, TrapList.Print, Balanced, Doubled, Lost, Relog, ColumnPrinted;
    var loaded := ColumnLoads(q);
    RelogAccounts(q, loaded);
    if q.largestSave <= TrapList.TRAPS_THAT_FIT {
      RelogInStep(q, loaded);
    }
  }

  lemma ColumnWhole(q: Queue)
    requires q.column == TrapList.Print(q.pending)
    ensures ColumnInv(q)
  {
    hide TrapList.Print;
    assert q.pending[..|q.pending|] == q.pending;
  }

  lemma NextKeeps(q: Queue, e: Event)
    requires Accounts(q) && InStep(q)
    ensures Accounts(Next(q, e)) && InStep(Next(q, e))
  {
    hide Subsequence, ColumnInv, ColumnPrinted, FirstTeleport, SpringPass, SpringTeleport, Relog, Receive,
      TrapList.Print, Balanced, Doubled, Lost;
    match e {
      case Received(t, canSpring) => ReceiveKeeps(q, t, canSpring);
      case Updated(tick) =>
        if |q.pending| > 0 && q.ready && !tick.teleporting && tick.now >= q.heldUntil {
          if FirstTeleport(q.pending) < |q.pending| && tick.canTeleport {
            TeleportKeeps(q, tick.now);
          } else {
            PassQueueKeeps(q, tick);
          }
        } else {
          ColumnOnly(q, SpringPending(q, tick));
        }
      case PreferencesSaved => SaveKeeps(q);
      case Relogged => RelogKeeps(q);
      case _ => ColumnOnly(q, Next(q, e));
    }
  }

  lemma {:induction false} RunKeeps(events: seq<Event>)
    ensures Accounts(After(NEW_QUEUE, events)) && InStep(After(NEW_QUEUE, events))
    decreases |events|
  {
    hide Accounts, InStep, Next;
    if |events| == 0 {
      NewKeeps();
    } else {
      RunKeeps(events[..|events| - 1]);
      NextKeeps(After(NEW_QUEUE, events[..|events| - 1]), events[|events| - 1]);
    }
  }

  lemma NewKeeps()
    ensures Accounts(NEW_QUEUE) && InStep(NEW_QUEUE)
  {
    SubsequenceSame([]);
    assert NEW_QUEUE.pending[..0] == [];
    assert IsColumn(NEW_QUEUE, []);
  }

  /** Every trap the character was sent went off, still waits, or was lost with a session, whatever the
      database refused, but for those a session loaded a second time; and of the bombs that went off at
      most one run is on. */
  lemma TrapsAccountedFor(events: seq<Event>)
    ensures var q := After(NEW_QUEUE, events);
            && multiset(q.received) + Doubled(q.reloads)
               == multiset(Traps(q.sprung)) + multiset(q.pending) + Lost(q.reloads)
            && multiset(Traps(q.sprung))[Bombs] == q.runsEnded + (if q.bombRun then 1 else 0)
            && TrapList.Parse(q.column).Some?
  {
    hide After, TrapList.Parse, ColumnPrinted, InStep;
    RunKeeps(events);
    var loaded := ColumnLoads(After(NEW_QUEUE, events));
  }

  /** While no save is asked to hold more than 128 traps none is loaded twice, those waiting keep the
      order they came in, and the column holds the first of them. */
  lemma FittingSavesKeepStep(events: seq<Event>)
    requires After(NEW_QUEUE, events).largestSave <= TrapList.TRAPS_THAT_FIT
    ensures var q := After(NEW_QUEUE, events);
            && Doubled(q.reloads) == multiset{} && Subsequence(q.pending, q.received)
            && exists k: nat :: k <= |q.pending| && q.column == TrapList.Print(q.pending[..k])
  {
    hide After, Subsequence, Accounts;
    RunKeeps(events);
  }

  lemma AfterMore(q: Queue, events: seq<Event>, e: Event)
    ensures After(q, events + [e]) == Next(After(q, events), e)
  {
    assert (events + [e])[..|events|] == events;
  }

  function Flock(n: nat): seq<TrapType> {
    seq(n, _ => Sheep)
  }

  function OnlyDazedAt(now: int, teleporting: bool): Tick {
    Tick(now, teleporting, false, (turn, t) => t == Dazed)
  }

  /** A Dazed trap that has to wait, a teleport that an update sees, and sheep that come while it holds
      the traps. */
  function Arrivals(n: nat): seq<Event> {
    Opening() + seq(n, _ => Received(Sheep, true))
  }

  function Opening(): seq<Event> {
    [SlotDataArrived, Received(Dazed, false), Updated(OnlyDazedAt(0, true))]
  }

  /** A held queue of a Dazed trap and `n` sheep, as saved with the first of them alone. */
  function FlockQueue(n: nat): Queue {
    NEW_QUEUE.(column := TrapList.Print([Dazed]), pending := [Dazed] + Flock(n), received := [Dazed] + Flock(n),
               largestSave := 1, ready := true, heldUntil := TRAP_DELAY_AFTER_TELEPORT)
  }

  lemma DazedWaits()
    ensures After(NEW_QUEUE, Opening()) == FlockQueue(0)
  {
    hide TrapList.Print, After, Next, FlockQueue;
    var ready, waits := [SlotDataArrived], [SlotDataArrived, Received(Dazed, false)];
    AfterNothing(NEW_QUEUE);
    assert [] + [SlotDataArrived] == ready && ready + [Received(Dazed, false)] == waits;
    assert waits + [Updated(OnlyDazedAt(0, true))] == Opening();
    AfterMore(NEW_QUEUE, [], SlotDataArrived);
    AfterMore(NEW_QUEUE, ready, Received(Dazed, false));
    AfterMore(NEW_QUEUE, waits, Updated(OnlyDazedAt(0, true)));
    OpeningSteps();
  }

  lemma OpeningSteps()
    ensures Next(NEW_QUEUE, SlotDataArrived) == NEW_QUEUE.(ready := true)
    ensures Next(NEW_QUEUE.(ready := true), Received(Dazed, false)) == FlockQueue(0).(heldUntil := 0)
    ensures Next(FlockQueue(0).(heldUntil := 0), Updated(OnlyDazedAt(0, true))) == FlockQueue(0)
  {
    hide TrapList.Print;
    TrapList.FitsColumnIff([Dazed]);
    assert [] + [Dazed] == [Dazed] + Flock(0) == [Dazed];
  }

  lemma SheepWaits(n: nat)
    ensures Receive(FlockQueue(n), Sheep, true) == FlockQueue(n + 1)
  {
    hide TrapList.Print;
    assert [Dazed] + Flock(n) + [Sheep] == [Dazed] + Flock(n + 1);
  }

  lemma {:induction false} Arrived(n: nat)
    ensures After(NEW_QUEUE, Arrivals(n)) == FlockQueue(n)
  {
    hide Receive, FlockQueue, After, Opening;
    if n == 0 {
      assert Arrivals(0) == Opening();
      DazedWaits();
    } else {
      Arrived(n - 1);
      AfterMore(NEW_QUEUE, Arrivals(n - 1), Received(Sheep, true));
      assert Arrivals(n) == Arrivals(n - 1) + [Received(Sheep, true)];
      SheepWaits(n - 1);
    }
  }

  lemma AfterNothing(q: Queue)
    ensures After(q, []) == q
  {
  }

  lemma {:induction false} OnlyDazed(can: TrapTurns, n: nat)
    requires forall turn, t :: can(turn, t) <==> t == Dazed
    ensures SpringPass([Dazed] + Flock(n), can, false) == Pass(Flock(n), [Dazed], false)
  {
    var all := [Dazed] + Flock(n);
    if n == 0 {
      assert all == [Dazed] && all[..0] == [];
      assert SpringPass(all[..0], can, false) == Pass([], [], false);
    } else {
      OnlyDazed(can, n - 1);
      assert all[..n] == [Dazed] + Flock(n - 1);
      assert Flock(n - 1) + [Sheep] == Flock(n);
    }
  }

  lemma DazedGoesOff(n: nat)
    requires n > TrapList.TRAPS_THAT_FIT
    ensures SpringPending(FlockQueue(n), OnlyDazedAt(TRAP_DELAY_AFTER_TELEPORT, false)) ==
            FlockQueue(n).(pending := Flock(n), sprung := [Spring(Dazed, TRAP_DELAY_AFTER_TELEPORT)], largestSave := n)
  {
    hide TrapList.Print, SpringPass;
    var q, tick := FlockQueue(n), OnlyDazedAt(TRAP_DELAY_AFTER_TELEPORT, false);
    OnlyDazed(tick.can, n);
    TrapList.FitsColumnIff(Flock(n));
    assert q.sprung + SpringsAt([Dazed], tick.now) == [Spring(Dazed, tick.now)];
  }

  /** A trap that goes off while more than the column holds wait, and is back in the next session. */
  lemma ComesBack() returns (events: seq<Event>)
    ensures events == Arrivals(129) + [Updated(OnlyDazedAt(TRAP_DELAY_AFTER_TELEPORT, false))] + [Relogged]
    ensures var q := After(NEW_QUEUE, events);
            && q.largestSave == TrapList.TRAPS_THAT_FIT + 1 && q.received == [Dazed] + Flock(129)
            && Traps(q.sprung) == [Dazed] && q.pending == [Dazed] && Doubled(q.reloads) == multiset{Dazed}
  {
    hide TrapList.Print, TrapList.Parse, SpringPending, After, Doubled;
    var n := TrapList.TRAPS_THAT_FIT + 1;
    var off := Updated(OnlyDazedAt(TRAP_DELAY_AFTER_TELEPORT, false));
    Arrived(n);
    AfterMore(NEW_QUEUE, Arrivals(n), off);
    DazedGoesOff(n);
    events := Arrivals(n) + [off] + [Relogged];
    AfterMore(NEW_QUEUE, Arrivals(n) + [off], Relogged);
    TrapList.RoundTrip([Dazed]);
    DazedBack(n);
    assert [] + [Reload(Flock(n), [Dazed])] == [Reload(Flock(n), [Dazed])];
  }

  lemma DazedBack(n: nat)
    ensures Doubled([Reload(Flock(n), [Dazed])]) == multiset{Dazed}
  {
    var one := [Reload(Flock(n), [Dazed])];
    assert one[..0] == [];
    assert Dazed !in Flock(n);
    assert multiset([Dazed]) - multiset(Flock(n)) == multiset{Dazed};
  }

  /** No session ever loads a trap that should not be waiting, in any run whose saves hold at most
      `limit` traps, exactly when the column holds as many. */
  lemma NothingComesBackIff(limit: nat)
    ensures (forall events: seq<Event> ::
               After(NEW_QUEUE, events).largestSave <= limit ==>
                 Doubled(After(NEW_QUEUE, events).reloads) == multiset{})
            <==> limit <= TrapList.TRAPS_THAT_FIT
  {
    hide After, Doubled;
    if limit <= TrapList.TRAPS_THAT_FIT {
      forall events: seq<Event> | After(NEW_QUEUE, events).largestSave <= limit
        ensures Doubled(After(NEW_QUEUE, events).reloads) == multiset{}
      {
        FittingSavesKeepStep(events);
      }
    } else {
      var events := ComesBack();
      assert Doubled(After(NEW_QUEUE, events).reloads)[Dazed] == 1;
    }
  }

  // ----- Within a session -----

  /** What a session that began with `q` owes: nothing lost or loaded, and those waiting are what is
      left of what waited then and what came since, in that order. */
  ghost predicate SessionSince(q: Queue, r: Queue) {
    && q.received <= r.received && q.sprung <= r.sprung && r.reloads == q.reloads
    && Subsequence(r.pending, q.pending + r.received[|q.received|..])
  }

  lemma NextInSession(q: Queue, e: Event)
    requires !e.Relogged?
    ensures SessionSince(q, Next(q, e))
  {
    hide Subsequence, FirstTeleport, SpringPass, SpringTeleport, TrapList.Print;
    SubsequenceSame(q.pending);
    assert q.received[|q.received|..] == [] && q.pending + [] == q.pending;
    match e {
      case Received(t, _) =>
        SubsequenceSame(q.pending + [t]);
        assert (q.received + [t])[|q.received|..] == [t];
      case Updated(tick) => UpdateInSession(q, tick);
      case _ =>
    }
  }

  lemma UpdateInSession(q: Queue, tick: Tick)
    ensures var r := SpringPending(q, tick);
            && r.received == q.received && q.sprung <= r.sprung && r.reloads == q.reloads
            && Subsequence(r.pending, q.pending)
  {
    hide Subsequence, FirstTeleport, SpringPass, TrapList.Print;
    SubsequenceSame(q.pending);
    PassInOrder(q.pending, tick.can, q.bombRun);
    if FirstTeleport(q.pending) < |q.pending| {
      SubsequenceWithout(q.pending, FirstTeleport(q.pending));
    }
  }

  lemma SessionTransitive(q: Queue, r: Queue, s: Queue)
    requires SessionSince(q, r) && SessionSince(r, s)
    ensures SessionSince(q, s)
  {
    hide Subsequence;
    var since, more := r.received[|q.received|..], s.received[|r.received|..];
    assert s.received[|q.received|..] == since + more;
    SubsequenceMore(r.pending, q.pending + since, more);
    SubsequenceOf(s.pending, r.pending + more, q.pending + since + more);
    assert q.pending + since + more == q.pending + (since + more);
  }

  lemma {:induction false} SubsequenceMore(a: seq<TrapType>, b: seq<TrapType>, more: seq<TrapType>)
    requires Subsequence(a, b)
    ensures Subsequence(a + more, b + more)
    decreases |more|
  {
    hide Subsequence;
    if |more| == 0 {
      assert a + more == a && b + more == b;
    } else {
      var n := |more| - 1;
      SubsequenceMore(a, b, more[..n]);
      SubsequenceAppend(a + more[..n], b + more[..n], more[n]);
      assert a + more == a + more[..n] + [more[n]] && b + more == b + more[..n] + [more[n]];
    }
  }

  /** Within a session, from any queue and whatever is refused: nothing is lost, nothing comes back,
      and those waiting keep their order. */
  lemma {:induction false} SessionKeepsAll(q: Queue, events: seq<Event>)
    requires forall e :: e in events ==> !e.Relogged?
    ensures SessionSince(q, After(q, events))
    decreases |events|
  {
    hide Next, SessionSince;
    if |events| == 0 {
      SessionStarts(q);
    } else {
      var before := After(q, events[..|events| - 1]);
      SessionKeepsAll(q, events[..|events| - 1]);
      NextInSession(before, events[|events| - 1]);
      SessionTransitive(q, before, Next(before, events[|events| - 1]));
    }
  }

  lemma SessionStarts(q: Queue)
    ensures SessionSince(q, q)
  {
    SubsequenceSame(q.pending);
    assert q.received[|q.received|..] == [] && q.pending + [] == q.pending;
  }

  // ----- Teleports -----

  /** A Teleport Trap that can spring goes off first, alone, and the earliest of its kind; and no other
      trap goes off with one as long as a Teleport that could not spring stays unable. */
  lemma TeleportFirstAndAlone(q: Queue, tick: Tick)
    requires !tick.canTeleport ==> forall turn :: !tick.can(turn, Teleport)
    ensures var r := SpringPending(q, tick);
            var springs := r.sprung[|q.sprung|..];
            && q.sprung <= r.sprung
            && (Teleport in Traps(springs) ==> springs == [Spring(Teleport, tick.now)])
            && (springs != [] && Teleport in q.pending && tick.canTeleport ==> springs == [Spring(Teleport, tick.now)])
  {
    hide FirstTeleport;
    FirstTeleportFinds(q.pending);
    if !tick.canTeleport || Teleport !in q.pending {
      PassTeleports(q.pending, tick.can, q.bombRun);
      var p := SpringPass(q.pending, tick.can, q.bombRun);
      TrapsAppend([], p.sprung, tick.now);
      assert [] + SpringsAt(p.sprung, tick.now) == SpringsAt(p.sprung, tick.now);
    }
  }

  lemma FirstTeleportFinds(traps: seq<TrapType>)
    ensures FirstTeleport(traps) < |traps| <==> Teleport in traps
  {
    var i := FirstTeleport(traps);
    if i == |traps| {
      assert traps[..i] == traps;
    }
  }

  lemma {:induction false} PassTeleports(traps: seq<TrapType>, can: TrapTurns, bombRun: bool)
    requires Teleport !in traps || forall turn :: !can(turn, Teleport)
    ensures Teleport !in SpringPass(traps, can, bombRun).sprung
  {
    if |traps| > 0 {
      PassTeleports(traps[..|traps| - 1], can, bombRun);
    }
  }

  /** Events of one session whose updates come from `now` on and before the hold of a teleport at `now` ends. */
  ghost predicate DuringHold(events: seq<Event>, now: int) {
    forall e :: e in events ==> !e.Relogged? && (e.Updated? ==> now <= e.tick.now < now + TRAP_DELAY_AFTER_TELEPORT)
  }

  /** Nothing springs while a teleport at `now` holds the traps, whatever else the session brings. */
  ghost predicate Holds(q: Queue, now: int) {
    forall events :: DuringHold(events, now) ==> After(q, events).sprung == q.sprung
  }

  lemma NextHeld(q: Queue, e: Event, now: int)
    requires q.heldUntil >= now + TRAP_DELAY_AFTER_TELEPORT && DuringHold([e], now)
    ensures Next(q, e).sprung == q.sprung && Next(q, e).heldUntil >= now + TRAP_DELAY_AFTER_TELEPORT
  {
    hide SpringPass, FirstTeleport;
    assert e in [e];
  }

  lemma {:induction false} HeldThroughout(q: Queue, events: seq<Event>, now: int)
    requires q.heldUntil >= now + TRAP_DELAY_AFTER_TELEPORT && DuringHold(events, now)
    ensures After(q, events).sprung == q.sprung && After(q, events).heldUntil >= now + TRAP_DELAY_AFTER_TELEPORT
    decreases |events|
  {
    hide Next;
    if |events| > 0 {
      HeldThroughout(q, events[..|events| - 1], now);
      NextHeld(After(q, events[..|events| - 1]), events[|events| - 1], now);
    }
  }

  /** An update that sees the character teleporting holds every trap for the delay exactly when a trap
      was already waiting for it (or an earlier hold lasts as long). With nothing waiting the teleport
      goes unseen, and a trap received on arrival may spring at once. */
  lemma TeleportHoldsIff(q: Queue, tick: Tick)
    requires tick.teleporting
    ensures Holds(SpringPending(q, tick), tick.now)
       <==> (|q.pending| > 0 && q.ready) || q.heldUntil >= tick.now + TRAP_DELAY_AFTER_TELEPORT
  {
    hide SpringPass, FirstTeleport;
    var r := SpringPending(q, tick);
    if (|q.pending| > 0 && q.ready) || q.heldUntil >= tick.now + TRAP_DELAY_AFTER_TELEPORT {
      forall events | DuringHold(events, tick.now) ensures After(r, events).sprung == r.sprung {
        HeldThroughout(r, events, tick.now);
      }
    } else {
      var events := SpringsEarly(q, tick.now);
    }
  }

  /** A trap that springs within the delay of a teleport no trap was waiting for. */
  lemma SpringsEarly(q: Queue, now: int) returns (events: seq<Event>)
    requires q.heldUntil < now + TRAP_DELAY_AFTER_TELEPORT
    ensures DuringHold(events, now) && After(q, events).sprung != q.sprung
  {
    hide SpringPass;
    var at := if q.heldUntil > now then q.heldUntil else now;
    var tick := Tick(at, false, false, (turn, t) => t == Dazed);
    events := [SlotDataArrived, Received(Dazed, true), Updated(tick)];
    var q1 := q.(ready := true);
    var q2 := Receive(q1, Dazed, true);
    assert events[..0] == [] && events[..1] == [SlotDataArrived]
      && events[..2] == [SlotDataArrived, Received(Dazed, true)];
    assert events[..1][..0] == [] && events[..2][..1] == [SlotDataArrived];
    assert After(q, events[..1]) == q1;
    assert After(q, events[..2]) == q2;
    LastSprings(q.pending, tick.can, q.bombRun);
    assert After(q, events) == SpringPending(q2, tick);
  }

  lemma LastSprings(traps: seq<TrapType>, can: TrapTurns, bombRun: bool)
    requires can(|traps|, Dazed)
    ensures |SpringPass(traps + [Dazed], can, bombRun).sprung| > 0
  {
    assert (traps + [Dazed])[..|traps|] == traps;
  }
}
