/** A Bombs Trap going off: when bombs drop, are marked and explode. */
module BombRun {

  const BOMBS_PER_TRAP := 40
  const BOMB_FUSE := 2000
  const BOMB_INTERVAL := 250
  const BOMB_MARKER_DELAY := 600
  const BOMB_AIMED_EVERY := 3

  /** `number` tells the bombs of a run apart, in the order they dropped. */
  datatype FallingBomb = FallingBomb(number: nat, markedAt: int, marked: bool, explodesAt: int)

  /** A run and its history: the bombs that exploded, in order, how many drops were tried and aimed. */
  datatype Run = Run(bombsLeft: nat, nextDrop: int, bombs: seq<FallingBomb>,
                     exploded: seq<FallingBomb>, dropped: nat, aimed: nat)

  function StartRun(now: int): Run {
    Run(BOMBS_PER_TRAP, now, [], [], 0, 0)
  }

  /** What an update meets: the time, whether the character is in the world and alive, whether the
      blasts kill it, and whether the landing spot could be set up. */
  datatype Tick = Tick(now: int, standing: bool, killed: bool, landed: bool)

  function MarkDue(bombs: seq<FallingBomb>, now: int): seq<FallingBomb> {
    seq(|bombs|, i requires 0 <= i < |bombs| => bombs[i].(marked := bombs[i].marked || now >= bombs[i].markedAt))
  }

  /** The bombs still falling, and those that explode, both in order. */
  function Falling(bombs: seq<FallingBomb>, now: int): seq<FallingBomb> {
    if |bombs| == 0 then []
    else Falling(bombs[..|bombs| - 1], now) + if now < bombs[|bombs| - 1].explodesAt then [bombs[|bombs| - 1]] else []
  }

  function Exploding(bombs: seq<FallingBomb>, now: int): seq<FallingBomb> {
    if |bombs| == 0 then []
    else Exploding(bombs[..|bombs| - 1], now) + if now < bombs[|bombs| - 1].explodesAt then [] else [bombs[|bombs| - 1]]
  }

  predicate DropDue(r: Run, now: int) {
    r.bombsLeft > 0 && now >= r.nextDrop
  }

  function Drop(r: Run, now: int, landed: bool): Run
    requires DropDue(r, now)
  {
    var bomb := FallingBomb(r.dropped, now + BOMB_MARKER_DELAY, false, now + BOMB_FUSE);
    Run(r.bombsLeft - 1, now + BOMB_INTERVAL, if landed then r.bombs + [bomb] else r.bombs, r.exploded,
        r.dropped + 1, r.aimed + if r.bombsLeft % BOMB_AIMED_EVERY == 0 then 1 else 0)
  }

  /** Marks and explodes what is due. */
  function Burst(r: Run, now: int): Run {
    var marked := MarkDue(r.bombs, now);
    r.(bombs := Falling(marked, now), exploded := r.exploded + Exploding(marked, now))
  }

  predicate Cut(t: Tick) {
    !t.standing || t.killed
  }

  function Update(r: Run, t: Tick): Run {
    if !t.standing then r
    else
      var b := Burst(r, t.now);
      if t.killed then b
      else if DropDue(b, t.now) then Drop(b, t.now, t.landed)
      else b
  }

  predicate GoesOn(r: Run) {
    r.bombsLeft > 0 || |r.bombs| > 0
  }

  // ----- As it updates the run in place -----

  class BombRunState {
    var bombsLeft: nat
    var nextDrop: int
    var bombs: seq<FallingBomb>
    var exploded: seq<FallingBomb>
    var dropped: nat
    var aimed: nat

    ghost function Abs(): Run
      reads this
    {
      Run(bombsLeft, nextDrop, bombs, exploded, dropped, aimed)
    }

    constructor (now: int)
      ensures Abs() == StartRun(now)
    {
      bombsLeft, nextDrop, bombs, exploded, dropped, aimed := BOMBS_PER_TRAP, now, [], [], 0, 0;
    }

    method MarkBombs(now: int)
      modifies this`bombs
      ensures bombs == MarkDue(old(bombs), now)
    {
      for i := 0 to |bombs|
        invariant |bombs| == |old(bombs)|
        invariant forall j :: 0 <= j < i ==> bombs[j] == MarkDue(old(bombs), now)[j]
        invariant forall j :: i <= j < |bombs| ==> bombs[j] == old(bombs)[j]
      {
        if !bombs[i].marked && now >= bombs[i].markedAt {
          bombs := bombs[i := bombs[i].(marked := true)];
        }
      }
    }

    method ExplodeBombs(now: int)
      modifies this`bombs, this`exploded
      ensures bombs == Falling(old(bombs), now) && exploded == old(exploded) + Exploding(old(bombs), now)
    {
      var falling: seq<FallingBomb> := [];
      for i := 0 to |bombs|
        invariant bombs == old(bombs)
        invariant falling == Falling(bombs[..i], now) && exploded == old(exploded) + Exploding(bombs[..i], now)
      {
        assert bombs[..i + 1][..i] == bombs[..i];
        if now < bombs[i].explodesAt {
          falling := falling + [bombs[i]];
        } else {
          exploded := exploded + [bombs[i]];
        }
      }
      assert bombs[..|bombs|] == bombs;
      bombs := falling;
    }

    method UpdateBombRun(t: Tick) returns (goesOn: bool)
      modifies this
      ensures Abs() == Update(old(Abs()), t)
      ensures goesOn == (!Cut(t) && GoesOn(Abs()))
    {
      hide MarkDue, Falling, Exploding;
      if !t.standing {
        return false;
      }
      MarkBombs(t.now);
      ExplodeBombs(t.now);
      if t.killed {
        return false;
      }
      if bombsLeft > 0 && t.now >= nextDrop {
        if bombsLeft % BOMB_AIMED_EVERY == 0 {
          aimed := aimed + 1;
        }
        if t.landed {
          bombs := bombs + [FallingBomb(dropped, t.now + BOMB_MARKER_DELAY, false, t.now + BOMB_FUSE)];
        }
        dropped := dropped + 1;
        bombsLeft := bombsLeft - 1;
        nextDrop := t.now + BOMB_INTERVAL;
      }
      return bombsLeft > 0 || |bombs| > 0;
    }
  }

  // ----- The invariant of a run updated at times that never go back -----

  /** How many of the first `n` drops of a run are aimed: every third, from the second on. */
  function AimedAmong(n: nat): nat {
    (n + 1) / BOMB_AIMED_EVERY
  }

  /** Bombs in drop order, each a full interval after the one before. */
  ghost predicate Spaced(bombs: seq<FallingBomb>) {
    forall i, j :: 0 <= i < j < |bombs| ==>
      bombs[i].number < bombs[j].number && bombs[i].explodesAt + BOMB_INTERVAL * (j - i) <= bombs[j].explodesAt
  }

  ghost predicate Timed(r: Run, now: int, b: FallingBomb) {
    && b.number < r.dropped
    && b.markedAt == b.explodesAt - BOMB_FUSE + BOMB_MARKER_DELAY
    && (b.marked ==> now >= b.markedAt)
    && b.explodesAt <= now + BOMB_FUSE
    && b.explodesAt - BOMB_FUSE + BOMB_INTERVAL <= r.nextDrop
  }

  /** A run started at `start` whose last update was at `now`. */
  ghost predicate Inv(r: Run, start: int, now: int) {
    && r.dropped + r.bombsLeft == BOMBS_PER_TRAP
    && r.aimed == AimedAmong(r.dropped)
    && start + BOMB_INTERVAL * r.dropped <= r.nextDrop <= now + BOMB_INTERVAL
    && Spaced(r.exploded + r.bombs)
    && (forall b :: b in r.bombs ==> Timed(r, now, b) && now < b.explodesAt)
    && (forall b :: b in r.exploded ==> Timed(r, now, b) && b.marked && b.explodesAt <= now)
  }

  lemma {:induction false} AllExplode(bombs: seq<FallingBomb>, now: int)
    requires forall i :: 0 <= i < |bombs| ==> bombs[i].explodesAt <= now
    ensures Exploding(bombs, now) == bombs && Falling(bombs, now) == []
  {
    if |bombs| > 0 {
      var n := |bombs| - 1;
      AllExplode(bombs[..n], now);
      assert bombs[..n] + [bombs[n]] == bombs;
    }
  }

  ghost predicate Sorted(bombs: seq<FallingBomb>) {
    forall i, j :: 0 <= i < j < |bombs| ==> bombs[i].explodesAt <= bombs[j].explodesAt
  }

  lemma SortedPrefix(bombs: seq<FallingBomb>, now: int)
    requires Sorted(bombs) && |bombs| > 0
    ensures Sorted(bombs[..|bombs| - 1])
    ensures bombs[|bombs| - 1].explodesAt <= now ==> forall i :: 0 <= i < |bombs| ==> bombs[i].explodesAt <= now
  {
  }

  lemma LastFalls(bombs: seq<FallingBomb>, now: int)
    requires |bombs| > 0 && now < bombs[|bombs| - 1].explodesAt
    ensures Falling(bombs, now) == Falling(bombs[..|bombs| - 1], now) + [bombs[|bombs| - 1]]
    ensures Exploding(bombs, now) == Exploding(bombs[..|bombs| - 1], now)
  {
  }

  /** What explodes is a prefix of what falls. */
  lemma {:induction false} BurstSplits(bombs: seq<FallingBomb>, now: int) returns (k: nat)
    requires Sorted(bombs)
    ensures k <= |bombs| && Exploding(bombs, now) == bombs[..k] && Falling(bombs, now) == bombs[k..]
    ensures forall x :: x in bombs[..k] ==> x.explodesAt <= now
    ensures forall x :: x in bombs[k..] ==> now < x.explodesAt
  {
    hide Sorted, Falling, Exploding;
    if bombs == [] || bombs[|bombs| - 1].explodesAt <= now {
      if bombs != [] {
        SortedPrefix(bombs, now);
      }
      AllExplode(bombs, now);
      k := |bombs|;
      assert bombs[..k] == bombs;
    } else {
      var n := |bombs| - 1;
      SortedPrefix(bombs, now);
      LastFalls(bombs, now);
      k := BurstSplits(bombs[..n], now);
      assert bombs[..n][..k] == bombs[..k];
      assert bombs[..n][k..] + [bombs[n]] == bombs[k..];
    }
  }

  /** Marking leaves numbers and times alone. */
  lemma MarkKeeps(r: Run, start: int, prev: int, now: int)
    requires Inv(r, start, prev) && prev <= now
    ensures var marked := MarkDue(r.bombs, now);
            && Spaced(r.exploded + marked) && |marked| == |r.bombs|
            && Sorted(marked)
            && (forall b :: b in marked ==> Timed(r, now, b) && (b.explodesAt <= now ==> b.marked))
  {
    var marked := MarkDue(r.bombs, now);
    var all, all' := r.exploded + r.bombs, r.exploded + marked;
    assert forall i :: 0 <= i < |all| ==> all'[i].number == all[i].number && all'[i].explodesAt == all[i].explodesAt;
    forall i, j | 0 <= i < j < |marked| ensures marked[i].explodesAt <= marked[j].explodesAt {
      assert all[|r.exploded| + i] == r.bombs[i] && all[|r.exploded| + j] == r.bombs[j];
    }
    forall b | b in marked ensures Timed(r, now, b) && (b.explodesAt <= now ==> b.marked) {
      var i :| 0 <= i < |marked| && marked[i] == b;
      assert r.bombs[i] in r.bombs;
    }
  }

  /** A burst only moves the line between what has exploded and what still falls. */
  lemma BurstInOrder(r: Run, start: int, prev: int, now: int)
    requires Inv(r, start, prev) && prev <= now
    ensures var b := Burst(r, now);
            && b.exploded + b.bombs == r.exploded + MarkDue(r.bombs, now)
            && Spaced(b.exploded + b.bombs)
            && (forall x :: x in b.bombs ==> Timed(r, now, x) && now < x.explodesAt)
            && (forall x :: x in b.exploded ==> Timed(r, now, x) && x.marked && x.explodesAt <= now)
            && |b.bombs| <= |r.bombs|
  {
    hide Falling, Exploding, MarkDue, Spaced;
    MarkKeeps(r, start, prev, now);
    var marked := MarkDue(r.bombs, now);
    var k := BurstSplits(marked, now);
    assert marked == marked[..k] + marked[k..];
    var b := Burst(r, now);
    assert b.exploded + b.bombs == r.exploded + marked;
    forall x | x in b.bombs ensures Timed(r, now, x) && now < x.explodesAt {
      assert x in marked[k..];
    }
    forall x | x in b.exploded ensures Timed(r, now, x) && x.marked && x.explodesAt <= now {
      if x !in r.exploded {
        assert x in marked[..k];
      }
    }
  }

  lemma DropKeeps(b: Run, start: int, t: Tick)
    requires Inv(b, start, t.now) && DropDue(b, t.now)
    ensures Inv(Drop(b, t.now, t.landed), start, t.now)
  {
    hide Spaced;
    var bomb := FallingBomb(b.dropped, t.now + BOMB_MARKER_DELAY, false, t.now + BOMB_FUSE);
    var all := b.exploded + b.bombs;
    if |all| > 0 {
      assert all[|all| - 1] in b.exploded || all[|all| - 1] in b.bombs;
    }
    SpacedAppend(all, bomb);
    assert b.exploded + (b.bombs + [bomb]) == all + [bomb];
  }

  lemma UpdateKeeps(r: Run, start: int, prev: int, t: Tick)
    requires Inv(r, start, prev) && prev <= t.now && !Cut(t)
    ensures Inv(Update(r, t), start, t.now)
  {
    hide Burst, Drop, Spaced, MarkDue;
    BurstInOrder(r, start, prev, t.now);
    BurstKeepsRest(r, t.now);
    var b := Burst(r, t.now);
    assert Inv(b, start, t.now);
    if DropDue(b, t.now) {
      DropKeeps(b, start, t);
    }
  }

  lemma BurstKeepsRest(r: Run, now: int)
    ensures Burst(r, now) == r.(bombs := Burst(r, now).bombs, exploded := Burst(r, now).exploded)
  {
  }

  lemma SpacedAppend(bombs: seq<FallingBomb>, b: FallingBomb)
    requires Spaced(bombs)
    requires |bombs| > 0 ==>
             bombs[|bombs| - 1].number < b.number && bombs[|bombs| - 1].explodesAt + BOMB_INTERVAL <= b.explodesAt
    ensures Spaced(bombs + [b])
  {
    var all, n := bombs + [b], |bombs|;
    forall i, j | 0 <= i < j < |all|
      ensures all[i].number < all[j].number && all[i].explodesAt + BOMB_INTERVAL * (j - i) <= all[j].explodesAt
    {
      if j == n && i < n - 1 {
        assert bombs[i].explodesAt + BOMB_INTERVAL * (n - 1 - i) <= bombs[n - 1].explodesAt;
      }
    }
  }

  // ----- Whole runs -----

  /** An uncut run: updated at times that never go back. */
  ghost predicate IsRun(start: int, ticks: seq<Tick>, runs: seq<Run>) {
    && |runs| == |ticks| + 1 && runs[0] == StartRun(start)
    && (forall i :: 0 <= i < |ticks| ==> !Cut(ticks[i]) && runs[i + 1] == Update(runs[i], ticks[i]))
    && (forall i :: 0 <= i < |ticks| ==> TimeBefore(start, ticks, i) <= ticks[i].now)
  }

  function TimeBefore(start: int, ticks: seq<Tick>, i: nat): int
    requires i <= |ticks|
  {
    if i == 0 then start else ticks[i - 1].now
  }

  lemma {:induction false} RunKeeps(start: int, ticks: seq<Tick>, runs: seq<Run>, n: nat)
    requires IsRun(start, ticks, runs) && n <= |ticks|
    ensures Inv(runs[n], start, TimeBefore(start, ticks, n))
  {
    hide Update;
    if n > 0 {
      RunKeeps(start, ticks, runs, n - 1);
      UpdateKeeps(runs[n - 1], start, TimeBefore(start, ticks, n - 1), ticks[n - 1]);
    }
  }

  /** At most eight bombs are ever live: the fuse holds eight intervals. */
  lemma AtMostEight(start: int, ticks: seq<Tick>, runs: seq<Run>, n: nat)
    requires IsRun(start, ticks, runs) && n <= |ticks|
    ensures |runs[n].bombs| <= 8
  {
    RunKeeps(start, ticks, runs, n);
    EightIntervals(runs[n], start, TimeBefore(start, ticks, n));
  }

  lemma EightIntervals(r: Run, start: int, now: int)
    requires Inv(r, start, now)
    ensures |r.bombs| <= 8
  {
    var all, n := r.exploded + r.bombs, |r.exploded|;
    if |r.bombs| > 0 {
      assert all[n] == r.bombs[0] && all[|all| - 1] == r.bombs[|r.bombs| - 1];
      assert all[n].explodesAt + BOMB_INTERVAL * (|all| - 1 - n) <= all[|all| - 1].explodesAt;
      assert r.bombs[0] in r.bombs && r.bombs[|r.bombs| - 1] in r.bombs;
    }
  }

  /** Bombs explode in the order they dropped, each marked well before; every drop is accounted for, a
      third of them aimed; and the drops take their time. */
  lemma InOrder(start: int, ticks: seq<Tick>, runs: seq<Run>, n: nat)
    requires IsRun(start, ticks, runs) && n <= |ticks|
    ensures var r := runs[n];
            && (forall i, j :: 0 <= i < j < |r.exploded| ==> r.exploded[i].number < r.exploded[j].number)
            && (forall i, j :: 0 <= i < |r.exploded| && 0 <= j < |r.bombs| ==> r.exploded[i].number < r.bombs[j].number)
            && (forall b :: b in r.exploded ==> b.marked && b.markedAt + BOMB_FUSE - BOMB_MARKER_DELAY == b.explodesAt)
            && r.dropped + r.bombsLeft == BOMBS_PER_TRAP
            && (!GoesOn(r) ==> r.dropped == 40 && r.aimed == 13)
            && (r.dropped > 0 ==> start + BOMB_INTERVAL * (r.dropped - 1) <= TimeBefore(start, ticks, n))
  {
    RunKeeps(start, ticks, runs, n);
    NumbersRise(runs[n], start, TimeBefore(start, ticks, n));
  }

  lemma NumbersRise(r: Run, start: int, now: int)
    requires Inv(r, start, now)
    ensures forall i, j :: 0 <= i < j < |r.exploded| ==> r.exploded[i].number < r.exploded[j].number
    ensures forall i, j :: 0 <= i < |r.exploded| && 0 <= j < |r.bombs| ==> r.exploded[i].number < r.bombs[j].number
  {
    var all := r.exploded + r.bombs;
    assert forall i :: 0 <= i < |r.exploded| ==> all[i] == r.exploded[i];
    assert forall j :: 0 <= j < |r.bombs| ==> all[|r.exploded| + j] == r.bombs[j];
  }

  /** What is left of a run. */
  function Left(r: Run): nat {
    2 * r.bombsLeft + |r.bombs|
  }

  /** No update adds to what is left, and one that comes a fuse later always takes from it. */
  lemma UpdateProgress(r: Run, start: int, prev: int, t: Tick)
    requires Inv(r, start, prev) && prev <= t.now && !Cut(t)
    ensures Left(Update(r, t)) <= Left(r)
    ensures GoesOn(r) && t.now >= prev + BOMB_FUSE ==> Left(Update(r, t)) < Left(r)
  {
    hide Falling, Exploding, MarkDue, Spaced;
    BurstInOrder(r, start, prev, t.now);
    FirstIn(r.bombs);
    FirstIn(Burst(r, t.now).bombs);
  }

  lemma FirstIn(bombs: seq<FallingBomb>)
    ensures |bombs| > 0 ==> bombs[0] in bombs
  {
  }

  /** How late the next drop can be when updates are at most `gap` apart, and that it is still to come. */
  ghost predicate OnSchedule(r: Run, start: int, now: int, gap: nat) {
    && r.nextDrop <= start + (BOMB_INTERVAL + gap) * r.dropped
    && (r.bombsLeft > 0 ==> now < r.nextDrop || (now == start == r.nextDrop))
  }

  lemma UpdateOnSchedule(r: Run, start: int, prev: int, gap: nat, t: Tick)
    requires OnSchedule(r, start, prev, gap) && prev <= t.now <= prev + gap && !Cut(t)
    ensures OnSchedule(Update(r, t), start, t.now, gap)
  {
    hide MarkDue, Falling, Exploding;
    var b := Burst(r, t.now);
    if DropDue(b, t.now) {
      assert (BOMB_INTERVAL + gap) * (b.dropped + 1) == (BOMB_INTERVAL + gap) * b.dropped + BOMB_INTERVAL + gap;
    }
  }

  lemma {:induction false} RunOnSchedule(start: int, ticks: seq<Tick>, runs: seq<Run>, gap: nat, n: nat)
    requires IsRun(start, ticks, runs) && n <= |ticks|
    requires forall i :: 0 <= i < |ticks| ==> ticks[i].now <= TimeBefore(start, ticks, i) + gap
    ensures OnSchedule(runs[n], start, TimeBefore(start, ticks, n), gap)
  {
    hide Update, OnSchedule;
    if n == 0 {
      assert OnSchedule(StartRun(start), start, start, gap) by { StartOnSchedule(start, gap); }
    } else {
      RunOnSchedule(start, ticks, runs, gap, n - 1);
      UpdateOnSchedule(runs[n - 1], start, TimeBefore(start, ticks, n - 1), gap, ticks[n - 1]);
    }
  }

  lemma StartOnSchedule(start: int, gap: nat)
    ensures OnSchedule(StartRun(start), start, start, gap)
  {
  }

  /** When a run whose updates are at most `gap` apart is over at the latest. */
  function Deadline(start: int, gap: nat): int {
    start + (BOMB_INTERVAL + gap) * BOMBS_PER_TRAP + BOMB_FUSE - BOMB_INTERVAL
  }

  /** An uncut run is over once the clock passes its deadline, however often it is updated. */
  lemma RunEnds(start: int, ticks: seq<Tick>, runs: seq<Run>, gap: nat, n: nat)
    requires IsRun(start, ticks, runs) && n <= |ticks|
    requires forall i :: 0 <= i < |ticks| ==> ticks[i].now <= TimeBefore(start, ticks, i) + gap
    requires TimeBefore(start, ticks, n) >= Deadline(start, gap)
    ensures !GoesOn(runs[n])
  {
    RunKeeps(start, ticks, runs, n);
    RunOnSchedule(start, ticks, runs, gap, n);
    AllOver(runs[n], start, TimeBefore(start, ticks, n), gap);
  }

  lemma AllOver(r: Run, start: int, now: int, gap: nat)
    requires Inv(r, start, now) && OnSchedule(r, start, now, gap) && now >= Deadline(start, gap)
    ensures !GoesOn(r)
  {
    hide Spaced;
    assert (BOMB_INTERVAL + gap) * r.dropped <= (BOMB_INTERVAL + gap) * BOMBS_PER_TRAP;
    FirstIn(r.bombs);
  }

  /** An uncut run whose updates come a fuse apart is over by the eightieth. */
  lemma {:induction false} SparseRunEnds(start: int, ticks: seq<Tick>, runs: seq<Run>, n: nat)
    requires IsRun(start, ticks, runs) && n <= |ticks|
    requires forall i :: 0 <= i < |ticks| ==> ticks[i].now >= TimeBefore(start, ticks, i) + BOMB_FUSE
    ensures !GoesOn(runs[n]) || Left(runs[n]) + n <= 2 * BOMBS_PER_TRAP
    ensures n >= 2 * BOMBS_PER_TRAP ==> !GoesOn(runs[n])
  {
    hide Update;
    if n > 0 {
      SparseRunEnds(start, ticks, runs, n - 1);
      RunKeeps(start, ticks, runs, n - 1);
      UpdateProgress(runs[n - 1], start, TimeBefore(start, ticks, n - 1), ticks[n - 1]);
    }
  }
}
