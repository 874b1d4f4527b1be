/** A bombardment told by its updates: which of them drop a bomb, and what becomes of every drop. */
module BombDrops {
  import opened BombRun

  /** The i-th update tried a drop. */
  predicate Drops(ticks: seq<Tick>, runs: seq<Run>, i: nat)
    requires |runs| == |ticks| + 1 && i < |ticks|
  {
    runs[i + 1].dropped > runs[i].dropped
  }

  /** The bomb that an update's drop brings down: it is marked 600 and explodes 2000 milliseconds later. */
  predicate IsBombOf(ticks: seq<Tick>, runs: seq<Run>, i: nat, b: FallingBomb)
    requires |runs| == |ticks| + 1 && i < |ticks|
  {
    && Drops(ticks, runs, i) && ticks[i].landed
    && b.number == runs[i].dropped && b.markedAt == ticks[i].now + 600 && b.explodesAt == ticks[i].now + 2000
  }

  function AllBombs(r: Run): seq<FallingBomb> {
    r.exploded + r.bombs
  }

  /** Two bombs alike but for their marks. */
  predicate Alike(a: FallingBomb, b: FallingBomb) {
    a.number == b.number && a.markedAt == b.markedAt && a.explodesAt == b.explodesAt
  }

  /** What an update leaves of the bombs there were, and what it adds: the bomb of its drop, and nothing
      without one. */
  lemma UpdateAdds(r: Run, start: int, prev: int, t: Tick)
    requires Inv(r, start, prev) && prev <= t.now && !Cut(t)
    ensures var w := Update(r, t); var n := |AllBombs(r)|;
            && r.dropped <= w.dropped <= r.dropped + 1
            && |AllBombs(w)| == n + (if w.dropped > r.dropped && t.landed then 1 else 0)
            && (forall k :: 0 <= k < n ==> Alike(AllBombs(w)[k], AllBombs(r)[k]))
            && (|AllBombs(w)| > n ==>
                  Alike(AllBombs(w)[n], FallingBomb(r.dropped, t.now + 600, false, t.now + 2000)))
  {
    hide Falling, Exploding, Spaced;
    BurstInOrder(r, start, prev, t.now);
    var b, w := Burst(r, t.now), Update(r, t);
    assert AllBombs(b) == r.exploded + MarkDue(r.bombs, t.now);
    if DropDue(b, t.now) && t.landed {
      assert AllBombs(w) == AllBombs(b) + w.bombs[|b.bombs|..];
    }
  }

  /** One update of a run. */
  lemma StepAdds(start: int, ticks: seq<Tick>, runs: seq<Run>, i: nat)
    requires IsRun(start, ticks, runs) && i < |ticks|
    ensures |runs| == |ticks| + 1 && runs[0] == StartRun(start)
    ensures var r, w, t := runs[i], runs[i + 1], ticks[i]; var n := |AllBombs(r)|;
            && r.dropped <= w.dropped <= r.dropped + 1
            && |AllBombs(w)| == n + (if w.dropped > r.dropped && t.landed then 1 else 0)
            && (forall k :: 0 <= k < n ==> Alike(AllBombs(w)[k], AllBombs(r)[k]))
            && (|AllBombs(w)| > n ==>
                  Alike(AllBombs(w)[n], FallingBomb(r.dropped, t.now + 600, false, t.now + 2000)))
  {
    hide Update, Inv;
    RunKeeps(start, ticks, runs, i);
    UpdateAdds(runs[i], start, TimeBefore(start, ticks, i), ticks[i]);
  }

  lemma RunShape(start: int, ticks: seq<Tick>, runs: seq<Run>)
    requires IsRun(start, ticks, runs)
    ensures |runs| == |ticks| + 1 && runs[0] == StartRun(start)
    ensures AllBombs(StartRun(start)) == []
  {
  }

  /** The updates at `from` are those among the first `n` whose drop landed, in order. */
  ghost predicate Landings(ticks: seq<Tick>, runs: seq<Run>, n: nat, from: seq<nat>)
    requires |runs| == |ticks| + 1 && n <= |ticks|
  {
    && (forall k, l :: 0 <= k < l < |from| ==> from[k] < from[l])
    && (forall i :: i in from <==> 0 <= i < n && Drops(ticks, runs, i) && ticks[i].landed)
  }

  lemma OneMoreLanding(ticks: seq<Tick>, runs: seq<Run>, n: nat, from: seq<nat>)
    requires |runs| == |ticks| + 1 && n < |ticks| && Landings(ticks, runs, n, from)
    ensures Landings(ticks, runs, n + 1, if Drops(ticks, runs, n) && ticks[n].landed then from + [n] else from)
  {
    hide Drops;
    var all := from + [n];
    assert forall k :: 0 <= k < |from| ==> from[k] in from;
    assert forall i :: i in all <==> i in from || i == n;
  }

  /** The bombs of a run, those that exploded and those that fall, are those of the drops that landed: one
      each, in order, and none besides. */
  lemma {:induction false} BombsAreDrops(start: int, ticks: seq<Tick>, runs: seq<Run>, n: nat) returns (from: seq<nat>)
    requires IsRun(start, ticks, runs) && n <= |ticks|
    ensures Landings(ticks, runs, n, from) && |from| == |AllBombs(runs[n])|
    ensures forall k :: 0 <= k < |from| ==> from[k] < n && IsBombOf(ticks, runs, from[k], AllBombs(runs[n])[k])
  {
    hide IsRun, AllBombs;
    RunShape(start, ticks, runs);
    if n == 0 {
      from := [];
    } else {
      var m := n - 1;
      from := BombsAreDrops(start, ticks, runs, m);
      StepAdds(start, ticks, runs, m);
      OneMoreLanding(ticks, runs, m, from);
      hide Landings;
      if Drops(ticks, runs, m) && ticks[m].landed {
        from := from + [m];
      }
    }
  }

  /** Drop number k brought a bomb exactly when the update that made it landed one. */
  lemma NumberedIff(start: int, ticks: seq<Tick>, runs: seq<Run>, n: nat, i: nat)
    requires IsRun(start, ticks, runs) && i < n <= |ticks| && Drops(ticks, runs, i)
    ensures runs[i + 1].dropped == runs[i].dropped + 1
    ensures ticks[i].landed <==> exists b :: b in AllBombs(runs[n]) && b.number == runs[i].dropped
  {
    hide IsRun, AllBombs;
    StepAdds(start, ticks, runs, i);
    var from := BombsAreDrops(start, ticks, runs, n);
    var all := AllBombs(runs[n]);
    if ticks[i].landed {
      var k :| 0 <= k < |from| && from[k] == i;
      assert all[k] in all && all[k].number == runs[i].dropped;
    } else if b :| b in all && b.number == runs[i].dropped {
      var k :| 0 <= k < |all| && all[k] == b;
      assert from[k] in from && IsBombOf(ticks, runs, from[k], all[k]);
      DropsRise(start, ticks, runs, from[k], i);
      DropsRise(start, ticks, runs, i, from[k]);
    }
  }

  /** A later drop has a higher number. */
  lemma {:induction false} DropsRise(start: int, ticks: seq<Tick>, runs: seq<Run>, i: nat, j: nat)
    requires IsRun(start, ticks, runs) && i <= |ticks| && j <= |ticks|
    ensures i <= j ==> runs[i].dropped <= runs[j].dropped
    ensures i < j && Drops(ticks, runs, i) ==> runs[i].dropped < runs[j].dropped
    decreases j
  {
    hide IsRun, AllBombs;
    RunShape(start, ticks, runs);
    if i < j {
      DropsRise(start, ticks, runs, i, j - 1);
      StepAdds(start, ticks, runs, j - 1);
    }
  }

  lemma MarkedInTime(r: Run, start: int, prev: int, t: Tick)
    requires Inv(r, start, prev) && prev <= t.now && !Cut(t)
    ensures forall b :: b in Update(r, t).bombs ==> (b.marked <==> b.markedAt <= t.now)
  {
    hide Spaced, Falling, Exploding, Sorted;
    MarkKeeps(r, start, prev, t.now);
    var marked := MarkDue(r.bombs, t.now);
    var k := BurstSplits(marked, t.now);
    forall b | b in marked[k..] ensures b.marked <==> b.markedAt <= t.now {
      var i :| 0 <= i < |marked| && marked[i] == b;
      assert r.bombs[i] in r.bombs && Timed(r, prev, r.bombs[i]);
    }
  }

  /** Where a bomb is depends on the clock alone: it falls until its time, marked from its marker's time
      on, and has exploded from then on. */
  lemma ExplodesInTime(start: int, ticks: seq<Tick>, runs: seq<Run>, n: nat)
    requires IsRun(start, ticks, runs) && n <= |ticks|
    ensures var now := TimeBefore(start, ticks, n);
            && (forall b :: b in runs[n].bombs ==> now < b.explodesAt && (b.marked <==> b.markedAt <= now))
            && (forall b :: b in runs[n].exploded ==> b.explodesAt <= now && b.marked)
  {
    hide Update;
    RunKeeps(start, ticks, runs, n);
    if n > 0 {
      RunKeeps(start, ticks, runs, n - 1);
      MarkedInTime(runs[n - 1], start, TimeBefore(start, ticks, n - 1), ticks[n - 1]);
    }
  }

  /** An uncut run that is over, and whose drops all landed, has exploded all forty bombs, in order, each
      two seconds after its drop. */
  lemma AllFortyExplode(start: int, ticks: seq<Tick>, runs: seq<Run>, n: nat)
    requires IsRun(start, ticks, runs) && n <= |ticks| && !GoesOn(runs[n])
    requires forall i :: 0 <= i < n && Drops(ticks, runs, i) ==> ticks[i].landed
    ensures |runs[n].exploded| == 40 && forall k :: 0 <= k < 40 ==> runs[n].exploded[k].number == k
  {
    hide Update, Inv;
    InOrder(start, ticks, runs, n);
    AsManyAsDropped(start, ticks, runs, n);
    assert runs[n].exploded + [] == runs[n].exploded;
  }

  /** While every drop lands there are as many bombs as drops, numbered through. */
  lemma {:induction false} AsManyAsDropped(start: int, ticks: seq<Tick>, runs: seq<Run>, n: nat)
    requires IsRun(start, ticks, runs) && n <= |ticks|
    requires forall i :: 0 <= i < n && Drops(ticks, runs, i) ==> ticks[i].landed
    ensures |AllBombs(runs[n])| == runs[n].dropped
    ensures forall k :: 0 <= k < runs[n].dropped ==> AllBombs(runs[n])[k].number == k
  {
    hide IsRun, AllBombs;
    RunShape(start, ticks, runs);
    if n > 0 {
      AsManyAsDropped(start, ticks, runs, n - 1);
      StepAdds(start, ticks, runs, n - 1);
    }
  }

  // ----- When bombs drop -----

  /** The next drop is due a quarter of a second after the last one, or at the start. */
  ghost predicate SinceDrops(start: int, ticks: seq<Tick>, runs: seq<Run>, n: nat)
    requires |runs| == |ticks| + 1 && n <= |ticks|
  {
    && (forall i :: 0 <= i < n && Drops(ticks, runs, i) ==> ticks[i].now + 250 <= runs[n].nextDrop)
    && (if runs[n].dropped == 0 then runs[n].nextDrop == start
        else exists i :: 0 <= i < n && Drops(ticks, runs, i) && ticks[i].now + 250 == runs[n].nextDrop)
  }

  lemma DropTimed(r: Run, t: Tick)
    requires !Cut(t)
    ensures var w := Update(r, t);
            && (w.dropped > r.dropped <==> r.bombsLeft > 0 && t.now >= r.nextDrop)
            && w.nextDrop == (if w.dropped > r.dropped then t.now + 250 else r.nextDrop)
            && (w.dropped == r.dropped || w.dropped == r.dropped + 1)
  {
    hide MarkDue, Falling, Exploding;
  }

  lemma {:induction false} DropsSpaced(start: int, ticks: seq<Tick>, runs: seq<Run>, n: nat)
    requires IsRun(start, ticks, runs) && n <= |ticks|
    ensures SinceDrops(start, ticks, runs, n)
  {
    hide Update;
    if n > 0 {
      var m := n - 1;
      DropsSpaced(start, ticks, runs, m);
      DropTimed(runs[m], ticks[m]);
      forall i | 0 <= i < n && Drops(ticks, runs, i) ensures ticks[i].now + 250 <= runs[n].nextDrop {
        TimesRise(start, ticks, runs, i, m);
      }
      if Drops(ticks, runs, m) {
        assert ticks[m].now + 250 == runs[n].nextDrop;
      } else if runs[n].dropped > 0 {
        var i :| 0 <= i < m && Drops(ticks, runs, i) && ticks[i].now + 250 == runs[m].nextDrop;
        assert ticks[i].now + 250 == runs[n].nextDrop;
      }
    }
  }

  lemma {:induction false} TimesRise(start: int, ticks: seq<Tick>, runs: seq<Run>, i: nat, j: nat)
    requires IsRun(start, ticks, runs) && i <= j < |ticks|
    ensures start <= ticks[i].now <= ticks[j].now
    decreases j
  {
    if i < j {
      TimesRise(start, ticks, runs, i, j - 1);
      assert TimeBefore(start, ticks, j) <= ticks[j].now;
    } else if j > 0 {
      TimesRise(start, ticks, runs, j - 1, j - 1);
      assert TimeBefore(start, ticks, j) <= ticks[j].now;
    } else {
      assert TimeBefore(start, ticks, 0) <= ticks[0].now;
    }
  }

  /** An update tries a drop exactly when fewer than forty were tried and the last of them was a quarter
      of a second ago or more; the first update always does. */
  lemma DropsIff(start: int, ticks: seq<Tick>, runs: seq<Run>, n: nat)
    requires IsRun(start, ticks, runs) && n < |ticks|
    ensures Drops(ticks, runs, n) <==>
            runs[n].dropped < 40 && forall i :: 0 <= i < n && Drops(ticks, runs, i) ==>
                                      ticks[i].now + 250 <= ticks[n].now
  {
    hide Update;
    DropsSpaced(start, ticks, runs, n);
    DropTimed(runs[n], ticks[n]);
    RunKeeps(start, ticks, runs, n);
    TimesRise(start, ticks, runs, n, n);
  }
}
