/** Which traps an update springs and what it leaves waiting, index by index, and what of that a new
    session finds again. */
module TrapSprings {
  import opened Options
  import opened SlotItems
  import opened TrapQueue
  import TrapList

  /** The entry at `i` goes off in an update's pass: it can, and it is no Bombs while a run is on or one
      before it in the queue that could start one. */
  predicate GoesOff(q: Queue, tick: Tick, i: nat)
    requires i < |q.pending|
  {
    tick.can(i, q.pending[i])
    && (q.pending[i] == Bombs ==>
          !q.bombRun && forall j :: 0 <= j < i && q.pending[j] == Bombs ==> !tick.can(j, Bombs))
  }

  predicate Rising(places: seq<nat>) {
    forall i, j :: 0 <= i < j < |places| ==> places[i] < places[j]
  }

  function At(traps: seq<TrapType>, places: seq<nat>): seq<TrapType>
    requires forall i :: i in places ==> i < |traps|
  {
    seq(|places|, k requires 0 <= k < |places| => assert places[k] in places; traps[places[k]])
  }

  /** How a pass over the first `n` entries divides them. */
  ghost predicate Divides(q: Queue, tick: Tick, n: nat, stay: seq<nat>, went: seq<nat>)
    requires n <= |q.pending|
  {
    && Rising(stay) && Rising(went)
    && (forall i :: i in stay <==> 0 <= i < n && !GoesOff(q, tick, i))
    && (forall i :: i in went <==> 0 <= i < n && GoesOff(q, tick, i))
  }

  lemma OnePlaceMore(places: seq<nat>, m: nat)
    requires Rising(places) && forall i :: i in places ==> i < m
    ensures Rising(places + [m]) && forall i :: i in places + [m] <==> i in places || i == m
  {
    var all := places + [m];
    forall i, j | 0 <= i < j < |all| ensures all[i] < all[j] {
      assert all[i] in places;
    }
  }

  lemma Divided(q: Queue, tick: Tick, n: nat, stay: seq<nat>, went: seq<nat>)
    requires n < |q.pending| && Divides(q, tick, n, stay, went)
    ensures GoesOff(q, tick, n) ==> Divides(q, tick, n + 1, stay, went + [n])
    ensures !GoesOff(q, tick, n) ==> Divides(q, tick, n + 1, stay + [n], went)
  {
    hide GoesOff, Rising;
    OnePlaceMore(stay, n);
    OnePlaceMore(went, n);
  }

  /** A Bombs trap among the first `n` that could go off. */
  ghost predicate CouldBomb(q: Queue, tick: Tick, n: nat)
    requires n <= |q.pending|
  {
    exists i :: 0 <= i < n && q.pending[i] == Bombs && tick.can(i, Bombs)
  }

  lemma {:induction false} PassDivides(q: Queue, tick: Tick, n: nat) returns (stay: seq<nat>, went: seq<nat>)
    requires n <= |q.pending|
    ensures Divides(q, tick, n, stay, went)
    ensures var p := SpringPass(q.pending[..n], tick.can, q.bombRun);
            && p.waiting == At(q.pending, stay) && p.sprung == At(q.pending, went)
            && (p.bombRun <==> q.bombRun || CouldBomb(q, tick, n))
  {
    if n == 0 {
      stay, went := [], [];
    } else {
      hide Rising;
      stay, went := PassDivides(q, tick, n - 1);
      assert q.pending[..n][..n - 1] == q.pending[..n - 1];
      Divided(q, tick, n - 1, stay, went);
      if GoesOff(q, tick, n - 1) {
        went := went + [n - 1];
      } else {
        stay := stay + [n - 1];
      }
    }
  }

  /** The first Bombs trap that could go off does. */
  lemma {:induction false} FirstBomb(q: Queue, tick: Tick, n: nat)
    requires n <= |q.pending| && CouldBomb(q, tick, n) && !q.bombRun
    ensures exists i :: 0 <= i < n && q.pending[i] == Bombs && GoesOff(q, tick, i)
  {
    if CouldBomb(q, tick, n - 1) {
      FirstBomb(q, tick, n - 1);
    } else {
      assert GoesOff(q, tick, n - 1);
    }
  }

  /** In an update that springs what can, every entry of the queue goes off or stays as it should: those
      that go off do so at once and in order, those that stay keep theirs, and a bomb run is on afterwards
      exactly if one was or a Bombs trap went off. */
  lemma EveryTrapThatCan(q: Queue, tick: Tick) returns (stay: seq<nat>, went: seq<nat>)
    requires q.ready && !tick.teleporting && q.heldUntil <= tick.now
    requires Teleport !in q.pending || !tick.canTeleport
    ensures Divides(q, tick, |q.pending|, stay, went)
    ensures var r := SpringPending(q, tick);
            && r.pending == At(q.pending, stay)
            && r.sprung == q.sprung + SpringsAt(At(q.pending, went), tick.now)
            && (r.bombRun <==> q.bombRun || exists i :: i in went && q.pending[i] == Bombs)
            && r.heldUntil == q.heldUntil
  {
    hide SpringPass, FirstTeleport, GoesOff, Rising, TrapList.Print;
    stay, went := PassDivides(q, tick, |q.pending|);
    assert q.pending[..|q.pending|] == q.pending;
    FirstTeleportFinds(q.pending);
    PassConserves(q.pending, tick.can, q.bombRun);
    var p := SpringPass(q.pending, tick.can, q.bombRun);
    if |p.waiting| == |q.pending| {
      PassIdle(q.pending, tick.can, q.bombRun);
    }
    BombsWent(q, tick, stay, went);
  }

  lemma BombsWent(q: Queue, tick: Tick, stay: seq<nat>, went: seq<nat>)
    requires Divides(q, tick, |q.pending|, stay, went)
    ensures q.bombRun || CouldBomb(q, tick, |q.pending|) <==>
            q.bombRun || exists i :: i in went && q.pending[i] == Bombs
  {
    if !q.bombRun && CouldBomb(q, tick, |q.pending|) {
      FirstBomb(q, tick, |q.pending|);
    }
  }

  /** Before the slot data, during a teleport and while one holds the traps, nothing goes off. */
  lemma NothingGoesOff(q: Queue, tick: Tick)
    requires !q.ready || tick.teleporting || tick.now < q.heldUntil
    ensures var r := SpringPending(q, tick);
            && r.sprung == q.sprung && r.pending == q.pending && r.bombRun == q.bombRun && r.column == q.column
            && (q.ready && tick.teleporting && q.pending != [] ==> r.heldUntil == tick.now + 3000)
  {
    hide FirstTeleport, SpringPass;
  }

  /** A Teleport Trap that can spring goes off instead of the pass: the first of those that wait, alone,
      and every trap is held for three seconds. */
  lemma TeleportGoes(q: Queue, tick: Tick, i: nat)
    requires q.ready && !tick.teleporting && q.heldUntil <= tick.now && tick.canTeleport
    requires i < |q.pending| && q.pending[i] == Teleport && Teleport !in q.pending[..i]
    ensures var r := SpringPending(q, tick);
            && r.pending == q.pending[..i] + q.pending[i + 1..]
            && r.sprung == q.sprung + [Spring(Teleport, tick.now)]
            && r.heldUntil == tick.now + 3000 && r.bombRun == q.bombRun
  {
    hide FirstTeleport;
    FirstIs(q.pending, i);
  }

  lemma {:induction false} FirstIs(traps: seq<TrapType>, i: nat)
    requires i < |traps| && traps[i] == Teleport && Teleport !in traps[..i]
    ensures FirstTeleport(traps) == i
    decreases i
  {
    if i > 0 {
      assert traps[..i] == [traps[0]] + traps[1..][..i - 1];
      FirstIs(traps[1..], i - 1);
    }
  }

  // ----- What a new session finds -----

  lemma ColumnIsLoaded(q: Queue)
    requires q.column == TrapList.Print(q.pending)
    ensures Relog(q).pending == q.pending
  {
    hide TrapList.Print, TrapList.Parse;
    TrapList.RoundTrip(q.pending);
  }

  lemma Fits(traps: seq<TrapType>)
    ensures |traps| <= 128 ==> |TrapList.Print(traps)| <= TrapList.COLUMN_WIDTH
  {
    hide TrapList.Print;
    TrapList.FitsColumnIff(traps);
  }

  /** A trap that has to wait is on record at once: a session that ends right after it still has it, and
      all that waited before it. */
  lemma WaitingSurvives(events: seq<Event>, t: TrapType)
    requires |After(NEW_QUEUE, events).pending| < 128
    ensures After(NEW_QUEUE, events + [Received(t, false)] + [Relogged]).pending
         == After(NEW_QUEUE, events).pending + [t]
  {
    hide After, Relog, TrapList.Print;
    var q := After(NEW_QUEUE, events);
    AfterMore(NEW_QUEUE, events, Received(t, false));
    AfterMore(NEW_QUEUE, events + [Received(t, false)], Relogged);
    Fits(q.pending + [t]);
    ColumnIsLoaded(Receive(q, t, false));
  }

  /** What an update sprang is off the record at once: a session that ends right after it finds the
      traps the update left, and no other. */
  lemma SprungStaysSprung(events: seq<Event>, tick: Tick)
    requires var q := After(NEW_QUEUE, events); SpringPending(q, tick).sprung != q.sprung && |q.pending| <= 129
    ensures After(NEW_QUEUE, events + [Updated(tick)] + [Relogged]).pending
         == SpringPending(After(NEW_QUEUE, events), tick).pending
  {
    hide After, Relog, SpringPending, TrapList.Print;
    var q := After(NEW_QUEUE, events);
    AfterMore(NEW_QUEUE, events, Updated(tick));
    AfterMore(NEW_QUEUE, events + [Updated(tick)], Relogged);
    SavedAfterSpring(q, tick);
    ColumnIsLoaded(SpringPending(q, tick));
  }

  lemma SavedAfterSpring(q: Queue, tick: Tick)
    requires SpringPending(q, tick).sprung != q.sprung && |q.pending| <= 129
    ensures SpringPending(q, tick).column == TrapList.Print(SpringPending(q, tick).pending)
  {
    hide FirstTeleport, SpringPass, TrapList.Print;
    Fits(SpringPending(q, tick).pending);
    PassConserves(q.pending, tick.can, q.bombRun);
    assert q.sprung + SpringsAt([], tick.now) == q.sprung;
  }

  // ----- Bomb runs -----

  /** How many Bombs traps have gone off. */
  function BombsGone(q: Queue): nat {
    multiset(Traps(q.sprung))[Bombs]
  }

  /** A Bombs trap went off at event `i`, and the run was neither over nor cut off by a new session since. */
  ghost predicate StillRaining(events: seq<Event>, i: nat)
    requires i < |events|
  {
    && BombsGone(After(NEW_QUEUE, events[..i])) < BombsGone(After(NEW_QUEUE, events[..i + 1]))
    && forall j :: i < j < |events| ==> !events[j].BombRunOver? && !events[j].Relogged?
  }

  lemma BombsBalanced(q: Queue)
    requires Accounts(q)
    ensures BombsGone(q) == q.runsEnded + (if q.bombRun then 1 else 0)
  {
    hide Balanced, ColumnPrinted, Doubled, Lost;
  }

  lemma OngoingStep(q: Queue, e: Event)
    requires !e.BombRunOver? && !e.Relogged?
    ensures Next(q, e).runsEnded == q.runsEnded && (q.bombRun ==> Next(q, e).bombRun)
  {
    hide FirstTeleport, SpringPass, TrapList.Print;
    PassBombs(q.pending, if e.Updated? then e.tick.can else (_, _) => false, q.bombRun);
  }

  lemma EndingStep(q: Queue, e: Event)
    requires e.BombRunOver? || (e.Relogged? && TrapList.Parse(q.column).Some?)
    ensures !Next(q, e).bombRun && Next(q, e).sprung == q.sprung
  {
    hide TrapList.Parse;
  }

  lemma RunStep(q: Queue, e: Event)
    requires Accounts(q) && Accounts(Next(q, e)) && TrapList.Parse(q.column).Some?
    ensures var r, ends := Next(q, e), e.BombRunOver? || e.Relogged?;
            && (ends ==> !r.bombRun)
            && (!ends ==> (r.bombRun <==> q.bombRun || BombsGone(q) < BombsGone(r)))
  {
    hide Next, Accounts, BombsGone, TrapList.Parse;
    if e.BombRunOver? || e.Relogged? {
      EndingStep(q, e);
    } else {
      OngoingStep(q, e);
      BombsBalanced(q);
      BombsBalanced(Next(q, e));
    }
  }

  lemma EndsRain(events: seq<Event>, n: nat)
    requires |events| == n + 1 && (events[n].BombRunOver? || events[n].Relogged?)
    requires TrapList.Parse(After(NEW_QUEUE, events[..n]).column).Some?
    ensures forall i :: 0 <= i < |events| ==> !StillRaining(events, i)
  {
    hide Next, TrapList.Parse, Traps;
    EndingStep(After(NEW_QUEUE, events[..n]), events[n]);
    assert events[..n + 1] == events;
  }

  lemma RainGoesOn(events: seq<Event>, n: nat, i: nat)
    requires i < n && |events| == n + 1 && !events[n].BombRunOver? && !events[n].Relogged?
    ensures StillRaining(events, i) <==> StillRaining(events[..n], i)
  {
    hide After, BombsGone;
    assert events[..n][..i] == events[..i] && events[..n][..i + 1] == events[..i + 1];
  }

  /** A bomb run is on exactly when a Bombs trap that went off is still raining. */
  lemma {:induction false} RunOnIff(events: seq<Event>)
    ensures After(NEW_QUEUE, events).bombRun <==> exists i :: 0 <= i < |events| && StillRaining(events, i)
    decreases |events|
  {
    hide Next, Accounts, InStep, BombsGone, TrapList.Parse, Traps, Doubled, Lost;
    if |events| > 0 {
      var n := |events| - 1;
      var but, e := events[..n], events[n];
      RunOnIff(but);
      RunKeeps(but);
      RunKeeps(events);
      TrapsAccountedFor(but);
      RunStep(After(NEW_QUEUE, but), e);
      if e.BombRunOver? || e.Relogged? {
        EndsRain(events, n);
      } else {
        hide StillRaining;
        forall i | 0 <= i < n ensures StillRaining(events, i) <==> StillRaining(but, i) {
          RainGoesOn(events, n, i);
        }
        LastRain(events, n);
      }
    }
  }

  lemma LastRain(events: seq<Event>, n: nat)
    requires |events| == n + 1
    ensures StillRaining(events, n)
       <==> BombsGone(After(NEW_QUEUE, events[..n])) < BombsGone(After(NEW_QUEUE, events))
  {
    hide After, BombsGone;
    assert events[..n + 1] == events;
  }
}
