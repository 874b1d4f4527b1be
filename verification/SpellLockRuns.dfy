/** The spell lock over whole runs: logins, connections, batches of grants, and everything else that
    tries to teach the character a spell. */
module SpellLockRuns {
  import opened Spells
  import opened SpellLock

  /** A spell handed over, with the mounts of its rank when it is one and the one drawn of them. */
  datatype Handover = Handover(spell: nat, mounts: seq<nat>, pick: nat)

  /** `swept` once a batch has ended in this login, `given` the spells handed over in it, wrappers among
      them, and `handed` what those put in the character's hands. */
  datatype World = World(registry: Registry, me: State, connected: bool, swept: bool, given: set<nat>, handed: set<nat>)

  datatype Event =
    | Connect
    | Batch(handovers: seq<Handover>, teaches: map<nat, set<nat>>)
    | Attempt(spell: nat, teaches: map<nat, set<nat>>)
    | Lost(spells: set<nat>)  // as on a spec reset
    | Relog

  function HandOver(r: Registry, s: State, handovers: seq<Handover>, teaches: map<nat, set<nat>>): State {
    if |handovers| == 0 then s
    else
      var h := handovers[|handovers| - 1];
      Mount(r, Grant(r, HandOver(r, s, handovers[..|handovers| - 1], teaches), h.spell, teaches), h.mounts, h.pick,
        teaches)
  }

  function HandedBy(r: Registry, handovers: seq<Handover>): set<nat> {
    if |handovers| == 0 then {}
    else HandedBy(r, handovers[..|handovers| - 1]) + HandedOut(r, handovers[|handovers| - 1].spell)
  }

  function Given(handovers: seq<Handover>): set<nat> {
    if |handovers| == 0 then {} else Given(handovers[..|handovers| - 1]) + {handovers[|handovers| - 1].spell}
  }

  /** Items only come after the slot data. */
  predicate Enabled(w: World, e: Event) {
    e.Batch? ==> w.connected
  }

  ghost function Next(data: seq<Entry>, w: World, e: Event): World {
    match e
    case Connect => w.(registry := Read(w.registry, data), connected := true)
    case Batch(handovers, teaches) =>
      w.(me := Sweep(w.registry, HandOver(w.registry, w.me, handovers, teaches)), swept := true,
         given := w.given + Given(handovers), handed := w.handed + HandedBy(w.registry, handovers))
    case Attempt(spell, teaches) => w.(me := Learn(w.registry, w.me, spell, teaches))
    case Lost(spells) => w.(me := w.me.(known := w.me.known - spells))
    case Relog => World(EMPTY, State(w.me.known, {}, 0), false, false, {}, {})
  }

  /** Slot data the lock can be built on: nothing unlisted, and no spell 0. */
  ghost predicate Sound(data: seq<Entry>) {
    Coherent(Read(EMPTY, data)) && !IsRandomized(Read(EMPTY, data), 0)
  }

  ghost predicate Inv(data: seq<Entry>, w: World) {
    && w.me.granting == 0 && w.me.granted == w.given + w.handed
    && w.registry == (if w.connected then Read(EMPTY, data) else EMPTY)
    && (w.swept ==> w.connected)
  }

  /** From the first batch of a login on the character is locked. */
  ghost predicate Keeps(w: World) {
    w.swept ==> Locked(w.registry, w.me)
  }

  /** What is handed over is known and recorded. */
  lemma {:induction false} HandOverHolds(r: Registry, s: State, handovers: seq<Handover>, teaches: map<nat, set<nat>>)
    requires s.granting == 0
    ensures var t := HandOver(r, s, handovers, teaches);
            && t.granting == 0 && t.granted == s.granted + Given(handovers) + HandedBy(r, handovers)
            && s.known + HandedBy(r, handovers) <= t.known
  {
    hide Grant, HandedOut, IsRandomized, Learn;
    if |handovers| > 0 {
      var but, h := handovers[..|handovers| - 1], handovers[|handovers| - 1];
      var t := HandOver(r, s, but, teaches);
      HandOverHolds(r, s, but, teaches);
      GrantGives(r, t, h.spell, teaches);
      MountHolds(r, Grant(r, t, h.spell, teaches), h.mounts, h.pick, teaches);
    }
  }

  lemma MountHolds(r: Registry, s: State, mounts: seq<nat>, pick: nat, teaches: map<nat, set<nat>>)
    ensures var t := Mount(r, s, mounts, pick, teaches);
            t.granting == s.granting && t.granted == s.granted && s.known <= t.known
  {
  }

  /** The rest that is learned is not the seed's. */
  lemma {:induction false} HandOverGives(r: Registry, s: State, handovers: seq<Handover>, teaches: map<nat, set<nat>>)
    requires s.granting == 0 && !IsRandomized(r, 0)
    ensures LearnsOnly(r, s, HandOver(r, s, handovers, teaches), HandedBy(r, handovers))
  {
    hide Grant, HandedOut, IsRandomized, Learn, LearnsOnly;
    if |handovers| > 0 {
      var but, h := handovers[..|handovers| - 1], handovers[|handovers| - 1];
      var t := HandOver(r, s, but, teaches);
      var u := Grant(r, t, h.spell, teaches);
      HandOverGives(r, s, but, teaches);
      HandOverHolds(r, s, but, teaches);
      GrantGives(r, t, h.spell, teaches);
      LearnsBoth(r, s, t, u, HandedBy(r, but), HandedOut(r, h.spell));
      MountGives(r, u, h.mounts, h.pick, teaches);
      LearnsBoth(r, s, u, Mount(r, u, h.mounts, h.pick, teaches), HandedBy(r, handovers), {});
    } else {
      LearnsNothing(r, s);
    }
  }

  lemma LearnsNothing(r: Registry, s: State)
    ensures LearnsOnly(r, s, s, {})
  {
  }

  lemma LearnsBoth(r: Registry, s: State, t: State, u: State, a: set<nat>, b: set<nat>)
    requires LearnsOnly(r, s, t, a) && LearnsOnly(r, t, u, b)
    ensures LearnsOnly(r, s, u, a + b) && a + {} == a
  {
  }

  /** A mount is an outside spell like any other: withheld ones do not come through. */
  lemma MountGives(r: Registry, s: State, mounts: seq<nat>, pick: nat, teaches: map<nat, set<nat>>)
    requires s.granting == 0 && !IsRandomized(r, 0)
    ensures LearnsOnly(r, s, Mount(r, s, mounts, pick, teaches), {})
  {
  }

  lemma StepKeepsInv(data: seq<Entry>, w: World, e: Event)
    requires Inv(data, w) && Enabled(w, e)
    ensures Inv(data, Next(data, w, e))
  {
    hide HandOver, HandedBy, Given, IsRandomized, Listed, Read;
    match e
    case Connect => ReadAgain(data);
    case Batch(handovers, teaches) => HandOverHolds(w.registry, w.me, handovers, teaches);
    case _ =>
  }

  lemma StepKeepsLock(data: seq<Entry>, w: World, e: Event)
    requires Sound(data) && Inv(data, w) && Keeps(w) && Enabled(w, e)
    ensures Keeps(Next(data, w, e))
  {
    hide HandOver, HandedBy, Given, Coherent, Listed, Read;
    match e
    case Connect => ReadAgain(data);
    case Batch(handovers, teaches) => SweepLocks(w.registry, HandOver(w.registry, w.me, handovers, teaches));
    case Attempt(spell, teaches) =>
      if w.swept {
        OutsideIff(w.registry, w.me, spell, teaches);
      }
    case _ =>
  }

  // ----- Whole runs -----

  /** A character that knows what it likes, before its first login. */
  function Start(known: set<nat>): World {
    World(EMPTY, State(known, {}, 0), false, false, {}, {})
  }

  ghost predicate IsRun(data: seq<Entry>, known: set<nat>, events: seq<Event>, worlds: seq<World>) {
    && |worlds| == |events| + 1 && worlds[0] == Start(known)
    && forall i :: 0 <= i < |events| ==> StepsTo(data, worlds[i], events[i], worlds[i + 1])
  }

  ghost predicate StepsTo(data: seq<Entry>, v: World, e: Event, w: World) {
    Enabled(v, e) && w == Next(data, v, e)
  }

  lemma {:induction false} RunKeeps(data: seq<Entry>, known: set<nat>, events: seq<Event>, worlds: seq<World>, n: nat)
    requires IsRun(data, known, events, worlds) && n < |worlds|
    ensures Inv(data, worlds[n])
    ensures Sound(data) ==> Keeps(worlds[n])
  {
    hide Sound, Next, Inv, Keeps;
    if n == 0 {
      StartKeeps(data, known);
    } else {
      RunKeeps(data, known, events, worlds, n - 1);
      assert StepsTo(data, worlds[n - 1], events[n - 1], worlds[n]);
      StepKeepsInv(data, worlds[n - 1], events[n - 1]);
      if Sound(data) {
        StepKeepsLock(data, worlds[n - 1], events[n - 1]);
      }
    }
  }

  lemma StartKeeps(data: seq<Entry>, known: set<nat>)
    ensures Inv(data, Start(known)) && Keeps(Start(known))
  {
  }

  /** For any slot data: after every batch the character knows all that the batch handed over, whatever
      it lost before, and no spell is left marked as being granted. */
  lemma BatchesHandOver(data: seq<Entry>, known: set<nat>, events: seq<Event>, worlds: seq<World>, n: nat)
    requires IsRun(data, known, events, worlds) && n < |events|
    ensures worlds[n + 1].me.granting == 0
    ensures events[n].Batch? ==> HandedBy(Read(EMPTY, data), events[n].handovers) <= worlds[n + 1].me.known
  {
    hide HandOver, HandedBy, Read, Listed;
    RunKeeps(data, known, events, worlds, n);
    RunKeeps(data, known, events, worlds, n + 1);
    assert StepsTo(data, worlds[n], events[n], worlds[n + 1]);
    if events[n].Batch? {
      HandOverHolds(worlds[n].registry, worlds[n].me, events[n].handovers, events[n].teaches);
    }
  }

  /** Whatever the character knew before it was bound to the slot: from the first batch of a login on
      it knows none of the seed's spells but what this login's grants handed over, whoever tries to
      teach it. */
  lemma LockHolds(data: seq<Entry>, known: set<nat>, events: seq<Event>, worlds: seq<World>, n: nat)
    requires Sound(data) && IsRun(data, known, events, worlds) && n < |worlds|
    ensures var w := worlds[n];
            w.swept ==>
              forall x :: x in w.me.known && IsRandomized(Read(EMPTY, data), x) ==> x in w.given || x in w.handed
  {
    hide Sound, Read, IsRun;
    RunKeeps(data, known, events, worlds, n);
  }

  ghost predicate AlwaysLocked(worlds: seq<World>) {
    forall n :: 0 <= n < |worlds| ==> Keeps(worlds[n])
  }

  /** The first batch of a character that knows one spell. */
  lemma FirstBatch(data: seq<Entry>, known: set<nat>) returns (events: seq<Event>, worlds: seq<World>)
    ensures IsRun(data, known, events, worlds) && events == [Connect, Batch([], map[])]
    ensures worlds[2] == World(Read(EMPTY, data), Sweep(Read(EMPTY, data), State(known, {}, 0)), true, true, {}, {})
  {
    hide Read, Sweep;
    events := [Connect, Batch([], map[])];
    var w1 := Next(data, Start(known), Connect);
    var w2 := Next(data, w1, events[1]);
    worlds := [Start(known), w1, w2];
  }

  lemma UnlistedStays(data: seq<Entry>, x: nat) returns (events: seq<Event>, worlds: seq<World>)
    requires x in Read(EMPTY, data).taught && !Listed(Read(EMPTY, data), x)
    ensures IsRun(data, {x}, events, worlds) && !AlwaysLocked(worlds)
  {
    hide Read, Listed, IsRun;
    events, worlds := FirstBatch(data, {x});
    assert |worlds| == 3 by { RunLength(data, {x}, events, worlds); }
    assert x in worlds[2].me.known && IsRandomized(worlds[2].registry, x);
    assert !Keeps(worlds[2]);
  }

  lemma RunLength(data: seq<Entry>, known: set<nat>, events: seq<Event>, worlds: seq<World>)
    requires IsRun(data, known, events, worlds)
    ensures |worlds| == |events| + 1
  {
  }

  lemma ZeroComes(data: seq<Entry>) returns (events: seq<Event>, worlds: seq<World>)
    requires IsRandomized(Read(EMPTY, data), 0)
    ensures IsRun(data, {}, events, worlds) && !AlwaysLocked(worlds)
  {
    hide Read, Listed;
    var e, w := FirstBatch(data, {});
    var attempt := Attempt(0, map[]);
    var w3 := Next(data, w[2], attempt);
    events, worlds := e + [attempt], w + [w3];
    forall i | 0 <= i < |events| ensures StepsTo(data, worlds[i], events[i], worlds[i + 1]) {
      if i < 2 {
        assert StepsTo(data, w[i], e[i], w[i + 1]);
      }
    }
    assert 0 in w3.me.known;
    assert !Keeps(worlds[3]);
  }

  /** Every run of every character keeps the lock exactly when the slot data is sound. */
  lemma RunsLockIff(data: seq<Entry>)
    ensures (forall known: set<nat>, events: seq<Event>, worlds: seq<World> ::
               IsRun(data, known, events, worlds) ==> AlwaysLocked(worlds))
            <==> Sound(data)
  {
    hide Read, Listed, IsRun, IsRandomized, AlwaysLocked;
    if Sound(data) {
      forall known: set<nat>, events: seq<Event>, worlds: seq<World> | IsRun(data, known, events, worlds)
        ensures AlwaysLocked(worlds)
      {
        RunLocked(data, known, events, worlds);
      }
    } else if !Coherent(Read(EMPTY, data)) {
      var x :| x in Read(EMPTY, data).taught && !Listed(Read(EMPTY, data), x);
      var events, worlds := UnlistedStays(data, x);
    } else {
      var events, worlds := ZeroComes(data);
    }
  }

  lemma RunLocked(data: seq<Entry>, known: set<nat>, events: seq<Event>, worlds: seq<World>)
    requires Sound(data) && IsRun(data, known, events, worlds)
    ensures AlwaysLocked(worlds)
  {
    hide Sound, IsRun, Keeps;
    forall n | 0 <= n < |worlds| ensures Keeps(worlds[n]) {
      RunKeeps(data, known, events, worlds, n);
    }
  }
}
