/** What the spell lock leaves alone and what it lets through: the slot data's own spells and no other are
    withheld, everything else stays with the character, and a riding rank comes with a mount. */
module SpellOutcomes {
  import opened Spells
  import opened SpellLock
  import opened SpellLockRuns

  // ----- What is withheld -----

  /** The i-th entry of the slot data names a spell, as its own or as one it teaches. */
  predicate NamedAt(data: seq<Entry>, i: nat, x: nat)
    requires i < |data|
  {
    SpellOf(data[i]) == x || x in TaughtBy(data[i])
  }

  /** A spell is withheld exactly when an entry of the slot data names it, and has an entry of its own
      exactly when one is for it. */
  lemma {:induction false} WithheldIff(data: seq<Entry>, x: nat)
    ensures IsRandomized(Read(EMPTY, data), x) <==> exists i :: 0 <= i < |data| && NamedAt(data, i, x)
    ensures HasEntryOfItsOwn(Read(EMPTY, data), x) <==> exists i :: 0 <= i < |data| && SpellOf(data[i]) == x
  {
    if |data| > 0 {
      var n := |data| - 1;
      WithheldIff(data[..n], x);
      assert IsRandomized(Read(EMPTY, data), x) <==> IsRandomized(Read(EMPTY, data[..n]), x) || NamedAt(data, n, x);
      assert forall i :: 0 <= i < n ==> NamedAt(data[..n], i, x) == NamedAt(data, i, x);
      if i :| 0 <= i < n && NamedAt(data[..n], i, x) {
        assert NamedAt(data, i, x);
      }
      if i :| 0 <= i < n && NamedAt(data, i, x) {
        assert NamedAt(data[..n], i, x);
      }
    }
  }

  /** What handing over a spell hands out is what its last entry says: what that teaches, less the spells
      with an entry of their own, or the spell itself if it teaches nothing. */
  lemma {:induction false} HandedOutIs(data: seq<Entry>, i: nat)
    requires i < |data| && forall j :: i < j < |data| ==> SpellOf(data[j]) != SpellOf(data[i])
    ensures var spell, taught := SpellOf(data[i]), TaughtBy(data[i]);
            forall x :: x in HandedOut(Read(EMPTY, data), spell) <==>
                          if taught == [] then x == spell
                          else x in taught && forall j :: 0 <= j < |data| ==> SpellOf(data[j]) != x
  {
    hide Read;
    LastEntry(data, i);
    forall x ensures HasEntryOfItsOwn(Read(EMPTY, data), x) <==> exists j :: 0 <= j < |data| && SpellOf(data[j]) == x {
      WithheldIff(data, x);
    }
  }

  lemma {:induction false} LastEntry(data: seq<Entry>, i: nat)
    requires i < |data| && forall j :: i < j < |data| ==> SpellOf(data[j]) != SpellOf(data[i])
    ensures TaughtOf(Read(EMPTY, data), SpellOf(data[i])) == TaughtBy(data[i])
    decreases |data|
  {
    var n := |data| - 1;
    if i < n {
      LastEntry(data[..n], i);
    }
  }

  lemma ListedIsWithheld(data: seq<Entry>, x: nat)
    requires Listed(Read(EMPTY, data), x)
    ensures IsRandomized(Read(EMPTY, data), x)
  {
    hide Read;
    var r := Read(EMPTY, data);
    if x !in r.bySpellId {
      var k :| k in r.bySpellId && x in r.bySpellId[k].taughtSpells;
      var i := EntryFrom(data, k);
      assert NamedAt(data, i, x);
      WithheldIff(data, x);
    }
  }

  // ----- What stays -----

  lemma StepLeaves(data: seq<Entry>, w: World, e: Event, x: nat)
    requires Inv(data, w) && Enabled(w, e) && x in w.me.known
    requires !IsRandomized(Read(EMPTY, data), x) || (x in w.me.granted && !e.Relog?)
    requires e.Lost? ==> x !in e.spells
    ensures x in Next(data, w, e).me.known
  {
    hide HandOver, HandedBy, Given, IsRandomized, Read, Listed;
    if e.Batch? {
      HandOverHolds(w.registry, w.me, e.handovers, e.teaches);
      if Listed(Read(EMPTY, data), x) {
        ListedIsWithheld(data, x);
      }
    }
  }

  /** A spell that no entry names is the character's to keep: no grant, sweep, connection or login takes it. */
  lemma {:induction false} OwnSpellsStay(data: seq<Entry>, known: set<nat>, events: seq<Event>, worlds: seq<World>,
                                         i: nat, n: nat, x: nat)
    requires IsRun(data, known, events, worlds) && i <= n < |worlds| && x in worlds[i].me.known
    requires forall j :: 0 <= j < |data| ==> !NamedAt(data, j, x)
    requires forall j :: i <= j < n && events[j].Lost? ==> x !in events[j].spells
    ensures x in worlds[n].me.known
    decreases n
  {
    hide Read, IsRandomized, Next;
    if i < n {
      OwnSpellsStay(data, known, events, worlds, i, n - 1, x);
      RunKeeps(data, known, events, worlds, n - 1);
      assert StepsTo(data, worlds[n - 1], events[n - 1], worlds[n]);
      WithheldIff(data, x);
      StepLeaves(data, worlds[n - 1], events[n - 1], x);
    }
  }

  lemma GrantedStays(data: seq<Entry>, w: World, e: Event)
    requires Inv(data, w) && Enabled(w, e) && !e.Relog?
    ensures w.me.granted <= Next(data, w, e).me.granted
  {
    hide HandOver, HandedBy, Given, Read, Listed;
    if e.Batch? {
      HandOverHolds(w.registry, w.me, e.handovers, e.teaches);
    }
  }

  /** What a login handed over stays known through all its sweeps and connections. */
  lemma {:induction false} HandedOverStays(data: seq<Entry>, known: set<nat>, events: seq<Event>, worlds: seq<World>,
                                           i: nat, n: nat, x: nat)
    requires IsRun(data, known, events, worlds) && i <= n < |worlds|
    requires x in worlds[i].me.known && (x in worlds[i].given || x in worlds[i].handed)
    requires forall j :: i <= j < n ==> !events[j].Relog? && (events[j].Lost? ==> x !in events[j].spells)
    ensures x in worlds[n].me.known && x in worlds[n].me.granted
    decreases n
  {
    hide Read, IsRandomized, Next;
    RunKeeps(data, known, events, worlds, i);
    if i < n {
      HandedOverStays(data, known, events, worlds, i, n - 1, x);
      RunKeeps(data, known, events, worlds, n - 1);
      assert StepsTo(data, worlds[n - 1], events[n - 1], worlds[n]);
      StepLeaves(data, worlds[n - 1], events[n - 1], x);
      GrantedStays(data, worlds[n - 1], events[n - 1]);
    }
  }

  // ----- Mounts -----

  predicate KnowsOne(s: State, mounts: seq<nat>) {
    exists i :: 0 <= i < |mounts| && mounts[i] in s.known
  }

  /** What the hook lets past from outside. */
  predicate Passes(r: Registry, x: nat) {
    x == 0 || !IsRandomized(r, x)
  }

  /** A rank's mount is there afterwards exactly when one was there already or the hook lets the one drawn
      past; nothing but that one and what the core teaches along is learned, and never a second one. */
  lemma MountIff(r: Registry, s: State, mounts: seq<nat>, pick: nat, teaches: map<nat, set<nat>>)
    requires s.granting == 0
    ensures var t := Mount(r, s, mounts, pick, teaches);
            && (KnowsOne(t, mounts) <==>
                KnowsOne(s, mounts) || (|mounts| > 0 && Passes(r, mounts[pick % |mounts|])))
            && (KnowsOne(s, mounts) ==> t == s)
            && s.known <= t.known
            && (forall x :: x in t.known && x !in s.known ==>
                  |mounts| > 0 && Passes(r, x)
                  && (x == mounts[pick % |mounts|] || x in Teaches(teaches, mounts[pick % |mounts|])))
  {
    hide IsRandomized, Teaches;
    if |mounts| > 0 {
      var drawn := mounts[pick % |mounts|];
      assert CanLearn(r, s, drawn) <==> Passes(r, drawn);
      assert !KnowsOne(s, mounts) && Passes(r, drawn) ==> drawn in Mount(r, s, mounts, pick, teaches).known;
    }
  }

  /** A rank handed over anywhere in a batch leaves the character on a mount of it. */
  lemma {:induction false} HandOverMounts(r: Registry, s: State, handovers: seq<Handover>,
                                          teaches: map<nat, set<nat>>, k: nat)
    requires s.granting == 0 && k < |handovers| && |handovers[k].mounts| > 0
    requires forall i :: 0 <= i < |handovers[k].mounts| ==> !IsRandomized(r, handovers[k].mounts[i])
    ensures KnowsOne(HandOver(r, s, handovers, teaches), handovers[k].mounts)
    decreases |handovers|
  {
    hide Grant, HandedOut, IsRandomized, Mount;
    var but, h := handovers[..|handovers| - 1], handovers[|handovers| - 1];
    var t := HandOver(r, s, but, teaches);
    HandOverHolds(r, s, but, teaches);
    GrantGives(r, t, h.spell, teaches);
    var u := Grant(r, t, h.spell, teaches);
    MountIff(r, u, h.mounts, h.pick, teaches);
    if k < |but| {
      HandOverMounts(r, s, but, teaches, k);
    }
  }

  /** Over any run: after a batch the character knows a mount of every rank the batch handed over. */
  lemma RidersAreMounted(data: seq<Entry>, known: set<nat>, events: seq<Event>, worlds: seq<World>, n: nat, k: nat)
    requires IsRun(data, known, events, worlds) && n < |events| && events[n].Batch?
    requires k < |events[n].handovers| && |events[n].handovers[k].mounts| > 0
    requires var mounts := events[n].handovers[k].mounts;
             forall i :: 0 <= i < |mounts| ==> !IsRandomized(Read(EMPTY, data), mounts[i])
    ensures KnowsOne(worlds[n + 1].me, events[n].handovers[k].mounts)
  {
    hide HandOver, HandedBy, Given, Read, Listed, IsRandomized;
    var w, e := worlds[n], events[n];
    var mounts := e.handovers[k].mounts;
    RunKeeps(data, known, events, worlds, n);
    assert StepsTo(data, w, e, worlds[n + 1]);
    HandOverMounts(w.registry, w.me, e.handovers, e.teaches, k);
    var i :| 0 <= i < |mounts| && mounts[i] in HandOver(w.registry, w.me, e.handovers, e.teaches).known;
    if Listed(Read(EMPTY, data), mounts[i]) {
      ListedIsWithheld(data, mounts[i]);
      assert false;
    }
  }

  // ----- What is learned from outside -----

  /** Over any run, once connected: an attempt from outside teaches its spell exactly when no entry names it
      or it is spell 0, and takes nothing away. */
  lemma AttemptTeaches(data: seq<Entry>, known: set<nat>, events: seq<Event>, worlds: seq<World>, n: nat)
    requires IsRun(data, known, events, worlds) && n < |events| && events[n].Attempt? && worlds[n].connected
    ensures var x := events[n].spell;
            x in worlds[n + 1].me.known <==>
            x in worlds[n].me.known || x == 0 || forall i :: 0 <= i < |data| ==> !NamedAt(data, i, x)
    ensures worlds[n].me.known <= worlds[n + 1].me.known
  {
    hide Read, IsRandomized, Teaches;
    RunKeeps(data, known, events, worlds, n);
    assert StepsTo(data, worlds[n], events[n], worlds[n + 1]);
    WithheldIff(data, events[n].spell);
  }
}
