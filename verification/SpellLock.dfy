/** Keeping the seed's spells out of the character's hands until the multiworld hands them over. */
module SpellLock {
  import opened Spells

  /** `known` is what the character knows; `granted` belongs to the login. */
  datatype State = State(known: set<nat>, granted: set<nat>, granting: nat)

  /** The hook: asked about every spell on its way to the character. */
  predicate CanLearn(r: Registry, s: State, spell: nat) {
    spell == s.granting || !IsRandomized(r, spell)
  }

  /** What the core goes on to teach with a spell. */
  function Teaches(teaches: map<nat, set<nat>>, spell: nat): set<nat> {
    if spell in teaches then teaches[spell] else {}
  }

  function Learn(r: Registry, s: State, spell: nat, teaches: map<nat, set<nat>>): State {
    if !CanLearn(r, s, spell) then s
    else s.(known := s.known + {spell} + Allowed(r, s, Teaches(teaches, spell)))
  }

  function Allowed(r: Registry, s: State, spells: set<nat>): set<nat> {
    set x | x in spells && CanLearn(r, s, x)
  }

  function LearnGranted(r: Registry, s: State, spell: nat, teaches: map<nat, set<nat>>): State {
    if spell in s.known then s else Learn(r, s.(granting := spell), spell, teaches).(granting := 0)
  }

  function TaughtOf(r: Registry, spell: nat): seq<nat> {
    if spell in r.bySpellId then r.bySpellId[spell].taughtSpells else []
  }

  function GrantTaught(r: Registry, s: State, list: seq<nat>, teaches: map<nat, set<nat>>): State {
    if |list| == 0 then s
    else
      var t := GrantTaught(r, s, list[..|list| - 1], teaches);
      var spell := list[|list| - 1];
      if HasEntryOfItsOwn(r, spell) then t else LearnGranted(r, t.(granted := t.granted + {spell}), spell, teaches)
  }

  function Grant(r: Registry, s: State, spell: nat, teaches: map<nat, set<nat>>): State {
    var s := s.(granted := s.granted + {spell});
    if TaughtOf(r, spell) == [] then LearnGranted(r, s, spell, teaches)
    else GrantTaught(r, s, TaughtOf(r, spell), teaches)
  }

  /** A rank's mount, one of those `mounts` lists, unless the character knows one already. */
  function Mount(r: Registry, s: State, mounts: seq<nat>, pick: nat, teaches: map<nat, set<nat>>): State {
    if |mounts| == 0 || exists i :: 0 <= i < |mounts| && mounts[i] in s.known then s
    else Learn(r, s, mounts[pick % |mounts|], teaches)
  }

  ghost function Sweep(r: Registry, s: State): State {
    s.(known := set x | x in s.known && (x in s.granted || !Listed(r, x)))
  }

  // ----- What the lock is -----

  ghost predicate Locked(r: Registry, s: State) {
    forall x :: x in s.known && IsRandomized(r, x) ==> x in s.granted
  }

  /** What handing over a spell puts in the character's hands: the spell, or instead of a wrapper what
      it teaches, less anything with an entry of its own. */
  function HandedOut(r: Registry, spell: nat): set<nat> {
    if TaughtOf(r, spell) == [] then {spell} else Unlisted(r, TaughtOf(r, spell))
  }

  function Unlisted(r: Registry, list: seq<nat>): set<nat> {
    set x | x in list && !HasEntryOfItsOwn(r, x)
  }

  /** Of the seed's spells, `t` knows what `s` knew and `more`, and nothing the character knew is lost. */
  ghost predicate LearnsOnly(r: Registry, s: State, t: State, more: set<nat>) {
    && s.known + more <= t.known
    && (forall x :: x in t.known && IsRandomized(r, x) ==> x in s.known || x in more)
  }

  lemma LearnGrantedIs(r: Registry, s: State, spell: nat, teaches: map<nat, set<nat>>)
    requires s.granting == 0
    ensures var t := LearnGranted(r, s, spell, teaches);
            t.granting == 0 && t.granted == s.granted && LearnsOnly(r, s, t, {spell})
  {
  }

  lemma {:induction false} GrantTaughtIs(r: Registry, s: State, list: seq<nat>, teaches: map<nat, set<nat>>)
    requires s.granting == 0
    ensures var t := GrantTaught(r, s, list, teaches);
            t.granting == 0 && t.granted == s.granted + Unlisted(r, list) && LearnsOnly(r, s, t, Unlisted(r, list))
  {
    hide LearnGranted, Teaches, IsRandomized;
    if |list| > 0 {
      var but, spell := list[..|list| - 1], list[|list| - 1];
      var t := GrantTaught(r, s, but, teaches);
      GrantTaughtIs(r, s, but, teaches);
      assert list == but + [spell];
      if HasEntryOfItsOwn(r, spell) {
        assert Unlisted(r, list) == Unlisted(r, but);
      } else {
        assert Unlisted(r, list) == Unlisted(r, but) + {spell};
        LearnGrantedIs(r, t.(granted := t.granted + {spell}), spell, teaches);
      }
    }
  }

  /** A grant hands out exactly what it should: of the seed's spells nothing else is learned, whatever
      the core goes on to teach, and all of it is recorded. */
  lemma GrantGives(r: Registry, s: State, spell: nat, teaches: map<nat, set<nat>>)
    requires s.granting == 0
    ensures var t := Grant(r, s, spell, teaches);
            && t.granting == 0 && t.granted == s.granted + {spell} + HandedOut(r, spell)
            && LearnsOnly(r, s, t, HandedOut(r, spell))
  {
    hide LearnGranted, GrantTaught, IsRandomized;
    var s' := s.(granted := s.granted + {spell});
    if TaughtOf(r, spell) == [] {
      LearnGrantedIs(r, s', spell, teaches);
    } else {
      GrantTaughtIs(r, s', TaughtOf(r, spell), teaches);
    }
  }

  lemma GrantKeepsLock(r: Registry, s: State, spell: nat, teaches: map<nat, set<nat>>)
    requires s.granting == 0 && Locked(r, s)
    ensures Locked(r, Grant(r, s, spell, teaches)) && Grant(r, s, spell, teaches).granting == 0
  {
    hide Grant, HandedOut, IsRandomized;
    GrantGives(r, s, spell, teaches);
  }

  /** Spell 0 is what the hook takes for the spell being granted when none is, so the lock holds
      against an outside attempt exactly when the attempt does not bring a withheld spell 0. */
  lemma OutsideIff(r: Registry, s: State, spell: nat, teaches: map<nat, set<nat>>)
    requires s.granting == 0 && Locked(r, s)
    ensures Locked(r, Learn(r, s, spell, teaches)) <==>
            !(CanLearn(r, s, spell) && (spell == 0 || 0 in Teaches(teaches, spell)) && IsRandomized(r, 0)
              && 0 !in s.granted)
  {
    var t := Learn(r, s, spell, teaches);
    if CanLearn(r, s, spell) && (spell == 0 || 0 in Teaches(teaches, spell)) {
      assert 0 in t.known;
    }
  }

  lemma SpellZeroPasses()
    ensures var r := Add(EMPTY, TrainerSpell(0, 0));
            var s := State({}, {}, 0);
            Locked(r, s) && !Locked(r, Learn(r, s, 0, map[]))
  {
    OutsideIff(Add(EMPTY, TrainerSpell(0, 0)), State({}, {}, 0), 0, map[]);
  }

  /** A sweep locks the character whatever it knew, exactly when every spell a wrapper was registered
      with is still listed by an entry. */
  lemma SweepLocksIff(r: Registry)
    ensures (forall s :: Locked(r, Sweep(r, s))) <==> Coherent(r)
  {
    hide Listed;
    if Coherent(r) {
      forall s ensures Locked(r, Sweep(r, s)) {
        SweepLocks(r, s);
      }
    } else {
      var x :| x in r.taught && !Listed(r, x);
      var s := State({x}, {}, 0);
      assert x in Sweep(r, s).known && IsRandomized(r, x);
      assert !Locked(r, Sweep(r, s));
    }
  }

  lemma SweepLocks(r: Registry, s: State)
    requires Coherent(r)
    ensures Locked(r, Sweep(r, s))
  {
    forall x | x in Sweep(r, s).known && IsRandomized(r, x) ensures x in s.granted {
      if x in r.bySpellId {
        assert Listed(r, x);
      }
    }
  }

  /** Two items of one wrapper, the second with an empty list: what the first would teach is withheld,
      but the sweep no longer finds it. */
  lemma SweepMisses()
    ensures var r := Read(EMPTY, [ItemSpell(SpellItem(1, 10, 0, [7])), ItemSpell(SpellItem(2, 10, 0, []))]);
            var s := State({7}, {}, 0);
            IsRandomized(r, 7) && 7 in Sweep(r, s).known && !Locked(r, Sweep(r, s))
  {
    var one := [ItemSpell(SpellItem(1, 10, 0, [7]))];
    var data := one + [ItemSpell(SpellItem(2, 10, 0, []))];
    assert data == [ItemSpell(SpellItem(1, 10, 0, [7])), ItemSpell(SpellItem(2, 10, 0, []))];
    assert data[..1] == one && one[..0] == [];
    var first := Add(EMPTY, data[0]);
    assert Read(EMPTY, one) == first;
    var r := Add(first, data[1]);
    assert Read(EMPTY, data) == r;
    assert 7 in Members([7]) && r.bySpellId == map[10 := SpellItem(2, 10, 0, [])];
    assert !Listed(r, 7);
  }

  // ----- The class -----

  /** The hook's answer does not depend on what is known. */
  lemma AllowedMore(r: Registry, s: State, spells: set<nat>, x: nat)
    ensures Allowed(r, s, spells + {x}) == Allowed(r, s, spells) + if CanLearn(r, s, x) then {x} else {}
    ensures forall known :: CanLearn(r, s.(known := known), x) == CanLearn(r, s, x)
  {
  }

  class Character {
    const spells: Container
    var known: set<nat>
    var grantedSpells: set<nat>
    var grantingSpell: nat

    ghost function R(): Registry
      reads this, spells
    {
      spells.Abs()
    }

    ghost function Abs(): State
      reads this
    {
      State(known, grantedSpells, grantingSpell)
    }

    /** A login with what the character knows. */
    constructor (known: set<nat>)
      ensures R() == EMPTY && Abs() == State(known, {}, 0)
    {
      spells := new Container();
      this.known, grantedSpells, grantingSpell := known, {}, 0;
    }

    method OnPlayerCanLearnSpell(spellId: nat) returns (allowed: bool)
      ensures allowed == CanLearn(R(), Abs(), spellId)
    {
      allowed := spellId == grantingSpell || !(spellId in spells.bySpellId || spellId in spells.taught);
    }

    /** The core's part: it asks the hook about the spell, then about each one that comes with it. */
    method LearnSpell(spellId: nat, teaches: map<nat, set<nat>>)
      modifies this`known
      ensures Abs() == Learn(R(), old(Abs()), spellId, teaches)
    {
      var allowed := OnPlayerCanLearnSpell(spellId);
      if !allowed {
        return;
      }
      known := known + {spellId};
      var left := Teaches(teaches, spellId);
      ghost var before, start := old(Abs()), known;
      while left != {}
        invariant left <= Teaches(teaches, spellId)
        invariant known == start + Allowed(R(), before, Teaches(teaches, spellId) - left)
        decreases |left|
      {
        var x :| x in left;
        ghost var done := Teaches(teaches, spellId) - left;
        left := left - {x};
        assert Teaches(teaches, spellId) - left == done + {x};
        var too := OnPlayerCanLearnSpell(x);
        AllowedMore(R(), before, done, x);
        if too {
          known := known + {x};
        }
      }
      assert Teaches(teaches, spellId) - left == Teaches(teaches, spellId);
    }

    method LearnGrantedSpell(spellId: nat, teaches: map<nat, set<nat>>)
      modifies this`known, this`grantingSpell
      ensures Abs() == LearnGranted(R(), old(Abs()), spellId, teaches)
    {
      if spellId in known {
        return;
      }
      grantingSpell := spellId;
      LearnSpell(spellId, teaches);
      grantingSpell := 0;
    }

    method GrantSpell(spellId: nat, teaches: map<nat, set<nat>>)
      modifies this
      ensures Abs() == Grant(R(), old(Abs()), spellId, teaches)
    {
      hide LearnGranted;
      grantedSpells := grantedSpells + {spellId};
      var taughtSpells := if spellId in spells.bySpellId then spells.bySpellId[spellId].taughtSpells else [];
      if |taughtSpells| == 0 {
        LearnGrantedSpell(spellId, teaches);
        return;
      }
      ghost var before := Abs();
      for i := 0 to |taughtSpells|
        invariant Abs() == GrantTaught(R(), before, taughtSpells[..i], teaches)
      {
        assert taughtSpells[..i + 1][..i] == taughtSpells[..i];
        if taughtSpells[i] !in spells.bySpellId {
          grantedSpells := grantedSpells + {taughtSpells[i]};
          LearnGrantedSpell(taughtSpells[i], teaches);
        }
      }
      assert taughtSpells[..|taughtSpells|] == taughtSpells;
    }

    method GrantRidingMount(mounts: seq<nat>, pick: nat, teaches: map<nat, set<nat>>)
      modifies this`known
      ensures Abs() == Mount(R(), old(Abs()), mounts, pick, teaches)
    {
      for i := 0 to |mounts|
        invariant forall j :: 0 <= j < i ==> mounts[j] !in known
      {
        if mounts[i] in known {
          return;
        }
      }
      if |mounts| > 0 {
        LearnSpell(mounts[pick % |mounts|], teaches);
      }
    }

    method RemoveSpellIfUngranted(spellId: nat)
      modifies this`known
      ensures known == if spellId in grantedSpells then old(known) else old(known) - {spellId}
    {
      if spellId in grantedSpells || spellId !in known {
        return;
      }
      known := known - {spellId};
    }

    method RemoveEntry(k: nat)
      requires k in spells.bySpellId
      modifies this`known
      ensures forall x ::
                x in known <==>
                x in old(known) && (x in grantedSpells || !(x == k || x in spells.bySpellId[k].taughtSpells))
    {
      RemoveSpellIfUngranted(k);
      var taughtSpells := spells.bySpellId[k].taughtSpells;
      for i := 0 to |taughtSpells|
        invariant forall x ::
                    x in known <==> x in old(known) && (x in grantedSpells || !(x == k || x in taughtSpells[..i]))
      {
        assert taughtSpells[..i + 1] == taughtSpells[..i] + [taughtSpells[i]];
        RemoveSpellIfUngranted(taughtSpells[i]);
      }
      assert taughtSpells[..|taughtSpells|] == taughtSpells;
    }

    /** The entries come in whatever order the map keeps them. */
    method RemoveUngrantedSpells()
      modifies this`known
      ensures Abs() == Sweep(R(), old(Abs()))
    {
      hide ListedBy;
      ghost var before := known;
      var left := spells.bySpellId.Keys;
      ListedByNone(R());
      while left != {}
        invariant left <= spells.bySpellId.Keys
        invariant var done := spells.bySpellId.Keys - left;
                  forall x :: x in known <==> x in before && (x in grantedSpells || !ListedBy(R(), done, x))
        decreases |left|
      {
        var k :| k in left;
        ghost var done := spells.bySpellId.Keys - left;
        left := left - {k};
        RemoveEntry(k);
        ListedByMore(R(), done, k);
        assert spells.bySpellId.Keys - left == done + {k};
      }
      assert spells.bySpellId.Keys - left == spells.bySpellId.Keys;
      ListedByAll(R());
    }
  }

  lemma ListedByNone(r: Registry)
    ensures forall x :: !ListedBy(r, r.bySpellId.Keys - r.bySpellId.Keys, x)
  {
  }

  lemma ListedByAll(r: Registry)
    ensures forall x :: ListedBy(r, r.bySpellId.Keys, x) <==> Listed(r, x)
  {
  }

  /** Listed by one of the entries at `keys`. */
  ghost predicate ListedBy(r: Registry, keys: set<nat>, x: nat)
    requires keys <= r.bySpellId.Keys
  {
    x in keys || exists k :: k in keys && x in r.bySpellId[k].taughtSpells
  }

  lemma ListedByMore(r: Registry, keys: set<nat>, k: nat)
    requires keys <= r.bySpellId.Keys && k in r.bySpellId
    ensures forall x ::
              ListedBy(r, keys + {k}, x) <==> ListedBy(r, keys, x) || x == k || x in r.bySpellId[k].taughtSpells
  {
    forall x
      ensures ListedBy(r, keys + {k}, x) <==> ListedBy(r, keys, x) || x == k || x in r.bySpellId[k].taughtSpells
    {
      if x in r.bySpellId[k].taughtSpells {
        assert k in keys + {k};
      }
      if j :| j in keys && x in r.bySpellId[j].taughtSpells {
        assert j in keys + {k};
      }
    }
  }
}
