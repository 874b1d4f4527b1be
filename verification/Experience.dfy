/** Archipelago levels: experience carried over any table of requirements, and the level checks made
    on the way. */
module Experience {
  /** The character's level and its experience towards the next one. */
  datatype State = State(level: nat, exp: nat)

  const UINT8 := 0x100
  const UINT32 := 0x1_0000_0000

  /** What a level takes, 0 from the table's end on. */
  function XpFor(table: seq<nat>, level: nat): nat {
    if level < |table| then table[level] else 0
  }

  predicate Carries(table: seq<nat>, s: State) {
    XpFor(table, s.level) > 0 && s.exp >= XpFor(table, s.level)
  }

  function Carry(table: seq<nat>, s: State): State
    decreases s.exp
  {
    if Carries(table, s) then Carry(table, State((s.level + 1) % UINT8, s.exp - XpFor(table, s.level))) else s
  }

  function Give(table: seq<nat>, s: State, xp: nat): State {
    Carry(table, s.(exp := (s.exp + xp) % UINT32))
  }

  /** The realm's table stops at its level cap, which leaves the highest level without a requirement. */
  predicate IsTable(table: seq<nat>) {
    |table| < UINT8
  }

  /** What it takes to climb from `low` to `high`. */
  function Climb(table: seq<nat>, low: nat, high: nat): nat
    requires low <= high
    decreases high - low
  {
    if low == high then 0 else XpFor(table, low) + Climb(table, low + 1, high)
  }

  /** Every level from `low` up to `high` has a requirement. */
  predicate Unbroken(table: seq<nat>, low: nat, high: nat) {
    forall l :: low <= l < high ==> XpFor(table, l) > 0
  }

  /** All the experience a level and its remainder stand for. */
  function Total(table: seq<nat>, s: State): nat {
    Climb(table, 0, s.level) + s.exp
  }

  lemma {:induction false} ClimbSplits(table: seq<nat>, low: nat, middle: nat, high: nat)
    requires low <= middle <= high
    ensures Climb(table, low, high) == Climb(table, low, middle) + Climb(table, middle, high)
    decreases middle - low
  {
    if low < middle {
      ClimbSplits(table, low + 1, middle, high);
    }
  }

  /** The loop only climbs, keeps the experience it is given, and stops with less than the next level
      takes or at a level that takes none. */
  lemma {:induction false} CarryKeeps(table: seq<nat>, s: State)
    requires IsTable(table) && s.level < UINT8
    ensures var t := Carry(table, s);
            && s.level <= t.level < UINT8
            && Climb(table, s.level, t.level) + t.exp == s.exp
            && Unbroken(table, s.level, t.level)
            && (t.exp < XpFor(table, t.level) || XpFor(table, t.level) == 0)
    decreases s.exp
  {
    if Carries(table, s) {
      CarryKeeps(table, State(s.level + 1, s.exp - XpFor(table, s.level)));
    }
  }

  /** The level reached, without the loop: a level is reached exactly when every level before it has a
      requirement and the experience covers them all. */
  lemma ReachedIff(table: seq<nat>, s: State, level: nat)
    requires IsTable(table) && s.level <= level < UINT8
    ensures level <= Carry(table, s).level <==> Unbroken(table, s.level, level) && Climb(table, s.level, level) <= s.exp
  {
    hide Carry;
    var t := Carry(table, s);
    CarryKeeps(table, s);
    if level <= t.level {
      ClimbSplits(table, s.level, level, t.level);
    } else if Unbroken(table, s.level, level) {
      ClimbSplits(table, s.level, t.level, level);
      ClimbSplits(table, t.level, t.level + 1, level);
    }
  }

  /** Experience is neither lost nor made, exactly when adding it does not pass 32 bits. */
  lemma ConservedIff(table: seq<nat>, s: State, xp: nat)
    requires IsTable(table) && s.level < UINT8
    requires s.exp < UINT32 && xp < UINT32
    ensures Total(table, Give(table, s, xp)) == Total(table, s) + xp <==> s.exp + xp < UINT32
  {
    hide Carry;
    var sum := s.(exp := (s.exp + xp) % UINT32);
    var t := Carry(table, sum);
    CarryKeeps(table, sum);
    ClimbSplits(table, 0, s.level, t.level);
  }

  /** A gain that fills 32 bits to the last: the bar is empty and no level is reached. */
  lemma OverflowLoses()
    ensures Give([0, 400], State(1, 100), UINT32 - 100) == State(1, 0)
    ensures Total([0, 400], State(1, 0)) < Total([0, 400], State(1, 100)) + UINT32 - 100
  {
    ConservedIff([0, 400], State(1, 100), UINT32 - 100);
  }

  /** Carrying a part first changes nothing. */
  lemma {:induction false} CarryThenMore(table: seq<nat>, s: State, more: nat)
    requires IsTable(table) && s.level < UINT8
    ensures var t := Carry(table, s); Carry(table, t.(exp := t.exp + more)) == Carry(table, s.(exp := s.exp + more))
    decreases s.exp
  {
    if Carries(table, s) {
      CarryThenMore(table, State(s.level + 1, s.exp - XpFor(table, s.level)), more);
    }
  }

  /** However experience is handed out in parts, the level and the remainder come out the same. */
  lemma GiveInParts(table: seq<nat>, s: State, a: nat, b: nat)
    requires IsTable(table) && s.level < UINT8 && s.exp + a + b < UINT32
    ensures Give(table, Give(table, s, a), b) == Give(table, s, a + b)
  {
    hide Carry;
    CarryKeeps(table, s.(exp := s.exp + a));
    CarryThenMore(table, s.(exp := s.exp + a), b);
  }

  /** What is kept of a gain: all but what passes 32 bits. */
  lemma GiveTotal(table: seq<nat>, s: State, xp: nat)
    requires IsTable(table) && s.level < UINT8
    ensures var t := Give(table, s, xp);
            && s.level <= t.level < UINT8 && Unbroken(table, s.level, t.level)
            && (t.exp < XpFor(table, t.level) || XpFor(table, t.level) == 0)
            && Total(table, t) == Total(table, s) + xp - (s.exp + xp) / UINT32 * UINT32
  {
    hide Carry;
    var sum := s.(exp := (s.exp + xp) % UINT32);
    CarryKeeps(table, sum);
    ClimbSplits(table, 0, s.level, Carry(table, sum).level);
  }

  /** Two ends of the loop that stand for the same experience are the same. */
  lemma SameEnd(table: seq<nat>, low: nat, t: State, u: State)
    requires low <= t.level <= u.level && Unbroken(table, low, u.level)
    requires t.exp < XpFor(table, t.level) || XpFor(table, t.level) == 0
    requires Total(table, t) == Total(table, u)
    ensures t == u
  {
    ClimbSplits(table, 0, t.level, u.level);
  }

  /** Handing out a gain in two parts comes out the same exactly when the parts pass 32 bits as often
      as the whole does. */
  lemma PartsIff(table: seq<nat>, s: State, a: nat, b: nat)
    requires IsTable(table) && s.level < UINT8
    ensures var middle := Give(table, s, a);
            Give(table, middle, b) == Give(table, s, a + b)
            <==> (s.exp + a) / UINT32 + (middle.exp + b) / UINT32 == (s.exp + a + b) / UINT32
  {
    hide Give, Climb;
    var middle := Give(table, s, a);
    GiveTotal(table, s, a);
    GiveTotal(table, middle, b);
    GiveTotal(table, s, a + b);
    var t, u := Give(table, middle, b), Give(table, s, a + b);
    if Total(table, t) == Total(table, u) {
      if t.level <= u.level {
        SameEnd(table, s.level, t, u);
      } else {
        SameEnd(table, s.level, u, t);
      }
    }
  }

  // ----- The level checks -----

  /** The checks of the levels after `low` up to `high`, in order. */
  function ChecksBetween(locations: map<nat, int>, low: nat, high: nat): seq<int>
    requires low <= high
  {
    if low == high then []
    else ChecksBetween(locations, low, high - 1) + if high in locations then [locations[high]] else []
  }

  lemma {:induction false} ChecksJoin(locations: map<nat, int>, low: nat, middle: nat, high: nat)
    requires low <= middle <= high
    ensures ChecksBetween(locations, low, high)
            == ChecksBetween(locations, low, middle) + ChecksBetween(locations, middle, high)
  {
    if middle < high {
      ChecksJoin(locations, low, middle, high - 1);
    }
  }

  lemma CarryStep(table: seq<nat>, s: State)
    requires IsTable(table) && Carries(table, s)
    ensures s.level + 1 < UINT8 && Carry(table, s) == Carry(table, State(s.level + 1, s.exp - XpFor(table, s.level)))
  {
  }

  lemma CarryDone(table: seq<nat>, s: State)
    requires !Carries(table, s)
    ensures Carry(table, s) == s
  {
  }

  class Character {
    const table: seq<nat>
    const levels: map<nat, int>
    var apLevel: nat
    var apExp: nat
    var xpForLevel: nat
    ghost var checks: seq<int>

    ghost predicate Valid()
      reads this
    {
      IsTable(table) && apLevel < UINT8 && apExp < UINT32 && xpForLevel == XpFor(table, apLevel)
    }

    ghost function Abs(): State
      reads this
    {
      State(apLevel, apExp)
    }

    constructor (table: seq<nat>, levels: map<nat, int>, apLevel: nat, apExp: nat)
      requires IsTable(table) && apLevel < UINT8 && apExp < UINT32
      ensures Valid() && this.table == table && this.levels == levels
      ensures Abs() == State(apLevel, apExp) && checks == []
    {
      this.table, this.levels, this.apLevel, this.apExp, checks := table, levels, apLevel, apExp, [];
      xpForLevel := XpFor(table, apLevel);
    }

    method GiveArchipelagoExperience(xp: nat)
      requires Valid() && xp < UINT32
      modifies this
      ensures Valid()
      ensures Abs() == Give(table, old(Abs()), xp)
      ensures old(apLevel) <= apLevel && checks == old(checks) + ChecksBetween(levels, old(apLevel), apLevel)
    {
      hide Carry;
      apExp := (apExp + xp) % UINT32;
      while xpForLevel > 0 && apExp >= xpForLevel
        invariant Valid() && old(apLevel) <= apLevel
        invariant Carry(table, Abs()) == Give(table, old(Abs()), xp)
        invariant checks == old(checks) + ChecksBetween(levels, old(apLevel), apLevel)
        decreases apExp
      {
        ghost var before := Abs();
        apLevel := (apLevel + 1) % UINT8;
        apExp := apExp - xpForLevel;
        if apLevel in levels {
          checks := checks + [levels[apLevel]];
        }
        xpForLevel := XpFor(table, apLevel);
        CarryStep(table, before);
      }
      CarryDone(table, Abs());
    }
  }

  // ----- Runs -----

  function GiveAll(table: seq<nat>, s: State, xps: seq<nat>): State {
    if |xps| == 0 then s else Give(table, GiveAll(table, s, xps[..|xps| - 1]), xps[|xps| - 1])
  }

  /** What the gains of a run make the character check. */
  ghost function ChecksOf(table: seq<nat>, locations: map<nat, int>, s: State, xps: seq<nat>): seq<int>
    requires IsTable(table) && s.level < UINT8
  {
    if |xps| == 0 then []
    else
      var before := GiveAll(table, s, xps[..|xps| - 1]);
      LevelsRise(table, s, xps[..|xps| - 1]);
      LevelsRise(table, s, xps);
      ChecksOf(table, locations, s, xps[..|xps| - 1])
      + ChecksBetween(locations, before.level, GiveAll(table, s, xps).level)
  }

  lemma {:induction false} LevelsRise(table: seq<nat>, s: State, xps: seq<nat>)
    requires IsTable(table) && s.level < UINT8
    ensures s.level <= GiveAll(table, s, xps).level < UINT8
    ensures |xps| > 0 ==> GiveAll(table, s, xps[..|xps| - 1]).level <= GiveAll(table, s, xps).level
  {
    if |xps| > 0 {
      var before := GiveAll(table, s, xps[..|xps| - 1]);
      LevelsRise(table, s, xps[..|xps| - 1]);
      CarryKeeps(table, before.(exp := (before.exp + xps[|xps| - 1]) % UINT32));
    }
  }

  /** Over any gains, the checks made are those of the levels passed, each once and in order. */
  lemma {:induction false} ChecksOnce(table: seq<nat>, locations: map<nat, int>, s: State, xps: seq<nat>)
    requires IsTable(table) && s.level < UINT8
    ensures s.level <= GiveAll(table, s, xps).level
    ensures ChecksOf(table, locations, s, xps) == ChecksBetween(locations, s.level, GiveAll(table, s, xps).level)
  {
    hide Give;
    LevelsRise(table, s, xps);
    if |xps| > 0 {
      var but := xps[..|xps| - 1];
      ChecksOnce(table, locations, s, but);
      ChecksJoin(locations, s.level, GiveAll(table, s, but).level, GiveAll(table, s, xps).level);
    }
  }

  /** The levels whose checks are made: those passed that have a location, each once, from the first up. */
  ghost predicate LevelsChecked(locations: map<nat, int>, low: nat, high: nat, levels: seq<nat>) {
    && (forall i, j :: 0 <= i < j < |levels| ==> levels[i] < levels[j])
    && (forall l :: l in levels <==> low < l <= high && l in locations)
  }

  lemma {:induction false} BetweenLevels(locations: map<nat, int>, low: nat, high: nat) returns (levels: seq<nat>)
    requires low <= high
    ensures LevelsChecked(locations, low, high, levels) && |levels| == |ChecksBetween(locations, low, high)|
    ensures forall i :: 0 <= i < |levels| ==>
              levels[i] in locations && ChecksBetween(locations, low, high)[i] == locations[levels[i]]
  {
    if low == high {
      levels := [];
    } else {
      levels := BetweenLevels(locations, low, high - 1);
      assert forall i :: 0 <= i < |levels| ==> levels[i] in levels;
      if high in locations {
        levels := levels + [high];
      }
    }
  }

  /** Over any gains, the checks made are the locations of the levels gained, each at its place: the level
      the character started from is not among them, the one it ends at is. */
  lemma ChecksOfLevels(table: seq<nat>, locations: map<nat, int>, s: State, xps: seq<nat>) returns (levels: seq<nat>)
    requires IsTable(table) && s.level < UINT8
    ensures LevelsChecked(locations, s.level, GiveAll(table, s, xps).level, levels)
    ensures |levels| == |ChecksOf(table, locations, s, xps)|
    ensures forall i :: 0 <= i < |levels| ==>
              levels[i] in locations && ChecksOf(table, locations, s, xps)[i] == locations[levels[i]]
  {
    hide ChecksOf, GiveAll, LevelsChecked, ChecksBetween;
    ChecksOnce(table, locations, s, xps);
    levels := BetweenLevels(locations, s.level, GiveAll(table, s, xps).level);
  }

  function Sum(xps: seq<nat>): nat {
    if |xps| == 0 then 0 else Sum(xps[..|xps| - 1]) + xps[|xps| - 1]
  }

  /** Over any gains that fit 32 bits together, only their sum matters. */
  lemma {:induction false} OnlyTheSumMatters(table: seq<nat>, s: State, xps: seq<nat>)
    requires IsTable(table) && s.level < UINT8 && s.exp + Sum(xps) < UINT32
    requires !Carries(table, s)
    ensures GiveAll(table, s, xps) == Give(table, s, Sum(xps))
  {
    if |xps| > 0 {
      var but := xps[..|xps| - 1];
      OnlyTheSumMatters(table, s, but);
      GiveInParts(table, s, Sum(but), xps[|xps| - 1]);
    }
  }
}
