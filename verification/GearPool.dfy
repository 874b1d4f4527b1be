/** Rolling a gear reward: which armour types suit the character, which levels are searched, and
    which pieces may come out. */
module GearPool {
  import opened Options

  // ----- Items and characters -----

  datatype ArmorSkill = ClothSkill | LeatherSkill | MailSkill | PlateSkill
  datatype Skill = NoSkill | Armor(tier: ArmorSkill) | OtherSkill(id: nat)

  datatype ItemClass = WeaponClass | ArmorClass | OtherClass
  datatype SubClass = Cloth | Leather | Mail | Plate | Libram | Idol | Totem | Sigil | OtherSubClass(id: nat)
  datatype InventoryType = Finger | Trinket | Cloak | Chest | Robe | Holdable | OtherSlot(id: nat)
  datatype Team = Horde | Alliance

  datatype Item = Item(
    id: nat,
    cls: ItemClass,
    subClass: SubClass,
    inventoryType: InventoryType,
    allowableClass: bv32,
    allowableRace: bv32,
    hordeOnly: bool,
    allianceOnly: bool,
    skill: Skill)

  /** `skills` are those the character's race and class may learn at all; `relics` the relic
      subclasses its class can hold. */
  datatype Player = Player(
    level: nat,
    classMask: bv32,
    raceMask: bv32,
    team: Team,
    skills: set<Skill>,
    relics: set<SubClass>)

  datatype SkillTraining = SkillTraining(skill: Skill, raceMask: bv32, classMask: bv32, minLevel: nat)

  const LEVEL_WINDOW_WIDEN_STEP := 3
  const LEVEL_WINDOW_MIN_CANDIDATES := 5

  const ARMOR_TIERS: seq<ArmorSkill> := [ClothSkill, LeatherSkill, MailSkill, PlateSkill]

  /** The tier of one of the four trained armour types, weakest first. */
  function TierOf(sub: SubClass): Option<nat> {
    match sub
    case Cloth => Some(0) case Leather => Some(1) case Mail => Some(2) case Plate => Some(3)
    case _ => None
  }

  predicate Trains(t: SkillTraining, skill: Skill, p: Player) {
    t.skill == skill && (t.raceMask == 0 || t.raceMask & p.raceMask != 0)
      && (t.classMask == 0 || t.classMask & p.classMask != 0)
  }

  /** The level of the first row that covers the character, as the game reads the file. */
  function TrainingOf(trainings: seq<SkillTraining>, skill: Skill, p: Player): nat {
    if |trainings| == 0 then 0
    else if Trains(trainings[0], skill, p) then trainings[0].minLevel
    else TrainingOf(trainings[1..], skill, p)
  }

  predicate IsUsableBy(trainings: seq<SkillTraining>, item: Item, level: nat, p: Player) {
    && item.allowableClass & p.classMask != 0 && item.allowableRace & p.raceMask != 0
    && (item.hordeOnly ==> p.team == Horde) && (item.allianceOnly ==> p.team == Alliance)
    && (if item.cls == ArmorClass
         && (item.subClass.Libram? || item.subClass.Idol? || item.subClass.Totem? || item.subClass.Sigil?)
        then item.subClass in p.relics
        else item.skill == NoSkill || (item.skill in p.skills && level >= TrainingOf(trainings, item.skill, p)))
  }

  predicate MatchesArmorMask(item: Item, mask: set<nat>) {
    item.cls == ArmorClass && !item.inventoryType.Cloak? && TierOf(item.subClass).Some? ==>
      TierOf(item.subClass).value in mask
  }

  // ----- The armour mask -----

  /** Whether the character can ever train the tier, and from which level. */
  datatype Tier = Tier(usable: bool, training: nat)

  function TiersFor(trainings: seq<SkillTraining>, p: Player): seq<Tier> {
    seq(|ARMOR_TIERS|, i requires 0 <= i < |ARMOR_TIERS| =>
      Tier(Armor(ARMOR_TIERS[i]) in p.skills, TrainingOf(trainings, Armor(ARMOR_TIERS[i]), p)))
  }

  /** Trained early enough to get some wear out of before the run ends. */
  predicate Eligible(tiers: seq<Tier>, ceiling: int, i: nat) {
    i < |tiers| && tiers[i].usable && tiers[i].training < ceiling
  }

  /** A step up of its own: trained strictly earlier than every stronger tier. */
  predicate Kept(tiers: seq<Tier>, ceiling: int, i: nat) {
    Eligible(tiers, ceiling, i) &&
    forall j :: i < j < |tiers| && Eligible(tiers, ceiling, j) ==> tiers[i].training < tiers[j].training
  }

  /** In reach of the window, and not yet outgrown by a stronger tier. */
  predicate InMask(tiers: seq<Tier>, ceiling: int, level: nat, window: nat, i: nat) {
    && Kept(tiers, ceiling, i) && level + window >= tiers[i].training
    && forall j :: i < j < |tiers| && Kept(tiers, ceiling, j) ==> level <= tiers[j].training + window
  }

  function Mask(tiers: seq<Tier>, ceiling: int, level: nat, window: nat): set<nat> {
    set i: nat | 0 <= i < |tiers| && InMask(tiers, ceiling, level, window, i)
  }

  method TrainingLevel(trainings: seq<SkillTraining>, skill: Skill, p: Player) returns (level: nat)
    ensures level == TrainingOf(trainings, skill, p)
  {
    for k := 0 to |trainings|
      invariant TrainingOf(trainings, skill, p) == TrainingOf(trainings[k..], skill, p)
    {
      assert trainings[k..][1..] == trainings[k + 1..];
      if Trains(trainings[k], skill, p) {
        return trainings[k].minLevel;
      }
    }
    return 0;
  }

  /** Strongest tier first, keeping each that is trained earlier than the last one kept. */
  method AllowedArmorMask(trainings: seq<SkillTraining>, p: Player, levelWindow: nat, levelCeiling: int)
    returns (mask: set<nat>)
    ensures mask == Mask(TiersFor(trainings, p), levelCeiling, p.level, levelWindow)
  {
    hide TrainingOf, Trains;
    ghost var tiers := TiersFor(trainings, p);
    mask := {};
    var lastTraining := 0;
    var kept := false;
    var i := |ARMOR_TIERS|;
    while i > 0
      invariant 0 <= i <= |tiers| == |ARMOR_TIERS|
      invariant kept <==> exists j: nat :: i <= j < |tiers| && Eligible(tiers, levelCeiling, j)
      invariant kept ==> forall j: nat :: i <= j < |tiers| && Eligible(tiers, levelCeiling, j) ==>
                lastTraining <= tiers[j].training
      invariant kept ==>
                exists j: nat :: i <= j < |tiers| && Eligible(tiers, levelCeiling, j)
                  && lastTraining == tiers[j].training
      invariant mask == set j: nat | i <= j < |tiers| && InMask(tiers, levelCeiling, p.level, levelWindow, j)
      invariant forall j: nat :: i <= j < |tiers| && Kept(tiers, levelCeiling, j) ==>
                p.level <= tiers[j].training + levelWindow
    {
      i := i - 1;
      if Armor(ARMOR_TIERS[i]) !in p.skills {
        continue;
      }
      var training := TrainingLevel(trainings, Armor(ARMOR_TIERS[i]), p);
      assert tiers[i] == Tier(true, training);
      if training >= levelCeiling {
        continue;
      }
      assert Eligible(tiers, levelCeiling, i);
      if kept && training >= lastTraining {
        continue;
      }
      assert Kept(tiers, levelCeiling, i);
      kept := true;
      lastTraining := training;
      if p.level + levelWindow >= training {
        mask := mask + {i};
      }
      if p.level > training + levelWindow {
        break;
      }
    }
  }

  /** Stronger tiers kept are trained later. */
  lemma KeptOrder(tiers: seq<Tier>, ceiling: int, i: nat, j: nat)
    requires Kept(tiers, ceiling, i) && Kept(tiers, ceiling, j)
    ensures i < j <==> tiers[i].training < tiers[j].training
  {
  }

  /** Every eligible tier is stood for by a kept one, no weaker and trained no later. */
  lemma {:induction false} StoodFor(tiers: seq<Tier>, ceiling: int, i: nat) returns (k: nat)
    requires Eligible(tiers, ceiling, i)
    ensures i <= k < |tiers| && Kept(tiers, ceiling, k) && tiers[k].training <= tiers[i].training
    decreases |tiers| - i
  {
    if Kept(tiers, ceiling, i) {
      k := i;
    } else {
      var j :| i < j < |tiers| && Eligible(tiers, ceiling, j) && tiers[j].training <= tiers[i].training;
      k := StoodFor(tiers, ceiling, j);
    }
  }

  /** The strongest kept tier in reach is always in the mask. */
  lemma {:induction false} StrongestInReach(tiers: seq<Tier>, ceiling: int, level: nat, window: nat, k: nat)
    returns (b: nat)
    requires Kept(tiers, ceiling, k) && level + window >= tiers[k].training
    ensures k <= b && b in Mask(tiers, ceiling, level, window)
    decreases |tiers| - k
  {
    if j: nat :| k < j < |tiers| && Kept(tiers, ceiling, j) && level + window >= tiers[j].training {
      b := StrongestInReach(tiers, ceiling, level, window, j);
    } else {
      b := k;
    }
  }

  /** The mask is empty only when no tier the run leaves time for is in reach of the window. */
  lemma MaskNonEmptyIff(tiers: seq<Tier>, ceiling: int, level: nat, window: nat)
    ensures Mask(tiers, ceiling, level, window) != {}
       <==> exists i: nat :: Eligible(tiers, ceiling, i) && level + window >= tiers[i].training
  {
    if i: nat :| Eligible(tiers, ceiling, i) && level + window >= tiers[i].training {
      var k := StoodFor(tiers, ceiling, i);
      var b := StrongestInReach(tiers, ceiling, level, window, k);
    }
    if Mask(tiers, ceiling, level, window) != {} {
      var i :| i in Mask(tiers, ceiling, level, window);
      assert Eligible(tiers, ceiling, i);
    }
  }

  /** As the level rises, neither the heaviest nor the lightest type on offer ever gets lighter. */
  lemma MaskOnlyGetsHeavier(tiers: seq<Tier>, ceiling: int, level: nat, later: nat, window: nat)
    requires level <= later && Mask(tiers, ceiling, level, window) != {}
    ensures Mask(tiers, ceiling, later, window) != {}
    ensures forall a :: a in Mask(tiers, ceiling, level, window) ==>
            exists b :: b in Mask(tiers, ceiling, later, window) && a <= b
    ensures forall b :: b in Mask(tiers, ceiling, later, window) ==>
            exists a :: a in Mask(tiers, ceiling, level, window) && a <= b
  {
    var now, then' := Mask(tiers, ceiling, level, window), Mask(tiers, ceiling, later, window);
    forall a | a in now ensures exists b :: b in then' && a <= b {
      var b := StrongestInReach(tiers, ceiling, later, window, a);
    }
    var some :| some in now;
    forall b | b in then' ensures exists a :: a in now && a <= b {
      if level + window >= tiers[b].training {
        assert b in now;
      } else {
        KeptOrder(tiers, ceiling, some, b);
      }
    }
  }

  // ----- The search -----

  /** What is asked of a piece: all but its level. */
  datatype Wish = Wish(trainings: seq<SkillTraining>, player: Player, mask: set<nat>, heldOffHands: bool)

  predicate Fits(w: Wish, item: Item, level: nat) {
    && IsUsableBy(w.trainings, item, level, w.player) && MatchesArmorMask(item, w.mask)
    && (w.heldOffHands || !item.inventoryType.Holdable?)
  }

  /** A fitting piece and the level it was found at. */
  datatype Match = Match(level: nat, item: Item)

  type Levels = seq<seq<Item>>

  function FittingAt(w: Wish, items: seq<Item>, level: nat): seq<Match> {
    if |items| == 0 then []
    else
      var n := |items| - 1;
      FittingAt(w, items[..n], level) + if Fits(w, items[n], level) then [Match(level, items[n])] else []
  }

  /** The fitting pieces of the levels from `lo` up to `hi`, in order. */
  function FittingIn(w: Wish, levels: Levels, lo: nat, hi: int): seq<Match>
    requires hi < |levels|
    decreases hi
  {
    if hi < lo then [] else FittingIn(w, levels, lo, hi - 1) + FittingAt(w, levels[hi], hi)
  }

  /** One search: the pool of a category and quality, and where the character stands in it. */
  datatype Search = Search(w: Wish, levels: Levels, ceiling: nat, playerLevel: nat, window: nat)
  {
    ghost predicate Valid() {
      ceiling < |levels| && playerLevel <= ceiling
    }

    function Low(k: nat): int { playerLevel - window - LEVEL_WINDOW_WIDEN_STEP * k }

    function High(k: nat): int { playerLevel + window + LEVEL_WINDOW_WIDEN_STEP * k }

    function From(k: nat): nat { if Low(k) > 1 then Low(k) else 1 }

    function To(k: nat): nat { if High(k) < ceiling then High(k) else ceiling }

    predicate Covers(k: nat) { Low(k) <= 1 && High(k) >= ceiling }

    /** The fitting pieces of the window after `k` widenings. */
    function Window(k: nat): seq<Match>
      requires Valid()
    {
      FittingIn(w, levels, From(k), To(k))
    }

    predicate Enough(k: nat)
      requires Valid()
    {
      |Window(k)| >= LEVEL_WINDOW_MIN_CANDIDATES || Covers(k)
    }

    /** How far the window still is from covering every level. */
    function Left(k: nat): nat {
      (if Low(k) > 1 then Low(k) - 1 else 0) + (if High(k) < ceiling then ceiling - High(k) else 0)
    }

    /** The widenings the search makes from `k` on. */
    function Widenings(k: nat): (n: nat)
      requires Valid()
      ensures k <= n && Enough(n)
      ensures forall j :: k <= j < n ==> !Enough(j)
      decreases Left(k)
    {
      if Enough(k) then k else Widenings(k + 1)
    }

    /** The pieces at the nearest level from `level` up that holds any. */
    function Above(level: nat): seq<Match>
      requires Valid()
      decreases |levels| - level
    {
      if level >= |levels| then []
      else
        var here := FittingAt(w, levels[level], level);
        if |here| > 0 then here else Above(level + 1)
    }

    /** What the reward is drawn from. */
    function Candidates(): seq<Match>
      requires Valid()
    {
      var found := Window(Widenings(0));
      if |found| > 0 then found else Above(ceiling + 1)
    }
  }

  lemma {:induction false} FittingAtMeans(w: Wish, items: seq<Item>, level: nat, m: Match)
    ensures m in FittingAt(w, items, level) <==> m.level == level && m.item in items && Fits(w, m.item, level)
  {
    hide Fits;
    if |items| > 0 {
      var n := |items| - 1;
      FittingAtMeans(w, items[..n], level, m);
      assert items == items[..n] + [items[n]];
    }
  }

  lemma {:induction false} FittingInMeans(w: Wish, levels: Levels, lo: nat, hi: int, m: Match)
    requires hi < |levels|
    ensures m in FittingIn(w, levels, lo, hi)
            <==> lo <= m.level <= hi && m.item in levels[m.level] && Fits(w, m.item, m.level)
    decreases hi
  {
    hide Fits;
    if hi >= lo {
      FittingInMeans(w, levels, lo, hi - 1, m);
      FittingAtMeans(w, levels[hi], hi, m);
    }
  }

  /** A fitting piece of the pool. */
  predicate Holds(s: Search, m: Match) {
    1 <= m.level < |s.levels| && m.item in s.levels[m.level] && Fits(s.w, m.item, m.level)
  }

  lemma {:induction false} AboveMeans(s: Search, level: nat)
    requires s.Valid() && 1 <= level
    ensures forall m :: m in s.Above(level) ==> Holds(s, m) && level <= m.level
    ensures forall m, o :: m in s.Above(level) && Holds(s, o) && level <= o.level ==> m.level <= o.level
    ensures s.Above(level) == [] ==> forall o :: Holds(s, o) ==> o.level < level
    decreases |s.levels| - level
  {
    hide Fits;
    if level < |s.levels| {
      forall m: Match ensures m in FittingAt(s.w, s.levels[level], level)
                         <==> m.level == level && m.item in s.levels[level] && Fits(s.w, m.item, level) {
        FittingAtMeans(s.w, s.levels[level], level, m);
      }
      AboveMeans(s, level + 1);
    }
  }

  lemma WindowMeans(s: Search, k: nat)
    requires s.Valid()
    ensures forall m :: m in s.Window(k) <==> Holds(s, m) && s.From(k) <= m.level <= s.To(k)
  {
    hide Fits;
    forall m ensures m in s.Window(k) <==> Holds(s, m) && s.From(k) <= m.level <= s.To(k) {
      FittingInMeans(s.w, s.levels, s.From(k), s.To(k), m);
    }
  }

  /** Exactly when no level holds a fitting piece does the roll come up empty. */
  lemma NothingIff(s: Search)
    requires s.Valid()
    ensures s.Candidates() == [] <==> forall m :: !Holds(s, m)
  {
    hide Fits;
    var n := s.Widenings(0);
    WindowMeans(s, n);
    AboveMeans(s, s.ceiling + 1);
    if s.Candidates() == [] {
      forall m ensures !Holds(s, m) {
        assert s.Covers(n);
      }
    } else {
      assert Holds(s, s.Candidates()[0]);
    }
  }

  /** Where the reward comes from: fitting pieces only; within the run's ceiling whenever any level up
      to it holds one, and then all of the first window that holds enough or spans every level; else
      from the nearest level above. */
  lemma DrawnFrom(s: Search)
    requires s.Valid()
    ensures forall m :: m in s.Candidates() ==> Holds(s, m)
    ensures forall m, o :: m in s.Candidates() && Holds(s, o) && o.level <= s.ceiling ==> m.level <= s.ceiling
    ensures forall m, o :: m in s.Candidates() && m.level > s.ceiling && Holds(s, o) ==> s.ceiling < m.level <= o.level
    ensures var n := s.Widenings(0);
            forall m, o :: m in s.Candidates() && m.level <= s.ceiling ==>
                             Holds(s, o) && s.From(n) <= o.level <= s.To(n) ==> o in s.Candidates()
  {
    hide Fits;
    var n := s.Widenings(0);
    WindowMeans(s, n);
    AboveMeans(s, s.ceiling + 1);
  }

  /** Widening never drops a piece. */
  lemma WindowsNest(s: Search, j: nat, k: nat)
    requires s.Valid() && j <= k
    ensures forall m :: m in s.Window(j) ==> m in s.Window(k)
  {
    hide Fits;
    WindowMeans(s, j);
    WindowMeans(s, k);
  }

  // ----- The roll -----

  function SlotOf(item: Item): InventoryType {
    if item.inventoryType.Robe? then Chest else item.inventoryType
  }

  function SlotWeight(slot: InventoryType): nat {
    if slot.Finger? || slot.Trinket? then 2 else 1
  }

  function CappedCount(n: nat): nat {
    if n < LEVEL_WINDOW_MIN_CANDIDATES then n else LEVEL_WINDOW_MIN_CANDIDATES
  }

  /** The matches by slot: every one is filed, under its own slot, and every slot can be drawn. */
  method GroupBySlot(matches: seq<Match>) returns (slots: map<InventoryType, seq<Match>>)
    ensures forall m :: m in matches ==> SlotOf(m.item) in slots && m in slots[SlotOf(m.item)]
    ensures forall k, m :: k in slots && m in slots[k] ==> m in matches && SlotOf(m.item) == k
    ensures forall k :: k in slots ==> SlotWeight(k) * CappedCount(|slots[k]|) > 0
  {
    slots := map[];
    for i := 0 to |matches|
      invariant forall j :: 0 <= j < i ==>
                SlotOf(matches[j].item) in slots && matches[j] in slots[SlotOf(matches[j].item)]
      invariant forall k, m :: k in slots && m in slots[k] ==> m in matches && SlotOf(m.item) == k
      invariant forall k :: k in slots ==> |slots[k]| > 0
    {
      var slot := SlotOf(matches[i].item);
      slots := slots[slot := (if slot in slots then slots[slot] else []) + [matches[i]]];
    }
  }

  datatype Category = WeaponCategory | ArmorCategory | JewelryCategory

  method FittingPieces(w: Wish, items: seq<Item>, level: nat) returns (found: seq<Match>)
    ensures found == FittingAt(w, items, level)
  {
    found := [];
    for i := 0 to |items|
      invariant found == FittingAt(w, items[..i], level)
    {
      assert items[..i + 1][..i] == items[..i];
      if Fits(w, items[i], level) {
        found := found + [Match(level, items[i])];
      }
    }
    assert items[..|items|] == items;
  }

  ghost function SearchOf(trainings: seq<SkillTraining>, levels: Levels, maxLevel: nat, p: Player, window: nat,
                          allArmorTypes: bool, heldOffHands: bool, goalMaxLevel: nat): Search
  {
    var ceiling := if 0 < goalMaxLevel < maxLevel then goalMaxLevel else maxLevel;
    var mask := if allArmorTypes then {0, 1, 2, 3} else Mask(TiersFor(trainings, p), ceiling, p.level, window);
    Search(Wish(trainings, p, mask, heldOffHands), levels, ceiling,
           if p.level < ceiling then p.level else ceiling, window)
  }

  method CollectWindow(w: Wish, levels: Levels, lo: nat, hi: nat) returns (matches: seq<Match>)
    requires hi < |levels|
    ensures matches == FittingIn(w, levels, lo, hi)
  {
    hide Fits;
    matches := [];
    var level := lo;
    while level <= hi
      invariant lo <= level && (lo <= hi ==> level <= hi + 1)
      invariant matches == FittingIn(w, levels, lo, if lo <= hi then level - 1 else hi)
    {
      var here := FittingPieces(w, levels[level], level);
      matches := matches + here;
      level := level + 1;
    }
  }

  /** Widens the window until it holds enough, then looks above the run's cap. */
  method FindCandidates(w: Wish, levels: Levels, ceiling: nat, playerLevel: nat, levelWindow: nat)
    returns (matches: seq<Match>)
    requires Search(w, levels, ceiling, playerLevel, levelWindow).Valid()
    ensures matches == Search(w, levels, ceiling, playerLevel, levelWindow).Candidates()
  {
    hide Fits, FittingIn, FittingAt;
    ghost var s := Search(w, levels, ceiling, playerLevel, levelWindow);
    var low: int := playerLevel - levelWindow;
    var high: int := playerLevel + levelWindow;
    ghost var k := 0;
    while true
      invariant low == s.Low(k) && high == s.High(k)
      invariant s.Widenings(0) == s.Widenings(k)
      decreases s.Left(k)
    {
      matches := CollectWindow(w, levels, if low > 1 then low else 1, if high < ceiling then high else ceiling);
      if |matches| >= LEVEL_WINDOW_MIN_CANDIDATES || (low <= 1 && high >= ceiling) {
        break;
      }
      low := low - LEVEL_WINDOW_WIDEN_STEP;
      high := high + LEVEL_WINDOW_WIDEN_STEP;
      k := k + 1;
    }
    var level := ceiling + 1;
    while |matches| == 0 && level < |levels|
      invariant ceiling + 1 <= level <= |levels|
      invariant s.Candidates() == if |matches| > 0 then matches else s.Above(level)
      decreases |levels| - level
    {
      matches := FittingPieces(w, levels[level], level);
      level := level + 1;
    }
  }

  /** Weapons are drawn at once; armour and jewelry draw a slot first, then a piece of it. */
  method Draw(category: Category, matches: seq<Match>) returns (m: Match)
    requires |matches| > 0
    ensures m in matches
  {
    assert matches[0] in matches;
    if category == WeaponCategory {
      m :| m in matches;
      return;
    }
    var slots := GroupBySlot(matches);
    assert SlotOf(matches[0].item) in slots;
    var slot :| slot in slots;
    assert CappedCount(|slots[slot]|) > 0;
    assert slots[slot][0] in slots[slot];
    m :| m in slots[slot];
  }

  /** Draws a piece: one of the candidates, and nothing only when there are none. */
  method Roll(trainings: seq<SkillTraining>, levels: Levels, maxLevel: nat, category: Category, p: Player,
              levelWindow: nat, allArmorTypes: bool, heldOffHands: bool, goalMaxLevel: nat)
    returns (rolled: Option<nat>)
    requires |levels| == 0 || |levels| == maxLevel + 1
    ensures |levels| == 0 ==> rolled == None
    ensures |levels| > 0 ==>
              var s := SearchOf(trainings, levels, maxLevel, p, levelWindow, allArmorTypes, heldOffHands, goalMaxLevel);
              && s.Valid()
              && (rolled.None? <==> s.Candidates() == [])
              && (rolled.Some? ==> exists m :: m in s.Candidates() && m.item.id == rolled.value)
  {
    hide Mask;
    if |levels| == 0 {
      return None;
    }
    var ceiling := maxLevel;
    if goalMaxLevel > 0 {
      ceiling := if goalMaxLevel < ceiling then goalMaxLevel else ceiling;
    }
    var mask := {0, 1, 2, 3};
    if !allArmorTypes {
      mask := AllowedArmorMask(trainings, p, levelWindow, ceiling);
    }
    var w := Wish(trainings, p, mask, heldOffHands);
    var matches := FindCandidates(w, levels, ceiling, if p.level < ceiling then p.level else ceiling, levelWindow);
    if |matches| == 0 {
      return None;
    }
    var m := Draw(category, matches);
    return Some(m.item.id);
  }
}
