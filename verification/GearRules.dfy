/** What a gear roll may come up with, piece by piece: the reasons a piece is passed over, the levels a
    search looks at, and that nothing else decides. */
module GearRules {
  import opened Options
  import opened GearPool

  /** Why a piece is passed over. */
  datatype Obstacle =
    | ForOtherClasses | ForOtherRaces | ForOtherSide
    | RelicOfOtherClass
    | NoSkillForIt   // one its race and class never learn
    | NotTrainedYet  // trained at a level above the piece's
    | ArmorNotOffered
    | HeldInOffHand

  predicate IsRelic(item: Item) {
    item.cls == ArmorClass && item.subClass in {Libram, Idol, Totem, Sigil}
  }

  /** The row is for the skill, and neither its races nor its classes leave the character out. */
  predicate Covers(t: SkillTraining, skill: Skill, p: Player) {
    && t.skill == skill
    && !(t.raceMask != 0 && t.raceMask & p.raceMask == 0)
    && !(t.classMask != 0 && t.classMask & p.classMask == 0)
  }

  /** The k-th row is the first that covers the character, and trains the skill above a level. */
  predicate TrainsAboveAt(trainings: seq<SkillTraining>, skill: Skill, p: Player, level: nat, k: nat) {
    k < |trainings| && Covers(trainings[k], skill, p) && trainings[k].minLevel > level
    && forall j :: 0 <= j < k ==> !Covers(trainings[j], skill, p)
  }

  ghost predicate TrainsAbove(trainings: seq<SkillTraining>, skill: Skill, p: Player, level: nat) {
    exists k: nat :: TrainsAboveAt(trainings, skill, p, level, k)
  }

  /** The four armour types are numbered from cloth to plate. */
  predicate OfType(item: Item, n: nat) {
    item.subClass == if n == 0 then Cloth else if n == 1 then Leather else if n == 2 then Mail else Plate
  }

  ghost predicate Bars(w: Wish, item: Item, level: nat, o: Obstacle) {
    match o
    case ForOtherClasses => item.allowableClass & w.player.classMask == 0
    case ForOtherRaces => item.allowableRace & w.player.raceMask == 0
    case ForOtherSide =>
      (item.hordeOnly && w.player.team == Alliance) || (item.allianceOnly && w.player.team == Horde)
    case RelicOfOtherClass => IsRelic(item) && item.subClass !in w.player.relics
    case NoSkillForIt => !IsRelic(item) && item.skill != NoSkill && item.skill !in w.player.skills
    case NotTrainedYet =>
      !IsRelic(item) && item.skill != NoSkill && TrainsAbove(w.trainings, item.skill, w.player, level)
    case ArmorNotOffered =>
      item.cls == ArmorClass && item.inventoryType != Cloak && exists n :: 0 <= n < 4 && OfType(item, n) && n !in w.mask
    case HeldInOffHand => item.inventoryType == Holdable && !w.heldOffHands
  }

  ghost predicate Barred(w: Wish, item: Item, level: nat) {
    exists o :: Bars(w, item, level, o)
  }

  lemma PastFirstRow(trainings: seq<SkillTraining>, skill: Skill, p: Player, level: nat, k: nat)
    requires |trainings| > 0 && !Covers(trainings[0], skill, p)
    ensures TrainsAboveAt(trainings, skill, p, level, k + 1) <==> TrainsAboveAt(trainings[1..], skill, p, level, k)
    ensures !TrainsAboveAt(trainings, skill, p, level, 0)
  {
    hide Covers;
    var rest := trainings[1..];
    assert forall j :: 0 <= j < |rest| ==> rest[j] == trainings[j + 1];
    if TrainsAboveAt(rest, skill, p, level, k) {
      forall j | 0 <= j < k + 1 ensures !Covers(trainings[j], skill, p) {
        assert j > 0 ==> trainings[j] == rest[j - 1];
      }
    }
  }

  lemma {:induction false} TrainsAboveIff(trainings: seq<SkillTraining>, skill: Skill, p: Player, level: nat)
    ensures TrainsAbove(trainings, skill, p, level) <==> TrainingOf(trainings, skill, p) > level
  {
    if |trainings| > 0 {
      hide Covers, Trains;
      CoversIff(trainings[0], skill, p);
      if Covers(trainings[0], skill, p) {
        assert trainings[0].minLevel > level ==> TrainsAboveAt(trainings, skill, p, level, 0);
      } else {
        hide TrainsAboveAt;
        TrainsAboveIff(trainings[1..], skill, p, level);
        if k: nat :| TrainsAboveAt(trainings[1..], skill, p, level, k) {
          PastFirstRow(trainings, skill, p, level, k);
        }
        if k: nat :| TrainsAboveAt(trainings, skill, p, level, k) {
          PastFirstRow(trainings, skill, p, level, if k > 0 then k - 1 else 0);
        }
      }
    }
  }

  lemma CoversIff(t: SkillTraining, skill: Skill, p: Player)
    ensures Covers(t, skill, p) <==> Trains(t, skill, p)
  {
  }

  lemma OfferedIff(w: Wish, item: Item)
    ensures MatchesArmorMask(item, w.mask) <==> !Bars(w, item, 0, ArmorNotOffered)
  {
    if MatchesArmorMask(item, w.mask) {
    } else {
      assert OfType(item, TierOf(item.subClass).value);
    }
  }

  /** A piece fits exactly when nothing bars it. */
  lemma FitsIff(w: Wish, item: Item, level: nat)
    ensures Fits(w, item, level) <==> !Barred(w, item, level)
  {
    hide MatchesArmorMask, TrainingOf, TrainsAbove, OfType;
    TrainsAboveIff(w.trainings, item.skill, w.player, level);
    OfferedIff(w, item);
    if !Barred(w, item, level) {
      assert !Bars(w, item, level, ForOtherClasses) && !Bars(w, item, level, ForOtherRaces)
        && !Bars(w, item, level, ForOtherSide) && !Bars(w, item, level, RelicOfOtherClass)
        && !Bars(w, item, level, NoSkillForIt) && !Bars(w, item, level, NotTrainedYet)
        && !Bars(w, item, level, ArmorNotOffered) && !Bars(w, item, level, HeldInOffHand);
    }
  }

  // ----- The search, by its levels -----

  /** A piece of the pool that nothing bars. */
  ghost predicate Offered(s: Search, m: Match) {
    1 <= m.level < |s.levels| && m.item in s.levels[m.level] && !Barred(s.w, m.item, m.level)
  }

  lemma OfferedHolds(s: Search)
    ensures forall m :: Offered(s, m) <==> Holds(s, m)
  {
    hide Fits, Barred;
    forall m ensures Offered(s, m) <==> Holds(s, m) {
      FitsIff(s.w, m.item, m.level);
    }
  }

  /** What a window holds after `k` widenings: three levels further down and up each time, within the run. */
  lemma WindowIs(s: Search, k: nat, m: Match)
    requires s.Valid()
    ensures m in s.Window(k) <==>
            Offered(s, m) && m.level <= s.ceiling
            && s.playerLevel - s.window - 3 * k <= m.level <= s.playerLevel + s.window + 3 * k
  {
    hide Fits, Barred;
    WindowMeans(s, k);
    OfferedHolds(s);
  }

  /** The search after `k` widenings spans the whole run. */
  predicate SpansRun(s: Search, k: nat) {
    s.playerLevel - s.window - 3 * k <= 1 && s.playerLevel + s.window + 3 * k >= s.ceiling
  }

  /** What a search draws from, by what bars a piece alone. Nothing, if every piece is barred. If any
      unbarred piece is within the run's cap, the unbarred pieces of the first window that holds five of
      them or spans the whole run. And if none is, those of the nearest level above. */
  lemma SearchIs(s: Search) returns (k: nat)
    requires s.Valid()
    ensures |s.Window(k)| >= 5 || SpansRun(s, k)
    ensures forall j: nat :: j < k ==> |s.Window(j)| < 5 && !SpansRun(s, j)
    ensures forall m :: m in s.Candidates() ==> Offered(s, m)
    ensures s.Candidates() == [] <==> forall m :: !Offered(s, m)
    ensures (exists o :: Offered(s, o) && o.level <= s.ceiling) ==> s.Candidates() == s.Window(k)
    ensures forall m, o :: m in s.Candidates() && m.level > s.ceiling && Offered(s, o) ==>
              s.ceiling < m.level <= o.level
  {
    hide Fits, Barred;
    k := s.Widenings(0);
    OfferedHolds(s);
    NothingIff(s);
    DrawnFrom(s);
    WindowMeans(s, k);
    FirstWindow(s, k);
  }

  lemma FirstWindow(s: Search, k: nat)
    requires s.Valid() && k == s.Widenings(0)
    ensures |s.Window(k)| >= 5 || SpansRun(s, k)
    ensures forall j: nat :: j < k ==> |s.Window(j)| < 5 && !SpansRun(s, j)
  {
    forall j: nat | j < k ensures |s.Window(j)| < 5 && !SpansRun(s, j) {
      assert !s.Enough(j);
    }
  }

  // ----- The armour types on offer -----

  /** The character can wear the n-th armour type from a level below the cap on. */
  predicate Wears(trainings: seq<SkillTraining>, p: Player, cap: int, n: nat) {
    && Armor(TypeSkill(n)) in p.skills
    && TrainingOf(trainings, Armor(TypeSkill(n)), p) < cap
  }

  function TypeSkill(n: nat): ArmorSkill {
    if n == 0 then ClothSkill else if n == 1 then LeatherSkill else if n == 2 then MailSkill else PlateSkill
  }

  /** A type that can be worn, trained within the window above the character's level at the latest, and
      earlier than any stronger one that can be worn; and the character is not past the window after
      the training of any of those. */
  predicate Offers(trainings: seq<SkillTraining>, p: Player, cap: int, window: nat, n: nat) {
    var training := TrainingOf(trainings, Armor(TypeSkill(n)), p);
    && n < 4 && Wears(trainings, p, cap, n) && training <= p.level + window
    && forall m :: n < m < 4 && Wears(trainings, p, cap, m) ==>
         var later := TrainingOf(trainings, Armor(TypeSkill(m)), p);
         training < later && p.level <= later + window
  }

  lemma WearsIff(trainings: seq<SkillTraining>, p: Player, cap: int, n: nat)
    requires n < 4
    ensures Eligible(TiersFor(trainings, p), cap, n) <==> Wears(trainings, p, cap, n)
    ensures TiersFor(trainings, p)[n].training == TrainingOf(trainings, Armor(TypeSkill(n)), p)
  {
  }

  /** The mask is what suits the character, whichever of the stronger types stand for others. */
  lemma MaskIff(trainings: seq<SkillTraining>, p: Player, cap: int, window: nat, n: nat)
    ensures n in Mask(TiersFor(trainings, p), cap, p.level, window) <==> Offers(trainings, p, cap, window, n)
  {
    hide Eligible, Wears, TiersFor, TypeSkill;
    var tiers := TiersFor(trainings, p);
    assert |tiers| == 4 by { FourTypes(trainings, p); }
    forall m: nat | m < 4
      ensures Eligible(tiers, cap, m) <==> Wears(trainings, p, cap, m)
      ensures tiers[m].training == TrainingOf(trainings, Armor(TypeSkill(m)), p)
    {
      WearsIff(trainings, p, cap, m);
    }
    if n in Mask(tiers, cap, p.level, window) {
      forall m | n < m < 4 && Wears(trainings, p, cap, m) ensures p.level <= tiers[m].training + window {
        var k := StoodFor(tiers, cap, m);
      }
    }
  }

  lemma FourTypes(trainings: seq<SkillTraining>, p: Player)
    ensures |TiersFor(trainings, p)| == 4
  {
  }

  /** What a roll searches: the pieces of the pool as they are, in the armour types that suit the character,
      up to the goal's level or the server's, whichever is lower, around the character's level or that
      cap, whichever is lower. */
  lemma SearchOfRoll(trainings: seq<SkillTraining>, levels: Levels, maxLevel: nat, p: Player, window: nat,
                     allArmorTypes: bool, heldOffHands: bool, goalMaxLevel: nat)
    requires |levels| == maxLevel + 1
    ensures var s := SearchOf(trainings, levels, maxLevel, p, window, allArmorTypes, heldOffHands, goalMaxLevel);
            && s.Valid() && s.levels == levels && s.window == window
            && s.w.player == p && s.w.trainings == trainings && s.w.heldOffHands == heldOffHands
            && s.ceiling <= maxLevel && (goalMaxLevel > 0 ==> s.ceiling <= goalMaxLevel)
            && (s.ceiling == maxLevel || (goalMaxLevel > 0 && s.ceiling == goalMaxLevel))
            && s.playerLevel <= p.level && (s.playerLevel == p.level || s.playerLevel == s.ceiling)
            && forall n: nat :: n in s.w.mask <==>
                 if allArmorTypes then n < 4 else Offers(trainings, p, s.ceiling, window, n)
  {
    hide Mask, Offers;
    var cap := if 0 < goalMaxLevel < maxLevel then goalMaxLevel else maxLevel;
    forall n: nat ensures n in Mask(TiersFor(trainings, p), cap, p.level, window)
                     <==> Offers(trainings, p, cap, window, n) {
      MaskIff(trainings, p, cap, window, n);
    }
  }
}
