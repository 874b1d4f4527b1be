/** What a slot's items mean: the branch order of `RewardItem`, the state that is worth the sum of
    every copy ever received (the ledger), and the rewards that are paid once per list index. */
module SlotItems {

  datatype ProgressiveType = MovementSpeed | ExperienceRate | Food | Drink | Riding

  datatype TrapType = Dazed | Shackle | Sheep | Poison | Teleport | Ambush | Disarm | Bombs

  datatype Track = Track(kind: ProgressiveType, steps: seq<nat>) {
    /** What the track is worth once `count` copies have arrived; copies past the end hold. */
    function ValueAt(count: nat): nat {
      if count == 0 || |steps| == 0 then 0
      else steps[(if count < |steps| then count else |steps|) - 1]
    }
  }

  datatype Kind =
    | Goods(wowId: nat)
    | Heirloom(apItemId: int)
    | HeirloomWeapon
    | WorldBuff
    | Trap(trap: TrapType)
    | Gear(category: nat, quality: nat)
    | Zone(zoneId: nat)
    | Spell(spellId: nat)
    | Progressive(track: Track)
    | Level
    | FriendTeleport
    | GoldPouch
    | Unknown

  const MAX_HEIRLOOM_WEAPON_SLOTS := 3

  /** The slot data's number of weapons, capped as it is read. */
  type SlotCount = n: nat | n <= MAX_HEIRLOOM_WEAPON_SLOTS

  /** The slot data, already parsed. `glyphs` are the item templates of the glyph class. */
  datatype SlotData = SlotData(
    goods: map<int, nat>,
    glyphs: set<nat>,
    pieces: set<int>,
    weapon: int,
    weaponSlots: SlotCount,
    weaponChoices: seq<nat>,
    worldBuff: int,
    traps: map<int, TrapType>,
    gear: map<int, (nat, nat)>,
    zones: map<int, nat>,
    spells: map<int, nat>,
    progressive: map<int, Track>,
    levels: int,
    friendTeleport: int,
    goldPouch: int)

  /** One entry of the server's item list: the item and the player who sent it. */
  datatype Entry = Entry(item: int, player: int)

  function Classify(sd: SlotData, item: int): Kind {
    if item in sd.goods then Goods(sd.goods[item])
    else if item != 0 && item in sd.pieces then Heirloom(item)
    else if item == sd.weapon then HeirloomWeapon
    else if item == sd.worldBuff then WorldBuff
    else if item in sd.traps then Trap(sd.traps[item])
    else if item in sd.gear then Gear(sd.gear[item].0, sd.gear[item].1)
    else if item in sd.zones then Zone(sd.zones[item])
    else if item in sd.spells then Spell(sd.spells[item])
    else if item in sd.progressive then Progressive(sd.progressive[item])
    else if item == sd.levels then Level
    else if item == sd.friendTeleport then FriendTeleport
    else if item == sd.goldPouch then GoldPouch
    else Unknown
  }

  // ----- The ledger: rebuilt in memory from the replayed list on every login -----

  datatype Ledger = Ledger(
    counts: map<ProgressiveType, nat>,
    senders: seq<int>,
    zones: set<nat>,
    handedOver: set<nat>,
    glyphs: set<nat>,
    friendTeleport: bool)

  const EMPTY_LEDGER := Ledger(map[], [], {}, {}, {}, false)

  function Count(counts: map<ProgressiveType, nat>, t: ProgressiveType): nat {
    if t in counts then counts[t] else 0
  }

  /** The riding ranks granted at `count` copies. */
  function Ranks(steps: seq<nat>, count: nat): set<nat> {
    set r | 0 <= r < count && r < |steps| :: steps[r]
  }

  /** What one pass over an entry leaves in the ledger. */
  function Absorb(sd: SlotData, led: Ledger, e: Entry, alreadyCounted: bool): Ledger {
    match Classify(sd, e.item)
    case Goods(id) => if id in sd.glyphs then led.(glyphs := led.glyphs + {id}) else led
    case HeirloomWeapon => if alreadyCounted then led else led.(senders := led.senders + [e.player])
    case Zone(z) => led.(zones := led.zones + {z})
    case Spell(s) => led.(handedOver := led.handedOver + {s})
    case Progressive(track) =>
      var count := Count(led.counts, track.kind) + if alreadyCounted then 0 else 1;
      var led' := led.(counts := led.counts[track.kind := count]);
      if track.kind == Riding then led'.(handedOver := led'.handedOver + Ranks(track.steps, count)) else led'
    case FriendTeleport => led.(friendTeleport := true)
    case _ => led
  }

  /** Reference: the ledger of a list read once, from its first entry to its last. */
  function OnePass(sd: SlotData, list: seq<Entry>): Ledger {
    if |list| == 0 then EMPTY_LEDGER
    else Absorb(sd, OnePass(sd, list[..|list| - 1]), list[|list| - 1], false)
  }

  // ----- One-shot rewards -----

  datatype Reward =
    | MailItem(wowId: nat, sender: int)
    | MailHeirloom(apItemId: int, sender: int)
    | ApplyBuff
    | ReceiveTrap(trap: TrapType)
    | RollGear(category: nat, quality: nat, sender: int)
    | GiveLevel
    | MailGold(sender: int)

  datatype Payment = Payment(index: int, reward: Reward)

  function RewardOf(sd: SlotData, led: Ledger, e: Entry): seq<Reward> {
    match Classify(sd, e.item)
    case Goods(id) => [MailItem(id, e.player)]
    case Heirloom(id) => [MailHeirloom(id, e.player)]
    case WorldBuff => [ApplyBuff]
    case Trap(t) => [ReceiveTrap(t)]
    case Gear(c, q) => [RollGear(c, q, e.player)]
    case Progressive(track) =>
      var count := Count(led.counts, track.kind);
      if (track.kind == Food || track.kind == Drink) && 0 < count <= |track.steps|
      then [MailItem(track.steps[count - 1], e.player)] else []
    case Level => [GiveLevel]
    case GoldPouch => [MailGold(e.player)]
    case _ => []
  }

  /** The reward of an entry, if any, tagged with its list index; `led` already counts the entry. */
  function PaymentsFor(sd: SlotData, led: Ledger, e: Entry, index: int): (ps: seq<Payment>)
    ensures |ps| <= 1
    ensures forall p :: p in ps ==> p.index == index
  {
    var rs := RewardOf(sd, led, e);
    if |rs| == 0 then [] else [Payment(index, rs[0])]
  }

  /** Reference: everything a list pays, each index once, in list order. */
  function Payments(sd: SlotData, list: seq<Entry>): seq<Payment> {
    if |list| == 0 then []
    else
      var n := |list| - 1;
      Payments(sd, list[..n]) + PaymentsFor(sd, OnePass(sd, list), list[n], n)
  }

  // ----- Facts about one pass -----

  predicate IsRiding(sd: SlotData, item: int) {
    var k := Classify(sd, item);
    k.Progressive? && k.track.kind == Riding
  }

  function Ladder(sd: SlotData, item: int): seq<nat>
    requires IsRiding(sd, item)
  {
    Classify(sd, item).track.steps
  }

  lemma OnePassStep(sd: SlotData, list: seq<Entry>, n: nat)
    requires n < |list|
    ensures OnePass(sd, list[..n + 1]) == Absorb(sd, OnePass(sd, list[..n]), list[n], false)
    ensures Payments(sd, list[..n + 1])
         == Payments(sd, list[..n]) + PaymentsFor(sd, OnePass(sd, list[..n + 1]), list[n], n)
  {
    hide Classify;
    assert list[..n + 1][..n] == list[..n];
  }

  ghost predicate Within(a: Ledger, b: Ledger) {
    && a.senders <= b.senders && a.zones <= b.zones && a.handedOver <= b.handedOver && a.glyphs <= b.glyphs
    && (a.friendTeleport ==> b.friendTeleport)
    && (forall t :: t in a.counts ==> t in b.counts && a.counts[t] <= b.counts[t])
  }

  lemma AbsorbGrows(sd: SlotData, led: Ledger, e: Entry)
    ensures Within(led, Absorb(sd, led, e, false))
  {
    hide Classify, Ranks;
  }

  /** Reading further never takes anything back. */
  lemma {:induction false} OnePassGrows(sd: SlotData, list: seq<Entry>, n: nat)
    requires n <= |list|
    ensures Within(OnePass(sd, list[..n]), OnePass(sd, list))
    decreases |list|
  {
    hide Absorb;
    if n == |list| {
      assert list[..n] == list;
    } else {
      var m := |list| - 1;
      OnePassGrows(sd, list[..m], n);
      assert list[..m][..n] == list[..n];
      AbsorbGrows(sd, OnePass(sd, list[..m]), list[m]);
    }
  }

  /** Where a track's count first reached `k`. */
  lemma {:induction false} CopyAtCount(sd: SlotData, list: seq<Entry>, t: ProgressiveType, k: nat) returns (m: nat)
    requires 0 < k <= Count(OnePass(sd, list).counts, t)
    ensures m < |list|
    ensures var kind := Classify(sd, list[m].item); kind.Progressive? && kind.track.kind == t
    ensures Count(OnePass(sd, list[..m + 1]).counts, t) == k
  {
    hide Classify;
    var n := |list| - 1;
    if Count(OnePass(sd, list[..n]).counts, t) >= k {
      m := CopyAtCount(sd, list[..n], t, k);
      assert list[..n][..m + 1] == list[..m + 1];
    } else {
      m := n;
      assert list[..m + 1] == list;
    }
  }

  /** A slot's riding items share one ladder as far as handing out ranks goes: each rank past the
      first is also among the ranks any other riding item hands out at the same count. */
  ghost predicate LaddersAgree(sd: SlotData) {
    forall a, b :: IsRiding(sd, a) && IsRiding(sd, b) ==> LadderWithin(Ladder(sd, a), Ladder(sd, b))
  }

  ghost predicate LadderWithin(steps: seq<nat>, other: seq<nat>) {
    forall j :: 1 <= j < |steps| ==> steps[j] == steps[0] || steps[j] in Ranks(other, j + 1)
  }

  /** Going over any entry again once the whole list is counted changes nothing. */
  ghost predicate ReplayNeutral(sd: SlotData) {
    forall list: seq<Entry>, i: nat :: i < |list| ==> Absorb(sd, OnePass(sd, list), list[i], true) == OnePass(sd, list)
  }

  lemma RanksGranted(sd: SlotData, list: seq<Entry>, i: nat)
    requires i < |list| && IsRiding(sd, list[i].item)
    ensures var led := OnePass(sd, list[..i + 1]);
            0 < Count(led.counts, Riding)
              && Ranks(Ladder(sd, list[i].item), Count(led.counts, Riding)) <= OnePass(sd, list).handedOver
  {
    hide Classify;
    OnePassStep(sd, list, i);
    OnePassGrows(sd, list, i + 1);
  }

  lemma LadderCovered(sd: SlotData, list: seq<Entry>, i: nat)
    requires LaddersAgree(sd) && i < |list| && IsRiding(sd, list[i].item)
    ensures Ranks(Ladder(sd, list[i].item), Count(OnePass(sd, list).counts, Riding)) <= OnePass(sd, list).handedOver
  {
    hide Classify;
    var led := OnePass(sd, list);
    var steps := Ladder(sd, list[i].item);
    RanksGranted(sd, list, i);
    forall r | r in Ranks(steps, Count(led.counts, Riding)) ensures r in led.handedOver {
      var j :| 0 <= j < Count(led.counts, Riding) && j < |steps| && r == steps[j];
      assert steps[0] in Ranks(steps, Count(OnePass(sd, list[..i + 1]).counts, Riding));
      if j > 0 && steps[j] != steps[0] {
        var m := CopyAtCount(sd, list, Riding, j + 1);
        RanksGranted(sd, list, m);
        assert LadderWithin(steps, Ladder(sd, list[m].item));
      }
    }
  }

  /** Two ledgers that differ in the granted spells at most. */
  ghost predicate SameButGrants(a: Ledger, b: Ledger) {
    a == b.(handedOver := a.handedOver)
  }

  /** What is granted decides nothing else. */
  lemma GrantsAside(sd: SlotData, a: Ledger, b: Ledger, e: Entry, alreadyCounted: bool, index: int)
    requires SameButGrants(a, b)
    ensures SameButGrants(Absorb(sd, a, e, alreadyCounted), Absorb(sd, b, e, alreadyCounted))
    ensures PaymentsFor(sd, a, e, index) == PaymentsFor(sd, b, e, index)
  {
    hide Classify, Ranks;
  }

  /** An entry changes nothing once the ledger holds all it would add, ranks apart. */
  lemma AbsorbedAlready(sd: SlotData, led: Ledger, e: Entry)
    requires var k := Classify(sd, e.item);
             && (k.Goods? ==> k.wowId in led.glyphs || k.wowId !in sd.glyphs)
             && (k.Zone? ==> k.zoneId in led.zones)
             && (k.Spell? ==> k.spellId in led.handedOver)
             && (k.Progressive? ==> k.track.kind in led.counts)
             && (k.FriendTeleport? ==> led.friendTeleport)
    ensures SameButGrants(Absorb(sd, led, e, true), led)
    ensures var k := Classify(sd, e.item);
            (k.Progressive? && k.track.kind == Riding ==>
              Ranks(k.track.steps, led.counts[Riding]) <= led.handedOver) ==> Absorb(sd, led, e, true) == led
  {
    hide Classify, Ranks;
    match Classify(sd, e.item) {
      case Progressive(track) => assert led.counts[track.kind := led.counts[track.kind]] == led.counts;
      case _ =>
    }
  }

  /** Counting an entry leaves all it adds in the ledger. */
  lemma AbsorbAdds(sd: SlotData, led: Ledger, e: Entry)
    ensures var k, led' := Classify(sd, e.item), Absorb(sd, led, e, false);
            && (k.Goods? ==> k.wowId in led'.glyphs || k.wowId !in sd.glyphs)
            && (k.Zone? ==> k.zoneId in led'.zones)
            && (k.Spell? ==> k.spellId in led'.handedOver)
            && (k.Progressive? ==> k.track.kind in led'.counts)
            && (k.FriendTeleport? ==> led'.friendTeleport)
  {
    hide Classify, Ranks;
  }

  /** Going over a counted entry again can only grant, and not even that when the ladders agree. */
  lemma ReplayChangesNothing(sd: SlotData, list: seq<Entry>, i: nat)
    requires i < |list|
    ensures SameButGrants(Absorb(sd, OnePass(sd, list), list[i], true), OnePass(sd, list))
    ensures LaddersAgree(sd) ==> Absorb(sd, OnePass(sd, list), list[i], true) == OnePass(sd, list)
  {
    hide Classify, Ranks, Absorb, OnePass, LadderWithin, LaddersAgree;
    OnePassStep(sd, list, i);
    AbsorbAdds(sd, OnePass(sd, list[..i]), list[i]);
    OnePassGrows(sd, list, i + 1);
    if LaddersAgree(sd) && IsRiding(sd, list[i].item) {
      LadderCovered(sd, list, i);
    }
    AbsorbedAlready(sd, OnePass(sd, list), list[i]);
  }

  /** One copy of `a` followed by `j` of `b`, two riding items. */
  function Climb(a: int, b: int, j: nat): seq<Entry> {
    [Entry(a, 0)] + seq(j, _ => Entry(b, 0))
  }

  lemma {:induction false} ClimbGrants(sd: SlotData, a: int, b: int, j: nat)
    requires IsRiding(sd, a) && IsRiding(sd, b)
    ensures var led := OnePass(sd, Climb(a, b, j));
            && Count(led.counts, Riding) == j + 1
            && led.handedOver <= Ranks(Ladder(sd, a), 1) + Ranks(Ladder(sd, b), j + 1)
    decreases j
  {
    hide Classify;
    var list := Climb(a, b, j);
    if j == 0 {
      assert list[..0] == [];
    } else {
      ClimbGrants(sd, a, b, j - 1);
      assert list[..j] == Climb(a, b, j - 1);
    }
  }

  /** Exactly the slots whose riding items agree can be replayed freely. */
  lemma ReplayNeutralIff(sd: SlotData)
    ensures ReplayNeutral(sd) <==> LaddersAgree(sd)
  {
    if LaddersAgree(sd) {
      forall list: seq<Entry>, i: nat | i < |list|
        ensures Absorb(sd, OnePass(sd, list), list[i], true) == OnePass(sd, list)
      {
        ReplayChangesNothing(sd, list, i);
      }
    }
    if ReplayNeutral(sd) {
      forall a, b | IsRiding(sd, a) && IsRiding(sd, b) ensures LadderWithin(Ladder(sd, a), Ladder(sd, b)) {
        var steps := Ladder(sd, a);
        forall j | 1 <= j < |steps| ensures steps[j] == steps[0] || steps[j] in Ranks(Ladder(sd, b), j + 1) {
          var list := Climb(a, b, j);
          ClimbGrants(sd, a, b, j);
          assert list[0] == Entry(a, 0);
          assert Absorb(sd, OnePass(sd, list), list[0], true) == OnePass(sd, list);
          assert steps[j] in Ranks(steps, j + 1);
        }
      }
    }
  }

  // ----- What a track is worth -----

  /** A track's value is its step for the copies so far, and holds once past the end. */
  lemma ValueSaturates(track: Track, count: nat)
    requires 0 < count && |track.steps| > 0
    ensures count <= |track.steps| ==> track.ValueAt(count) == track.steps[count - 1]
    ensures count >= |track.steps| ==> track.ValueAt(count) == track.steps[|track.steps| - 1]
  {
  }

  ghost predicate NeverFalls(steps: seq<nat>) {
    forall i, j :: 0 <= i < j < |steps| ==> steps[i] <= steps[j]
  }

  /** Another copy never makes a track worth less, exactly when its steps never fall. */
  lemma ValueNeverFallsIff(track: Track)
    ensures (forall a: nat, b: nat :: a <= b ==> track.ValueAt(a) <= track.ValueAt(b)) <==> NeverFalls(track.steps)
  {
    var steps := track.steps;
    if forall a: nat, b: nat :: a <= b ==> track.ValueAt(a) <= track.ValueAt(b) {
      forall i, j | 0 <= i < j < |steps| ensures steps[i] <= steps[j] {
        assert track.ValueAt(i + 1) <= track.ValueAt(j + 1);
      }
    }
  }

  function ProgressiveStep(counts: map<ProgressiveType, nat>, track: Track): nat {
    if track.kind in counts then track.ValueAt(counts[track.kind]) else 0
  }

  /** What a track is worth after a list depends on its copies there alone. */
  lemma StepOfList(sd: SlotData, list: seq<Entry>, track: Track)
    ensures ProgressiveStep(OnePass(sd, list).counts, track) == track.ValueAt(Copies(sd, list, track.kind))
  {
    hide OnePass, Copies;
    CountsAreCopies(sd, list, track.kind);
  }

  // ----- What one pass means, without the pass -----

  function Copies(sd: SlotData, list: seq<Entry>, t: ProgressiveType): nat {
    if |list| == 0 then 0
    else
      var kind := Classify(sd, list[|list| - 1].item);
      Copies(sd, list[..|list| - 1], t) + if kind.Progressive? && kind.track.kind == t then 1 else 0
  }

  /** The senders of the Heirloom Weapon copies, in list order. */
  function WeaponSenders(sd: SlotData, list: seq<Entry>): seq<int> {
    if |list| == 0 then []
    else
      var e := list[|list| - 1];
      WeaponSenders(sd, list[..|list| - 1]) + if Classify(sd, e.item).HeirloomWeapon? then [e.player] else []
  }

  lemma {:induction false} CountsAreCopies(sd: SlotData, list: seq<Entry>, t: ProgressiveType)
    ensures Count(OnePass(sd, list).counts, t) == Copies(sd, list, t)
  {
    hide Classify, Ranks;
    if |list| > 0 {
      CountsAreCopies(sd, list[..|list| - 1], t);
    }
  }

  lemma {:induction false} SendersInOrder(sd: SlotData, list: seq<Entry>)
    ensures OnePass(sd, list).senders == WeaponSenders(sd, list)
  {
    hide Classify, Ranks;
    if |list| > 0 {
      SendersInOrder(sd, list[..|list| - 1]);
    }
  }

  /** A zone is unlocked once its item is anywhere in the list, and not before. */
  lemma {:induction false} ZonesOfList(sd: SlotData, list: seq<Entry>, z: nat)
    ensures z in OnePass(sd, list).zones <==> exists e :: e in list && Classify(sd, e.item) == Zone(z)
  {
    hide Classify, Ranks;
    if |list| > 0 {
      var n := |list| - 1;
      ZonesOfList(sd, list[..n], z);
      assert list == list[..n] + [list[n]];
    }
  }

  /** The k-th copy of a food or drink track mails its k-th step, and copies past the end nothing. */
  lemma {:induction false} CopyPays(sd: SlotData, list: seq<Entry>, n: nat)
    requires n < |list| && Classify(sd, list[n].item).Progressive?
    requires Classify(sd, list[n].item).track.kind in {Food, Drink}
    ensures var track := Classify(sd, list[n].item).track;
            var earlier := Copies(sd, list[..n], track.kind);
            Payments(sd, list[..n + 1]) == Payments(sd, list[..n])
              + if earlier < |track.steps| then [Payment(n, MailItem(track.steps[earlier], list[n].player))] else []
  {
    hide Classify;
    OnePassStep(sd, list, n);
    CountsAreCopies(sd, list[..n], Classify(sd, list[n].item).track.kind);
  }

  /** Payments come in list order, at most one per index, and only for the indices of the list. */
  lemma {:induction false} PaymentsOnce(sd: SlotData, list: seq<Entry>)
    ensures forall p :: p in Payments(sd, list) ==> 0 <= p.index < |list|
    ensures forall i, j :: 0 <= i < j < |Payments(sd, list)| ==>
            Payments(sd, list)[i].index < Payments(sd, list)[j].index
  {
    hide Classify;
    if |list| > 0 {
      PaymentsOnce(sd, list[..|list| - 1]);
    }
  }

  /** An index whose entry has a one-shot reward is paid it. */
  lemma {:induction false} PaymentsAll(sd: SlotData, list: seq<Entry>, i: nat)
    requires i < |list|
    ensures forall p :: p in PaymentsFor(sd, OnePass(sd, list[..i + 1]), list[i], i) ==> p in Payments(sd, list)
    decreases |list|
  {
    hide Classify;
    var n := |list| - 1;
    if i < n {
      PaymentsAll(sd, list[..n], i);
      assert list[..n][..i + 1] == list[..i + 1];
    } else {
      assert list[..i + 1] == list;
    }
  }
}
