/** What a slot's items are for, read off the slot data's tables alone: whichever table names an item
    first decides what it pays and what it leaves behind. */
module SlotTables {
  import opened SlotItems
  import opened ItemDelivery
  import opened DeliveryRuns

  const GOODS := 0
  const PIECES := 1
  const WEAPON := 2
  const WORLD_BUFF := 3
  const TRAPS := 4
  const GEAR := 5
  const ZONES := 6
  const SPELLS := 7
  const PROGRESSIVE := 8
  const LEVELS := 9
  const FRIEND_TELEPORT := 10
  const GOLD_POUCH := 11

  /** Whether the slot data's k-th table names an item. Item 0 is no heirloom. */
  predicate Names(sd: SlotData, k: nat, item: int) {
    || (k == GOODS && item in sd.goods)
    || (k == PIECES && item in sd.pieces && item != 0)
    || (k == WEAPON && item == sd.weapon)
    || (k == WORLD_BUFF && item == sd.worldBuff)
    || (k == TRAPS && item in sd.traps)
    || (k == GEAR && item in sd.gear)
    || (k == ZONES && item in sd.zones)
    || (k == SPELLS && item in sd.spells)
    || (k == PROGRESSIVE && item in sd.progressive)
    || (k == LEVELS && item == sd.levels)
    || (k == FRIEND_TELEPORT && item == sd.friendTeleport)
    || (k == GOLD_POUCH && item == sd.goldPouch)
  }

  /** The k-th table names the item, and none before it does. */
  predicate From(sd: SlotData, k: nat, item: int) {
    Names(sd, k, item) && forall j: nat :: j < k ==> !Names(sd, j, item)
  }

  predicate IsCopy(sd: SlotData, item: int, t: ProgressiveType) {
    From(sd, PROGRESSIVE, item) && sd.progressive[item].kind == t
  }

  /** The indices below `n` that hold a copy of a track. */
  function CopiesBefore(sd: SlotData, list: seq<Entry>, t: ProgressiveType, n: nat): set<nat>
    requires n <= |list|
  {
    set i: nat | i < n && IsCopy(sd, list[i].item, t)
  }

  function WeaponsBefore(sd: SlotData, list: seq<Entry>, n: nat): set<nat>
    requires n <= |list|
  {
    set i: nat | i < n && From(sd, WEAPON, list[i].item)
  }

  // ----- The branches, table by table -----

  function TableOf(k: Kind): nat {
    match k
    case Goods(_) => GOODS
    case Heirloom(_) => PIECES
    case HeirloomWeapon => WEAPON
    case WorldBuff => WORLD_BUFF
    case Trap(_) => TRAPS
    case Gear(_, _) => GEAR
    case Zone(_) => ZONES
    case Spell(_) => SPELLS
    case Progressive(_) => PROGRESSIVE
    case Level => LEVELS
    case FriendTeleport => FRIEND_TELEPORT
    case GoldPouch => GOLD_POUCH
    case Unknown => GOLD_POUCH + 1
  }

  /** The branch taken is that of the first table that names the item. */
  lemma Branch(sd: SlotData, item: int)
    ensures var k := Classify(sd, item);
            if k.Unknown? then forall j: nat :: !Names(sd, j, item) else From(sd, TableOf(k), item)
  {
  }

  lemma OneTable(sd: SlotData, item: int)
    ensures forall j: nat, k: nat :: From(sd, j, item) && From(sd, k, item) ==> j == k
  {
    hide Names;
  }

  lemma BranchIff(sd: SlotData, item: int, k: nat)
    requires k <= GOLD_POUCH
    ensures From(sd, k, item) <==> TableOf(Classify(sd, item)) == k
  {
    hide Names, Classify;
    Branch(sd, item);
    OneTable(sd, item);
  }

  lemma Contents(sd: SlotData, item: int)
    ensures var k := Classify(sd, item);
            && (k.Goods? ==> item in sd.goods && k.wowId == sd.goods[item])
            && (k.Heirloom? ==> k.apItemId == item)
            && (k.Trap? ==> item in sd.traps && k.trap == sd.traps[item])
            && (k.Gear? ==> item in sd.gear && (k.category, k.quality) == sd.gear[item])
            && (k.Zone? ==> item in sd.zones && k.zoneId == sd.zones[item])
            && (k.Spell? ==> item in sd.spells && k.spellId == sd.spells[item])
            && (k.Progressive? ==> item in sd.progressive && k.track == sd.progressive[item])
  {
  }

  // ----- What is paid -----

  /** What an index of the list is owed: one reward at most, and from the first table alone. */
  predicate Owes(sd: SlotData, list: seq<Entry>, i: nat, r: Reward)
    requires i < |list|
  {
    var item, player := list[i].item, list[i].player;
    match r
    case GiveLevel => From(sd, LEVELS, item)
    case MailGold(sender) => From(sd, GOLD_POUCH, item) && sender == player
    case ApplyBuff => From(sd, WORLD_BUFF, item)
    case ReceiveTrap(trap) => From(sd, TRAPS, item) && trap == sd.traps[item]
    case RollGear(category, quality, sender) =>
      From(sd, GEAR, item) && (category, quality) == sd.gear[item] && sender == player
    case MailHeirloom(piece, sender) => From(sd, PIECES, item) && piece == item && sender == player
    case MailItem(wowId, sender) =>
      sender == player && ((From(sd, GOODS, item) && wowId == sd.goods[item]) || Serves(sd, list, i, wowId))
  }

  /** The next step of a food or drink track, while there is one. */
  predicate Serves(sd: SlotData, list: seq<Entry>, i: nat, wowId: nat)
    requires i < |list|
  {
    var item := list[i].item;
    From(sd, PROGRESSIVE, item) && (sd.progressive[item].kind == Food || sd.progressive[item].kind == Drink)
    && var track := sd.progressive[item]; var earlier := |CopiesBefore(sd, list, track.kind, i)|;
       earlier < |track.steps| && wowId == track.steps[earlier]
  }

  lemma {:induction false} CopiesCounted(sd: SlotData, list: seq<Entry>, t: ProgressiveType, n: nat)
    requires n <= |list|
    ensures Copies(sd, list[..n], t) == |CopiesBefore(sd, list, t, n)|
  {
    hide Classify, From;
    if n > 0 {
      CopiesCounted(sd, list, t, n - 1);
      assert list[..n][..n - 1] == list[..n - 1];
      BranchIff(sd, list[n - 1].item, PROGRESSIVE);
      Contents(sd, list[n - 1].item);
      OneMoreIndex(sd, list, t, n - 1);
    }
  }

  lemma OneMoreIndex(sd: SlotData, list: seq<Entry>, t: ProgressiveType, i: nat)
    requires i < |list|
    ensures |CopiesBefore(sd, list, t, i + 1)|
         == |CopiesBefore(sd, list, t, i)| + if IsCopy(sd, list[i].item, t) then 1 else 0
  {
    hide IsCopy;
    var before := CopiesBefore(sd, list, t, i);
    assert CopiesBefore(sd, list, t, i + 1) == if IsCopy(sd, list[i].item, t) then before + {i} else before;
  }

  /** Each payment is the one its own index makes when the list is read up to it. */
  lemma {:induction false} PaymentFrom(sd: SlotData, list: seq<Entry>, p: Payment)
    requires p in Payments(sd, list)
    ensures 0 <= p.index < |list|
    ensures p in PaymentsFor(sd, OnePass(sd, list[..p.index + 1]), list[p.index], p.index)
    decreases |list|
  {
    hide Absorb, RewardOf;
    var n := |list| - 1;
    if p in Payments(sd, list[..n]) {
      PaymentFrom(sd, list[..n], p);
      assert list[..n][..p.index + 1] == list[..p.index + 1];
    } else {
      assert list[..n + 1] == list;
    }
  }

  lemma OwedByIndex(sd: SlotData, list: seq<Entry>, i: nat, r: Reward)
    requires i < |list|
    ensures RewardOf(sd, OnePass(sd, list[..i + 1]), list[i]) == [r] <==> Owes(sd, list, i, r)
  {
    hide Classify, From, OnePass, Copies, CopiesBefore;
    var item, kind := list[i].item, Classify(sd, list[i].item);
    forall k: nat | k <= GOLD_POUCH ensures From(sd, k, item) <==> TableOf(kind) == k {
      BranchIff(sd, item, k);
    }
    Contents(sd, item);
    if kind.Progressive? {
      var t := kind.track.kind;
      CountsAreCopies(sd, list[..i + 1], t);
      CopiesCounted(sd, list, t, i);
      OneMoreCopy(sd, list, i);
    }
  }

  lemma OneMoreCopy(sd: SlotData, list: seq<Entry>, i: nat)
    requires i < |list| && Classify(sd, list[i].item).Progressive?
    ensures var t := Classify(sd, list[i].item).track.kind;
            Copies(sd, list[..i + 1], t) == Copies(sd, list[..i], t) + 1
  {
    hide Classify;
    assert list[..i + 1][..i] == list[..i];
  }

  /** Everything a list pays: index i pays exactly what the first table that names its item says. */
  lemma WhatIsPaid(sd: SlotData, list: seq<Entry>, i: nat, r: Reward)
    ensures Payment(i, r) in Payments(sd, list) <==> i < |list| && Owes(sd, list, i, r)
  {
    hide Owes, OnePass, Payments, RewardOf;
    if Payment(i, r) in Payments(sd, list) {
      PaymentFrom(sd, list, Payment(i, r));
    } else if i < |list| {
      PaymentsAll(sd, list, i);
    }
    if i < |list| {
      OwedByIndex(sd, list, i, r);
      AtMostOne(sd, OnePass(sd, list[..i + 1]), list[i]);
    }
  }

  lemma AtMostOne(sd: SlotData, led: Ledger, e: Entry)
    ensures |RewardOf(sd, led, e)| <= 1
  {
    hide Classify;
  }

  // ----- What is left in the ledger -----

  predicate Unlocks(sd: SlotData, item: int, zone: nat) {
    From(sd, ZONES, item) && sd.zones[item] == zone
  }

  predicate Records(sd: SlotData, item: int, glyph: nat) {
    From(sd, GOODS, item) && sd.goods[item] == glyph && glyph in sd.glyphs
  }

  /** A spell of its own, or a rank of the riding ladder up to the copies so far, this one among them. */
  predicate Grants(sd: SlotData, list: seq<Entry>, i: nat, spell: nat)
    requires i < |list|
  {
    var item := list[i].item;
    || (From(sd, SPELLS, item) && sd.spells[item] == spell)
    || (IsCopy(sd, item, Riding)
        && exists r :: 0 <= r <= |CopiesBefore(sd, list, Riding, i)| && r < |sd.progressive[item].steps|
                       && sd.progressive[item].steps[r] == spell)
  }

  /** What one more entry adds to the sets. */
  lemma AddsToSets(sd: SlotData, list: seq<Entry>, n: nat)
    requires n < |list|
    ensures var item, led, t := list[n].item, OnePass(sd, list[..n]), OnePass(sd, list[..n + 1]);
            && (forall z :: z in t.zones <==> z in led.zones || Unlocks(sd, item, z))
            && (forall g :: g in t.glyphs <==> g in led.glyphs || Records(sd, item, g))
            && (t.friendTeleport <==> led.friendTeleport || From(sd, FRIEND_TELEPORT, item))
  {
    hide Classify, From, OnePass;
    var item := list[n].item;
    OnePassStep(sd, list, n);
    BranchIff(sd, item, ZONES);
    BranchIff(sd, item, GOODS);
    BranchIff(sd, item, FRIEND_TELEPORT);
    Contents(sd, item);
  }

  lemma AddsToGrants(sd: SlotData, list: seq<Entry>, n: nat, x: nat)
    requires n < |list|
    ensures x in OnePass(sd, list[..n + 1]).handedOver
       <==> x in OnePass(sd, list[..n]).handedOver || Grants(sd, list, n, x)
  {
    hide Classify, From, OnePass, Copies, CopiesBefore;
    var item := list[n].item;
    OnePassStep(sd, list, n);
    BranchIff(sd, item, SPELLS);
    BranchIff(sd, item, PROGRESSIVE);
    Contents(sd, item);
    CountsAreCopies(sd, list[..n], Riding);
    CopiesCounted(sd, list, Riding, n);
  }

  /** Everything a list leaves behind, read off the tables. */
  lemma {:induction false} WhatIsLeft(sd: SlotData, list: seq<Entry>, n: nat)
    requires n <= |list|
    ensures var led := OnePass(sd, list[..n]);
            && (forall t :: Count(led.counts, t) == |CopiesBefore(sd, list, t, n)|)
            && (forall z :: z in led.zones <==> exists i :: 0 <= i < n && Unlocks(sd, list[i].item, z))
            && (forall g :: g in led.glyphs <==> exists i :: 0 <= i < n && Records(sd, list[i].item, g))
            && (forall x :: x in led.handedOver <==> exists i :: 0 <= i < n && Grants(sd, list, i, x))
            && (led.friendTeleport <==> exists i :: 0 <= i < n && From(sd, FRIEND_TELEPORT, list[i].item))
  {
    hide Count, Copies, CopiesBefore, Unlocks, Records, Grants, From, Absorb;
    forall t ensures Count(OnePass(sd, list[..n]).counts, t) == |CopiesBefore(sd, list, t, n)| {
      CountsAreCopies(sd, list[..n], t);
      CopiesCounted(sd, list, t, n);
    }
    if n > 0 {
      WhatIsLeft(sd, list, n - 1);
      hide OnePass;
      AddsToSets(sd, list, n - 1);
      forall x ensures x in OnePass(sd, list[..n]).handedOver
                  <==> x in OnePass(sd, list[..n - 1]).handedOver || Grants(sd, list, n - 1, x) {
        AddsToGrants(sd, list, n - 1, x);
      }
    }
  }

  /** The senders are those of the weapon's copies, each at the place of its copy. */
  lemma {:induction false} SendersByTables(sd: SlotData, list: seq<Entry>, n: nat)
    requires n <= |list|
    ensures var senders := OnePass(sd, list[..n]).senders;
            && |senders| == |WeaponsBefore(sd, list, n)|
            && forall i :: 0 <= i < n && From(sd, WEAPON, list[i].item) ==>
                 |WeaponsBefore(sd, list, i)| < |senders| && senders[|WeaponsBefore(sd, list, i)|] == list[i].player
  {
    hide Classify, From, OnePass, WeaponsBefore;
    if n == 0 {
      NoWeapons(sd, list);
    } else {
      SendersByTables(sd, list, n - 1);
      OneMoreSender(sd, list, n - 1);
      OneMoreWeapon(sd, list, n - 1);
    }
  }

  lemma OneMoreSender(sd: SlotData, list: seq<Entry>, i: nat)
    requires i < |list|
    ensures OnePass(sd, list[..i + 1]).senders
         == OnePass(sd, list[..i]).senders + if From(sd, WEAPON, list[i].item) then [list[i].player] else []
  {
    hide Classify, From, OnePass, Ranks;
    OnePassStep(sd, list, i);
    BranchIff(sd, list[i].item, WEAPON);
  }

  lemma NoWeapons(sd: SlotData, list: seq<Entry>)
    ensures OnePass(sd, list[..0]).senders == [] && WeaponsBefore(sd, list, 0) == {}
  {
  }

  lemma OneMoreWeapon(sd: SlotData, list: seq<Entry>, i: nat)
    requires i < |list|
    ensures |WeaponsBefore(sd, list, i + 1)|
         == |WeaponsBefore(sd, list, i)| + if From(sd, WEAPON, list[i].item) then 1 else 0
  {
    hide From;
    var before := WeaponsBefore(sd, list, i);
    assert WeaponsBefore(sd, list, i + 1) == if From(sd, WEAPON, list[i].item) then before + {i} else before;
  }

  // ----- Over whole runs -----

  /** Over any run a character has been paid, of each index up to `itemIndex` and of no other, exactly
      what the slot's tables owe it. */
  lemma RunPays(sd: SlotData, events: seq<Event>, worlds: seq<World>, n: nat, i: nat, r: Reward)
    requires IsRun(sd, events, worlds) && n <= |events|
    ensures var w := worlds[n];
            && w.me.itemIndex < |w.list|
            && (Payment(i, r) in w.me.payments <==> i <= w.me.itemIndex && Owes(sd, w.list, i, r))
  {
    hide Owes, Payments, OnePass, PaymentsFor;
    ExactlyOnce(sd, events, worlds, n);
    var w := worlds[n];
    var seen := w.list[..w.me.itemIndex + 1];
    WhatIsPaid(sd, seen, i, r);
    if i <= w.me.itemIndex {
      OwedEarly(sd, w.list, w.me.itemIndex + 1, i, r);
    }
  }

  /** What an index is owed depends on the list up to it. */
  lemma OwedEarly(sd: SlotData, list: seq<Entry>, n: nat, i: nat, r: Reward)
    requires i < n <= |list|
    ensures Owes(sd, list[..n], i, r) <==> Owes(sd, list, i, r)
  {
    hide From;
    forall t ensures CopiesBefore(sd, list[..n], t, i) == CopiesBefore(sd, list, t, i) {
    }
  }

  /** A batch is not over before its rewards are paid: once one has reached the list's end, whatever
      was cut, replayed or relogged before, everything the list owes is paid, and the ledger holds
      every copy of it. */
  lemma BatchDelivers(sd: SlotData, events: seq<Event>, worlds: seq<World>, n: nat)
    requires IsRun(sd, events, worlds) && n < |events| && events[n].Batch? && events[n].lo < events[n].hi
    ensures var w := worlds[n + 1];
            && w.list == worlds[n].list
            && w.me.itemIndex >= events[n].hi - 1 && w.me.countedItemIndex >= events[n].hi - 1
            && (events[n].hi == |w.list| ==>
                  w.me.payments == Payments(sd, w.list) && SameButGrants(w.me.ledger, OnePass(sd, w.list)))
  {
    hide Payments, OnePass, RewardItems, WeaponInv, NothingStuck, LaddersAgree, HighestIndex;
    var v, e, w := worlds[n], events[n], worlds[n + 1];
    assert StepsTo(sd, v, e, w);
    RunKeeps(sd, events, worlds, n);
    RunKeeps(sd, events, worlds, n + 1);
    SliceHighest(v.me.itemIndex, v.list, e.lo, e.hi);
    SliceHighest(v.me.countedItemIndex, v.list, e.lo, e.hi);
    assert w.list[..|w.list|] == w.list;
  }
}
