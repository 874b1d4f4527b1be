/** Delivery of the server's item list to a character, over sessions, reconnects and replays. */
module ItemDelivery {
  import opened SlotItems
  import TrapList

  /** An item as the client hands it over: the entry and its index in the slot's list. */
  datatype NetworkItem = NetworkItem(item: int, player: int, index: int)

  datatype WeaponMail = WeaponMail(slot: nat, weapon: nat, sender: int)

  /** The character's database row and preferences row; of the saved traps only their number matters here. */
  datatype Saved = Saved(itemIndex: int, weapons: seq<nat>, weaponsSent: nat, traps: nat)

  /** How things stand with the player: the trap types that could spring, and whether it is alive. */
  datatype Circumstances = Circumstances(springable: set<TrapType>, alive: bool)

  /** `waiting` is how many traps wait to spring: they share the preferences row. */
  datatype State = State(
    saved: Saved,
    itemIndex: int,
    countedItemIndex: int,
    ledger: Ledger,
    weapons: seq<nat>,
    weaponsSent: nat,
    payments: seq<Payment>,
    weaponMails: seq<WeaponMail>,
    waiting: nat,
    player: Circumstances)

  /** A character of a new session: what is saved, and nothing of the list counted yet. */
  function Login(saved: Saved, payments: seq<Payment>, weaponMails: seq<WeaponMail>, player: Circumstances): State {
    State(saved, saved.itemIndex, -1, EMPTY_LEDGER, saved.weapons, saved.weaponsSent, payments, weaponMails,
          saved.traps, player)
  }

  const NEW_ROW := Saved(-1, [0, 0, 0], 0, 0)

  // ----- Heirloom weapons -----

  function WeaponInSlot(sd: SlotData, weapons: seq<nat>, slot: nat): nat
    requires |weapons| == MAX_HEIRLOOM_WEAPON_SLOTS
  {
    if slot >= sd.weaponSlots then 0
    else if |sd.weaponChoices| == 1 then sd.weaponChoices[0]
    else weapons[slot]
  }

  function PendingWeapons(sd: SlotData, arrivedCopies: nat, sent: nat): nat {
    var arrived := if arrivedCopies < sd.weaponSlots then arrivedCopies else sd.weaponSlots;
    if arrived > sent then arrived - sent else 0
  }

  ghost predicate WeaponShape(s: State) {
    |s.weapons| == MAX_HEIRLOOM_WEAPON_SLOTS
  }

  /** Mails the waiting weapons in slot order, up to the first empty slot. */
  function MailWeapons(sd: SlotData, s: State): (t: State)
    requires WeaponShape(s)
    ensures WeaponShape(t)
    ensures t == s.(weaponsSent := t.weaponsSent, weaponMails := t.weaponMails) && s.weaponsSent <= t.weaponsSent
    decreases PendingWeapons(sd, |s.ledger.senders|, s.weaponsSent)
  {
    var weapon := WeaponInSlot(sd, s.weapons, s.weaponsSent);
    if PendingWeapons(sd, |s.ledger.senders|, s.weaponsSent) == 0 || weapon == 0 then s
    else MailWeapons(sd, s.(
      weaponMails := s.weaponMails + [WeaponMail(s.weaponsSent, weapon, s.ledger.senders[s.weaponsSent])],
      weaponsSent := s.weaponsSent + 1))
  }

  /** A row whose traps do not fit its column is refused as a whole, and the old one stays. */
  function SavePreferences(s: State): State {
    if s.waiting > TrapList.TRAPS_THAT_FIT then s
    else s.(saved := s.saved.(weapons := s.weapons, weaponsSent := s.weaponsSent, traps := s.waiting))
  }

  function SendPendingWeapons(sd: SlotData, s: State): (t: State)
    requires WeaponShape(s)
    ensures WeaponShape(t)
  {
    var t := MailWeapons(sd, s);
    if t.weaponsSent != s.weaponsSent then SavePreferences(t) else t
  }

  function ChooseWeapon(sd: SlotData, s: State, slot: nat, weapon: nat): (t: State)
    requires WeaponShape(s)
    ensures WeaponShape(t)
  {
    if slot >= sd.weaponSlots || slot < s.weaponsSent || weapon !in sd.weaponChoices then s
    else SendPendingWeapons(sd, SavePreferences(s.(weapons := s.weapons[slot := weapon])))
  }

  // ----- Items -----

  /** What a reward does to the preferences: a trap waits with the others, and one that cannot spring, or
      a buff for a dead player, has the row saved. */
  function Settle(s: State, rewards: seq<Reward>): State {
    if |rewards| == 0 then s
    else match rewards[0]
      case ReceiveTrap(trap) =>
        var t := s.(waiting := s.waiting + 1);
        if trap in s.player.springable then t else SavePreferences(t)
      case ApplyBuff => if s.player.alive then s else SavePreferences(s)
      case _ => s
  }

  function RewardItem(sd: SlotData, s: State, item: NetworkItem, alreadyRewarded: bool,
      alreadyCounted: bool): (t: State)
    requires WeaponShape(s)
    ensures WeaponShape(t)
  {
    var e := Entry(item.item, item.player);
    var led := Absorb(sd, s.ledger, e, alreadyCounted);
    var t := s.(ledger := led);
    if Classify(sd, item.item).HeirloomWeapon? then SendPendingWeapons(sd, t)
    else if alreadyRewarded then t
    else Settle(t.(payments := t.payments + PaymentsFor(sd, led, e, item.index)), RewardOf(sd, led, e))
  }

  /** A reward that is paid on the first pass alone, and leaves the ledger as it is. */
  predicate IsOneShot(sd: SlotData, item: int, sender: int, reward: Reward) {
    match Classify(sd, item)
    case Heirloom(id) => reward == MailHeirloom(id, sender)
    case WorldBuff => reward == ApplyBuff
    case Trap(t) => reward == ReceiveTrap(t)
    case Gear(c, q) => reward == RollGear(c, q, sender)
    case Level => reward == GiveLevel
    case GoldPouch => reward == MailGold(sender)
    case _ => false
  }

  lemma OneShotReward(sd: SlotData, s: State, item: NetworkItem, reward: Reward, alreadyRewarded: bool,
      alreadyCounted: bool)
    requires WeaponShape(s) && IsOneShot(sd, item.item, item.player, reward)
    ensures RewardItem(sd, s, item, alreadyRewarded, alreadyCounted) ==
            if alreadyRewarded then s else Settle(s.(payments := s.payments + [Payment(item.index, reward)]), [reward])
  {
    hide Classify, SavePreferences;
  }

  /** What only adds to the ledger. */
  lemma LedgerReward(sd: SlotData, s: State, item: NetworkItem, alreadyRewarded: bool, alreadyCounted: bool)
    requires WeaponShape(s)
    ensures var k := Classify(sd, item.item); var t := RewardItem(sd, s, item, alreadyRewarded, alreadyCounted);
            && (k.Zone? ==> t == s.(ledger := s.ledger.(zones := s.ledger.zones + {k.zoneId})))
            && (k.Spell? ==> t == s.(ledger := s.ledger.(handedOver := s.ledger.handedOver + {k.spellId})))
            && (k.FriendTeleport? ==> t == s.(ledger := s.ledger.(friendTeleport := true)))
            && (k.Unknown? ==> t == s)
  {
    hide Classify, SavePreferences;
    assert s.payments + [] == s.payments;
  }

  lemma GoodsReward(sd: SlotData, s: State, item: NetworkItem, alreadyRewarded: bool, alreadyCounted: bool)
    requires WeaponShape(s) && Classify(sd, item.item).Goods?
    ensures var id := Classify(sd, item.item).wowId;
            var led := if id in sd.glyphs then s.ledger.(glyphs := s.ledger.glyphs + {id}) else s.ledger;
            var paid := if alreadyRewarded then [] else [Payment(item.index, MailItem(id, item.player))];
            RewardItem(sd, s, item, alreadyRewarded, alreadyCounted) == s.(ledger := led, payments := s.payments + paid)
  {
    hide Classify, SavePreferences;
    assert s.payments + [] == s.payments;
  }

  /** A copy of a track, branch by branch. */
  lemma ProgressiveReward(sd: SlotData, s: State, item: NetworkItem, alreadyRewarded: bool, alreadyCounted: bool)
    requires WeaponShape(s) && Classify(sd, item.item).Progressive?
    ensures var track := Classify(sd, item.item).track;
            var count := Count(s.ledger.counts, track.kind) + if alreadyCounted then 0 else 1;
            var led := s.ledger.(counts := s.ledger.counts[track.kind := count]);
            var ranked := led.(handedOver := led.handedOver + Ranks(track.steps, count));
            var mails := track.kind in {Food, Drink} && !alreadyRewarded && 0 < count <= |track.steps|;
            var paid := if mails then [Payment(item.index, MailItem(track.steps[count - 1], item.player))] else [];
            RewardItem(sd, s, item, alreadyRewarded, alreadyCounted) ==
            s.(ledger := if track.kind == Riding then ranked else led, payments := s.payments + paid)
  {
    hide Classify, Ranks, SendPendingWeapons, SavePreferences;
    assert s.payments + [] == s.payments;
  }

  /** An update on which `n` of the waiting traps go off. */
  function Spring(s: State, n: nat): State
    requires n <= s.waiting
  {
    if n == 0 then s else SavePreferences(s.(waiting := s.waiting - n))
  }

  /** The items of a batch, all judged by the indices the batch started with. */
  function RewardItems(sd: SlotData, s: State, items: seq<NetworkItem>): (t: State)
    requires WeaponShape(s)
    ensures WeaponShape(t)
    ensures t.itemIndex == s.itemIndex && t.countedItemIndex == s.countedItemIndex
    ensures t.saved.itemIndex == s.saved.itemIndex
  {
    if |items| == 0 then s
    else
      var last := items[|items| - 1];
      RewardItem(sd, RewardItems(sd, s, items[..|items| - 1]), last, s.itemIndex >= last.index,
        s.countedItemIndex >= last.index)
  }

  function HighestIndex(start: int, items: seq<NetworkItem>): int {
    if |items| == 0 then start
    else
      var m := HighestIndex(start, items[..|items| - 1]);
      var last := items[|items| - 1].index;
      if last > m then last else m
  }

  function ReceiveItems(sd: SlotData, s: State, items: seq<NetworkItem>): (t: State)
    requires WeaponShape(s)
    ensures WeaponShape(t)
  {
    var t := RewardItems(sd, s, items);
    var newItemIndex := HighestIndex(s.itemIndex, items);
    t.(countedItemIndex := HighestIndex(s.countedItemIndex, items),
       itemIndex := newItemIndex,
       saved := if newItemIndex != s.itemIndex then t.saved.(itemIndex := newItemIndex) else t.saved)
  }

  // ----- The handler itself -----

  /** The rows of the module's database that outlive a session, and what has reached the player. */
  class Store {
    var row: Saved
    var payments: seq<Payment>
    var weaponMails: seq<WeaponMail>

    constructor ()
      ensures row == NEW_ROW && payments == [] && weaponMails == []
    {
      row := NEW_ROW;
      payments := [];
      weaponMails := [];
    }
  }

  class Character {
    const sd: SlotData
    const store: Store
    var itemIndex: int
    var countedItemIndex: int
    var progressiveCounts: map<ProgressiveType, nat>
    var heirloomWeaponSenders: seq<int>
    var unlockedZones: set<nat>
    var handedOverSpells: set<nat>
    var receivedGlyphs: set<nat>
    var friendTeleportUnlocked: bool
    const heirloomWeapons: array<nat>
    var heirloomWeaponsSent: nat
    var waitingTraps: nat
    var circumstances: Circumstances

    ghost predicate Valid()
      reads this, heirloomWeapons
    {
      heirloomWeapons.Length == MAX_HEIRLOOM_WEAPON_SLOTS
    }

    ghost function Abs(): (s: State)
      reads this, store, heirloomWeapons
      requires Valid()
      ensures WeaponShape(s)
    {
      State(store.row, itemIndex, countedItemIndex,
            Ledger(progressiveCounts, heirloomWeaponSenders, unlockedZones, handedOverSpells, receivedGlyphs,
              friendTeleportUnlocked),
            heirloomWeapons[..], heirloomWeaponsSent, store.payments, store.weaponMails, waitingTraps, circumstances)
    }

    /** Loads a bound character from its rows. */
    constructor (sd: SlotData, store: Store, circumstances: Circumstances)
      requires |store.row.weapons| == MAX_HEIRLOOM_WEAPON_SLOTS
      ensures Valid() && this.sd == sd && this.store == store && fresh(heirloomWeapons)
      ensures Abs() == Login(store.row, store.payments, store.weaponMails, circumstances)
    {
      this.sd := sd;
      this.store := store;
      itemIndex := store.row.itemIndex;
      countedItemIndex := -1;
      progressiveCounts := map[];
      heirloomWeaponSenders := [];
      unlockedZones, handedOverSpells, receivedGlyphs := {}, {}, {};
      friendTeleportUnlocked := false;
      var weapons := store.row.weapons;
      heirloomWeapons := new nat[MAX_HEIRLOOM_WEAPON_SLOTS](
        i requires 0 <= i < MAX_HEIRLOOM_WEAPON_SLOTS => weapons[i]);
      heirloomWeaponsSent := store.row.weaponsSent;
      waitingTraps := store.row.traps;
      this.circumstances := circumstances;
      new;
      assert heirloomWeapons[..] == store.row.weapons;
    }

    function GetHeirloomWeapon(slot: nat): nat
      reads this, heirloomWeapons
      requires Valid()
    {
      WeaponInSlot(sd, heirloomWeapons[..], slot)
    }

    function GetPendingHeirloomWeapons(): nat
      reads this
    {
      PendingWeapons(sd, |heirloomWeaponSenders|, heirloomWeaponsSent)
    }

    method StorePreferences()
      requires Valid()
      modifies store
      ensures Valid() && Abs() == SavePreferences(old(Abs()))
    {
      if waitingTraps <= TrapList.TRAPS_THAT_FIT {
        store.row := store.row.(weapons := heirloomWeapons[..], weaponsSent := heirloomWeaponsSent,
          traps := waitingTraps);
      }
    }

    method SendPendingHeirloomWeapons()
      requires Valid()
      modifies this`heirloomWeaponsSent, store
      ensures Valid() && Abs() == SendPendingWeapons(sd, old(Abs()))
    {
      var sentBefore := heirloomWeaponsSent;
      ghost var start := Abs();
      while GetPendingHeirloomWeapons() > 0
        invariant Valid() && Abs() == start.(weaponsSent := heirloomWeaponsSent, weaponMails := store.weaponMails)
        invariant MailWeapons(sd, Abs()) == MailWeapons(sd, start)
        decreases GetPendingHeirloomWeapons()
      {
        var weapon := GetHeirloomWeapon(heirloomWeaponsSent);
        if weapon == 0 {
          break;
        }
        store.weaponMails := store.weaponMails
          + [WeaponMail(heirloomWeaponsSent, weapon, heirloomWeaponSenders[heirloomWeaponsSent])];
        heirloomWeaponsSent := heirloomWeaponsSent + 1;
      }
      assert Abs() == MailWeapons(sd, start);
      if heirloomWeaponsSent != sentBefore {
        StorePreferences();
      }
    }

    method SetHeirloomWeapon(slot: nat, itemId: nat)
      requires Valid()
      modifies this`heirloomWeaponsSent, store, heirloomWeapons
      ensures Valid() && Abs() == ChooseWeapon(sd, old(Abs()), slot, itemId)
    {
      if slot >= sd.weaponSlots || slot < heirloomWeaponsSent || itemId !in sd.weaponChoices {
        return;
      }
      heirloomWeapons[slot] := itemId;
      assert heirloomWeapons[..] == old(heirloomWeapons[..])[slot := itemId];
      StorePreferences();
      SendPendingHeirloomWeapons();
    }

    method Pay(item: NetworkItem, reward: Reward)
      modifies store`payments
      ensures store.payments == old(store.payments) + [Payment(item.index, reward)]
    {
      store.payments := store.payments + [Payment(item.index, reward)];
    }

    method SpringTraps(n: nat)
      requires Valid() && n <= waitingTraps
      modifies this`waitingTraps, store
      ensures Valid() && Abs() == Spring(old(Abs()), n)
    {
      if n == 0 {
        return;
      }
      waitingTraps := waitingTraps - n;
      StorePreferences();
    }

    method ReceiveTrapOf(item: NetworkItem, trap: TrapType)
      requires Valid()
      modifies this`waitingTraps, store
      ensures Valid()
      ensures var s := old(Abs());
              Abs() == Settle(s.(payments := s.payments + [Payment(item.index, ReceiveTrap(trap))]),
                [ReceiveTrap(trap)])
    {
      hide SavePreferences;
      Pay(item, ReceiveTrap(trap));
      waitingTraps := waitingTraps + 1;
      if trap !in circumstances.springable {
        StorePreferences();
      }
    }

    method ApplyWorldBuff(item: NetworkItem)
      requires Valid()
      modifies store
      ensures Valid()
      ensures var s := old(Abs());
              Abs() == Settle(s.(payments := s.payments + [Payment(item.index, ApplyBuff)]), [ApplyBuff])
    {
      hide SavePreferences;
      Pay(item, ApplyBuff);
      if !circumstances.alive {
        StorePreferences();
      }
    }

    method RewardOnce(item: NetworkItem, reward: Reward, alreadyRewarded: bool, alreadyCounted: bool)
      requires Valid() && IsOneShot(sd, item.item, item.player, reward)
      modifies this`waitingTraps, store
      ensures Valid() && Abs() == RewardItem(sd, old(Abs()), item, alreadyRewarded, alreadyCounted)
    {
      hide RewardItem, IsOneShot, SavePreferences;
      OneShotReward(sd, Abs(), item, reward, alreadyRewarded, alreadyCounted);
      if alreadyRewarded {
        return;
      }
      match reward {
        case ReceiveTrap(trap) => ReceiveTrapOf(item, trap);
        case ApplyBuff => ApplyWorldBuff(item);
        case _ => Pay(item, reward);
      }
    }

    method ReceiveGoods(item: NetworkItem, alreadyRewarded: bool, alreadyCounted: bool)
      requires Valid() && Classify(sd, item.item).Goods?
      modifies this`receivedGlyphs, store`payments
      ensures Valid() && Abs() == RewardItem(sd, old(Abs()), item, alreadyRewarded, alreadyCounted)
    {
      hide RewardItem, Classify;
      GoodsReward(sd, Abs(), item, alreadyRewarded, alreadyCounted);
      var wowId := Classify(sd, item.item).wowId;
      if wowId in sd.glyphs {
        receivedGlyphs := receivedGlyphs + {wowId};
      }
      if !alreadyRewarded {
        Pay(item, MailItem(wowId, item.player));
      }
    }

    method ReceiveWeapon(item: NetworkItem, alreadyRewarded: bool, alreadyCounted: bool)
      requires Valid() && Classify(sd, item.item).HeirloomWeapon?
      modifies this`heirloomWeaponSenders, this`heirloomWeaponsSent, store
      ensures Valid() && Abs() == RewardItem(sd, old(Abs()), item, alreadyRewarded, alreadyCounted)
    {
      hide Classify, SendPendingWeapons, Ranks;
      if !alreadyCounted {
        heirloomWeaponSenders := heirloomWeaponSenders + [item.player];
      }
      SendPendingHeirloomWeapons();
    }

    method Reward(item: NetworkItem, alreadyRewarded: bool, alreadyCounted: bool)
      requires Valid()
      modifies this, store
      ensures Valid() && Abs() == RewardItem(sd, old(Abs()), item, alreadyRewarded, alreadyCounted)
      ensures itemIndex == old(itemIndex) && countedItemIndex == old(countedItemIndex)
    {
      hide Classify, RewardItem;
      LedgerReward(sd, Abs(), item, alreadyRewarded, alreadyCounted);
      match Classify(sd, item.item) {
        case Goods(_) => ReceiveGoods(item, alreadyRewarded, alreadyCounted);
        case Heirloom(id) => RewardOnce(item, MailHeirloom(id, item.player), alreadyRewarded, alreadyCounted);
        case HeirloomWeapon => ReceiveWeapon(item, alreadyRewarded, alreadyCounted);
        case WorldBuff => RewardOnce(item, ApplyBuff, alreadyRewarded, alreadyCounted);
        case Trap(trap) => RewardOnce(item, ReceiveTrap(trap), alreadyRewarded, alreadyCounted);
        case Gear(category, quality) =>
          RewardOnce(item, RollGear(category, quality, item.player), alreadyRewarded, alreadyCounted);
        case Zone(zone) => unlockedZones := unlockedZones + {zone};
        case Spell(spell) => handedOverSpells := handedOverSpells + {spell};
        case Progressive(track) => Progress(track, item, alreadyRewarded, alreadyCounted);
        case Level => RewardOnce(item, GiveLevel, alreadyRewarded, alreadyCounted);
        case FriendTeleport => friendTeleportUnlocked := true;
        case GoldPouch => RewardOnce(item, MailGold(item.player), alreadyRewarded, alreadyCounted);
        case Unknown =>
      }
    }

    /** Every rank up to the count, rather than only the newest. */
    method GrantRanks(steps: seq<nat>, count: nat)
      modifies this`handedOverSpells
      ensures handedOverSpells == old(handedOverSpells) + Ranks(steps, count)
    {
      var rank := 0;
      while rank < count && rank < |steps|
        invariant 0 <= rank <= count && rank <= |steps|
        invariant handedOverSpells == old(handedOverSpells) + Ranks(steps, rank)
      {
        handedOverSpells := handedOverSpells + {steps[rank]};
        assert Ranks(steps, rank + 1) == Ranks(steps, rank) + {steps[rank]};
        rank := rank + 1;
      }
      assert Ranks(steps, rank) == Ranks(steps, count);
    }

    method Progress(track: Track, item: NetworkItem, alreadyRewarded: bool, alreadyCounted: bool)
      requires Valid() && Classify(sd, item.item) == Progressive(track)
      modifies this`progressiveCounts, this`handedOverSpells, store`payments
      ensures Valid() && Abs() == RewardItem(sd, old(Abs()), item, alreadyRewarded, alreadyCounted)
    {
      hide Classify, Ranks, RewardItem;
      ProgressiveReward(sd, Abs(), item, alreadyRewarded, alreadyCounted);
      var count := if track.kind in progressiveCounts then progressiveCounts[track.kind] else 0;
      if !alreadyCounted {
        count := count + 1;
      }
      progressiveCounts := progressiveCounts[track.kind := count];
      if track.kind == Riding {
        GrantRanks(track.steps, count);
        return;
      }
      var grantsItem := track.kind == Food || track.kind == Drink;
      if grantsItem && !alreadyRewarded && count > 0 && count <= |track.steps| {
        Pay(item, MailItem(track.steps[count - 1], item.player));
      }
    }

    /** A `ReceivedItems` packet. */
    method ReceivedItems(items: seq<NetworkItem>)
      requires Valid()
      modifies this, store
      ensures Valid() && Abs() == ReceiveItems(sd, old(Abs()), items)
    {
      ghost var start := Abs();
      var newItemIndex, newCountedItemIndex := itemIndex, countedItemIndex;
      for i := 0 to |items|
        invariant Valid() && Abs() == RewardItems(sd, start, items[..i])
        invariant newItemIndex == HighestIndex(start.itemIndex, items[..i])
        invariant newCountedItemIndex == HighestIndex(start.countedItemIndex, items[..i])
      {
        var item := items[i];
        assert items[..i + 1][..i] == items[..i];
        var alreadyRewarded := itemIndex >= item.index;
        var alreadyCounted := countedItemIndex >= item.index;
        if item.index > newItemIndex {
          newItemIndex := item.index;
        }
        if item.index > newCountedItemIndex {
          newCountedItemIndex := item.index;
        }
        Reward(item, alreadyRewarded, alreadyCounted);
      }
      assert items[..|items|] == items;
      countedItemIndex := newCountedItemIndex;
      if newItemIndex != itemIndex {
        itemIndex := newItemIndex;
        store.row := store.row.(itemIndex := itemIndex);
      }
    }
  }
}
