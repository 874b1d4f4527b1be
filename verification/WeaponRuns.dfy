/** The heirloom weapons over whole runs: which slots are mailed, and what it takes for each to be
    mailed once. */
module WeaponRuns {
  import opened SlotItems
  import opened ItemDelivery
  import opened DeliveryRuns
  import TrapList

  /** The mails are for slots 0, 1, 2, ... from the senders of their copies. */
  predicate InOrder(sd: SlotData, senders: seq<int>, mails: seq<WeaponMail>) {
    forall k :: 0 <= k < |mails| ==> mails[k].slot == k && Rightful(sd, senders, mails[k])
  }

  predicate NoSlotTwice(mails: seq<WeaponMail>) {
    forall j, k :: 0 <= j < k < |mails| ==> mails[j].slot != mails[k].slot
  }

  /** A login that ended with a weapon sent and not on record. */
  ghost predicate Lags(events: seq<Event>, worlds: seq<World>, i: nat)
    requires i < |events| < |worlds|
  {
    events[i].Relog? && worlds[i].me.saved.weaponsSent < worlds[i].me.weaponsSent
  }

  /** No weapon was mailed since. */
  ghost predicate NoneMailedAfterLag(events: seq<Event>, worlds: seq<World>, n: nat)
    requires n <= |events| < |worlds|
  {
    forall i :: 0 <= i < n && Lags(events, worlds, i) ==> |worlds[n].me.weaponMails| == |worlds[i].me.weaponMails|
  }

  /** Every login's weapons were on record when it ended. */
  ghost predicate Recorded(events: seq<Event>, worlds: seq<World>, n: nat)
    requires n <= |events| < |worlds|
  {
    forall i :: 0 <= i < n ==> !Lags(events, worlds, i)
  }

  lemma RunStep(sd: SlotData, events: seq<Event>, worlds: seq<World>, n: nat)
    requires IsRun(sd, events, worlds) && n < |events|
    ensures var v, w := worlds[n].me, worlds[n + 1].me;
            && v.saved.weaponsSent <= v.weaponsSent <= |v.weaponMails|
            && v.weaponMails <= w.weaponMails
            && (if events[n].Relog? then w.weaponMails == v.weaponMails && w.weaponsSent == v.saved.weaponsSent
                 else Appends(v, w))
  {
    hide Inv, Next;
    RunKeeps(sd, events, worlds, n);
    assert StepsTo(sd, worlds[n], events[n], worlds[n + 1]);
    Bounds(sd, worlds[n]);
    if events[n].Relog? {
      RelogMails(sd, worlds[n]);
    } else {
      StepAppends(sd, worlds[n], events[n]);
    }
  }

  lemma Bounds(sd: SlotData, w: World)
    requires Inv(sd, w)
    ensures w.me.saved.weaponsSent <= w.me.weaponsSent <= |w.me.weaponMails|
  {
  }

  lemma RelogMails(sd: SlotData, w: World)
    requires WeaponShape(w.me) && |w.me.saved.weapons| == MAX_HEIRLOOM_WEAPON_SLOTS
    ensures var t := Next(sd, w, Relog).me; t.weaponMails == w.me.weaponMails && t.weaponsSent == w.me.saved.weaponsSent
  {
  }

  lemma {:induction false} MailsGrow(sd: SlotData, events: seq<Event>, worlds: seq<World>, i: nat, n: nat)
    requires IsRun(sd, events, worlds) && i <= n <= |events|
    ensures worlds[i].me.weaponMails <= worlds[n].me.weaponMails
    ensures WeaponSenders(sd, worlds[i].list) <= WeaponSenders(sd, worlds[n].list)
    decreases n
  {
    hide StepsTo, WeaponSenders;
    if i < n {
      MailsGrow(sd, events, worlds, i, n - 1);
      RunStep(sd, events, worlds, n - 1);
      ListGrows(sd, events, worlds, n - 1);
    }
  }

  lemma ListGrows(sd: SlotData, events: seq<Event>, worlds: seq<World>, n: nat)
    requires IsRun(sd, events, worlds) && n < |events|
    ensures WeaponSenders(sd, worlds[n].list) <= WeaponSenders(sd, worlds[n + 1].list)
  {
    hide WeaponSenders;
    assert StepsTo(sd, worlds[n], events[n], worlds[n + 1]);
    if events[n].Grow? {
      SendersGrow(sd, worlds[n].list, events[n].more);
    }
  }

  /** After a login that lagged, every weapon mailed is for a slot below its place among the mails. */
  lemma {:induction false} LagStays(sd: SlotData, events: seq<Event>, worlds: seq<World>, i: nat, n: nat)
    requires IsRun(sd, events, worlds) && i < n <= |events| && Lags(events, worlds, i)
    ensures var before, w := worlds[i].me.weaponMails, worlds[n].me;
            && |w.weaponMails| > w.weaponsSent && before <= w.weaponMails
            && forall p :: |before| <= p < |w.weaponMails| ==> w.weaponMails[p].slot < p
    decreases n
  {
    hide StepsTo;
    RunStep(sd, events, worlds, n - 1);
    if i < n - 1 {
      LagStays(sd, events, worlds, i, n - 1);
    }
  }

  /** While no login lags there are as many mails as slots sent. */
  lemma {:induction false} RecordedSends(sd: SlotData, events: seq<Event>, worlds: seq<World>, n: nat)
    requires IsRun(sd, events, worlds) && n <= |events| && Recorded(events, worlds, n)
    ensures |worlds[n].me.weaponMails| == worlds[n].me.weaponsSent
  {
    hide StepsTo;
    if n > 0 {
      RecordedSends(sd, events, worlds, n - 1);
      RunStep(sd, events, worlds, n - 1);
      assert !Lags(events, worlds, n - 1);
    }
  }

  lemma AsShownInOrder(sd: SlotData, w: World)
    requires Inv(sd, w) && |w.me.weaponMails| == w.me.weaponsSent
    ensures InOrder(sd, WeaponSenders(sd, w.list), w.me.weaponMails)
  {
    hide WeaponSenders, OnePass, Payments, LaddersAgree;
    var mails := w.me.weaponMails;
    forall k | 0 <= k < |mails| ensures mails[k].slot == k && Rightful(sd, WeaponSenders(sd, w.list), mails[k]) {
      assert mails[k] in mails;
    }
  }

  /** Mails stay in order as the list of senders grows. */
  lemma OrderStays(sd: SlotData, senders: seq<int>, more: seq<int>, mails: seq<WeaponMail>)
    requires InOrder(sd, senders, mails) && senders <= more
    ensures InOrder(sd, more, mails)
  {
  }

  lemma {:induction false} NoneAfterIsInOrder(sd: SlotData, events: seq<Event>, worlds: seq<World>, n: nat)
    requires IsRun(sd, events, worlds) && n <= |events| && NoneMailedAfterLag(events, worlds, n)
    ensures InOrder(sd, WeaponSenders(sd, worlds[n].list), worlds[n].me.weaponMails)
  {
    hide StepsTo, Inv, InOrder, WeaponSenders, Lags;
    if i: nat :| i < n && Lags(events, worlds, i) {
      forall j | 0 <= j < i && Lags(events, worlds, j)
        ensures |worlds[i].me.weaponMails| == |worlds[j].me.weaponMails|
      {
        MailsGrow(sd, events, worlds, j, i);
        MailsGrow(sd, events, worlds, i, n);
      }
      NoneAfterIsInOrder(sd, events, worlds, i);
      MailsGrow(sd, events, worlds, i, n);
      assert worlds[i].me.weaponMails == worlds[n].me.weaponMails;
      OrderStays(sd, WeaponSenders(sd, worlds[i].list), WeaponSenders(sd, worlds[n].list), worlds[n].me.weaponMails);
    } else {
      RecordedSends(sd, events, worlds, n);
      RunKeeps(sd, events, worlds, n);
      AsShownInOrder(sd, worlds[n]);
    }
  }

  lemma {:induction false} FirstLag(events: seq<Event>, worlds: seq<World>, i: nat) returns (first: nat)
    requires i < |events| < |worlds| && Lags(events, worlds, i)
    ensures first <= i && Lags(events, worlds, first) && Recorded(events, worlds, first)
  {
    hide Lags;
    if j: nat :| j < i && Lags(events, worlds, j) {
      first := FirstLag(events, worlds, j);
    } else {
      first := i;
    }
  }

  /** A weapon mailed after a login that lagged is of a slot that was mailed before. */
  lemma MailedAfterIsTwice(sd: SlotData, events: seq<Event>, worlds: seq<World>, n: nat)
    requires IsRun(sd, events, worlds) && n <= |events| && !NoneMailedAfterLag(events, worlds, n)
    ensures !NoSlotTwice(worlds[n].me.weaponMails)
  {
    hide StepsTo, Inv, WeaponSenders, Lags, Recorded;
    var i: nat :| i < n && Lags(events, worlds, i) && |worlds[n].me.weaponMails| != |worlds[i].me.weaponMails|;
    var first := FirstLag(events, worlds, i);
    MailsGrow(sd, events, worlds, i, n);
    MailsGrow(sd, events, worlds, first, i);
    LagStays(sd, events, worlds, first, n);
    RecordedSends(sd, events, worlds, first);
    RunKeeps(sd, events, worlds, first);
    AsShownInOrder(sd, worlds[first]);
    var mails, p := worlds[n].me.weaponMails, |worlds[first].me.weaponMails|;
    var slot := mails[p].slot;
    assert worlds[first].me.weaponMails[slot].slot == slot;
    assert mails[slot] == worlds[first].me.weaponMails[slot];
  }

  lemma InOrderOnce(sd: SlotData, senders: seq<int>, mails: seq<WeaponMail>)
    requires InOrder(sd, senders, mails)
    ensures NoSlotTwice(mails)
  {
  }

  /** Every weapon mailed over all logins is one the slot may have, for one of its slots, from the sender
      of that slot's copy, and none waits behind a filled slot. The mails are slots 0, 1, 2, ... in
      order, and no slot is mailed twice, exactly when no weapon is mailed after a login that ended
      with one sent and not on record; while there was none, the slots still show what was mailed. */
  lemma WeaponsInOrderIff(sd: SlotData, events: seq<Event>, worlds: seq<World>, n: nat)
    requires IsRun(sd, events, worlds) && n <= |events|
    ensures var w := worlds[n]; var senders := WeaponSenders(sd, w.list);
            && WeaponShape(w.me) && NothingStuck(sd, w.me)
            && (forall m :: m in w.me.weaponMails ==> Rightful(sd, senders, m))
            && (InOrder(sd, senders, w.me.weaponMails) <==> NoneMailedAfterLag(events, worlds, n))
            && (NoSlotTwice(w.me.weaponMails) <==> NoneMailedAfterLag(events, worlds, n))
            && (Recorded(events, worlds, n) ==>
                  |w.me.weaponMails| == w.me.weaponsSent <= |senders| && AsShown(sd, senders, w.me))
  {
    hide StepsTo, NoneMailedAfterLag, Recorded, InOrder, NoSlotTwice, OnePass, Payments, WeaponSenders;
    RunKeeps(sd, events, worlds, n);
    if NoneMailedAfterLag(events, worlds, n) {
      NoneAfterIsInOrder(sd, events, worlds, n);
    } else {
      MailedAfterIsTwice(sd, events, worlds, n);
    }
    if InOrder(sd, WeaponSenders(sd, worlds[n].list), worlds[n].me.weaponMails) {
      InOrderOnce(sd, WeaponSenders(sd, worlds[n].list), worlds[n].me.weaponMails);
    }
    if Recorded(events, worlds, n) {
      RecordedSends(sd, events, worlds, n);
    }
  }

  // ----- When the row keeps up -----

  ghost predicate Current(s: State) {
    s.saved.weapons == s.weapons && s.saved.weaponsSent == s.weaponsSent
  }

  /** Every login's weapons are on record while no more traps wait than the row has room for. */
  lemma {:induction false} FewTrapsRecord(sd: SlotData, events: seq<Event>, worlds: seq<World>, n: nat)
    requires IsRun(sd, events, worlds) && n <= |events|
    requires forall i :: 0 <= i <= n ==> worlds[i].me.waiting <= TrapList.TRAPS_THAT_FIT
    ensures Current(worlds[n].me) && Recorded(events, worlds, n)
  {
    hide Next;
    if n > 0 {
      FewTrapsRecord(sd, events, worlds, n - 1);
      assert StepsTo(sd, worlds[n - 1], events[n - 1], worlds[n]);
      StepRecords(sd, worlds[n - 1], events[n - 1]);
    }
  }

  lemma StepRecords(sd: SlotData, v: World, e: Event)
    requires WeaponShape(v.me) && |v.me.saved.weapons| == MAX_HEIRLOOM_WEAPON_SLOTS && Enabled(v, e)
    requires v.me.waiting <= TrapList.TRAPS_THAT_FIT && Current(v.me)
    requires Next(sd, v, e).me.waiting <= TrapList.TRAPS_THAT_FIT
    ensures Current(Next(sd, v, e).me)
  {
    hide RewardItems;
    if e.Batch? {
      ItemsRecord(sd, v.me, Slice(v.list, e.lo, e.hi));
    }
  }

  /** Traps only come within a batch, so the row fits throughout one that it fits at the end of. */
  lemma {:induction false} ItemsRecord(sd: SlotData, s: State, items: seq<NetworkItem>)
    requires WeaponShape(s) && Current(s)
    requires RewardItems(sd, s, items).waiting <= TrapList.TRAPS_THAT_FIT
    ensures Current(RewardItems(sd, s, items))
  {
    hide RewardItem;
    if |items| > 0 {
      var last := items[|items| - 1];
      var t := RewardItems(sd, s, items[..|items| - 1]);
      ItemRecords(sd, t, last, s.itemIndex >= last.index, s.countedItemIndex >= last.index);
      ItemsRecord(sd, s, items[..|items| - 1]);
    }
  }

  lemma ItemRecords(sd: SlotData, s: State, item: NetworkItem, rewarded: bool, counted: bool)
    requires WeaponShape(s)
    ensures var t := RewardItem(sd, s, item, rewarded, counted);
            && s.waiting <= t.waiting
            && (Current(s) && t.waiting <= TrapList.TRAPS_THAT_FIT ==> Current(t))
  {
    hide Classify, Absorb, PaymentsFor, RewardOf;
  }

  // ----- Choosing -----

  /** A choice is taken exactly when its slot is one of the character's, not sent yet, and the weapon is
      one of those offered; it then shows in its slot, in no other, and on record while few traps wait. */
  lemma ChoiceTakes(sd: SlotData, events: seq<Event>, worlds: seq<World>, n: nat)
    requires IsRun(sd, events, worlds) && n < |events| && events[n].Choose?
    ensures var v, w, slot, weapon := worlds[n].me, worlds[n + 1].me, events[n].slot, events[n].weapon;
            var taken := v.weaponsSent <= slot < sd.weaponSlots && weapon in sd.weaponChoices;
            && |v.weapons| == |w.weapons| == 3
            && (!taken ==> w == v)
            && (taken ==>
                  && w.weapons[slot] == weapon && (forall k :: 0 <= k < 3 && k != slot ==> w.weapons[k] == v.weapons[k])
                  && (v.waiting <= 128 ==> w.saved.weapons == w.weapons))
  {
    hide MailWeapons, Inv, PendingWeapons;
    RunKeeps(sd, events, worlds, n);
    assert StepsTo(sd, worlds[n], events[n], worlds[n + 1]);
  }

  // ----- The traps that share the row -----

  function TrapsPaid(payments: seq<Payment>): nat {
    if |payments| == 0 then 0
    else TrapsPaid(payments[..|payments| - 1]) + if payments[|payments| - 1].reward.ReceiveTrap? then 1 else 0
  }

  /** Traps that wait and traps handed out grow alike. */
  predicate WaitAlike(s: State, t: State) {
    t.waiting - s.waiting == TrapsPaid(t.payments) - TrapsPaid(s.payments)
  }

  lemma RewardWaits(sd: SlotData, s: State, item: NetworkItem, rewarded: bool, counted: bool)
    requires WeaponShape(s)
    ensures WaitAlike(s, RewardItem(sd, s, item, rewarded, counted))
  {
    hide Classify, Absorb, MailWeapons;
    var e := Entry(item.item, item.player);
    var paid := PaymentsFor(sd, Absorb(sd, s.ledger, e, counted), e, item.index);
    if |paid| > 0 {
      assert (s.payments + paid)[..|s.payments|] == s.payments && paid == [paid[0]];
    } else {
      assert s.payments + paid == s.payments;
    }
  }

  lemma {:induction false} RewardsWait(sd: SlotData, s: State, items: seq<NetworkItem>)
    requires WeaponShape(s)
    ensures WaitAlike(s, RewardItems(sd, s, items))
  {
    hide RewardItem, TrapsPaid;
    if |items| > 0 {
      var last := items[|items| - 1];
      RewardsWait(sd, s, items[..|items| - 1]);
      RewardWaits(sd, RewardItems(sd, s, items[..|items| - 1]), last, s.itemIndex >= last.index,
        s.countedItemIndex >= last.index);
    }
  }

  /** Over any run: as many more traps wait after a batch as it handed out, as many fewer after an update as
      it sprang, and a new login waits on the number that its row has on record. */
  lemma TrapsWait(sd: SlotData, events: seq<Event>, worlds: seq<World>, n: nat)
    requires IsRun(sd, events, worlds) && n < |events|
    ensures var v, e, w := worlds[n].me, events[n], worlds[n + 1].me;
            match e
            case Batch(_, _) => w.waiting - v.waiting == TrapsPaid(w.payments) - TrapsPaid(v.payments)
            case Sprung(k) => w.waiting == v.waiting - k && (k > 0 && w.waiting <= 128 ==> w.saved.traps == w.waiting)
            case Relog => w.waiting == v.saved.traps
            case PreferencesSaved => w.waiting == v.waiting && (v.waiting <= 128 ==> w.saved.traps == v.waiting)
            case _ => w.waiting == v.waiting
  {
    hide RewardItems, TrapsPaid, MailWeapons, PendingWeapons;
    assert StepsTo(sd, worlds[n], events[n], worlds[n + 1]);
    if events[n].Batch? {
      RewardsWait(sd, worlds[n].me, Slice(worlds[n].list, events[n].lo, events[n].hi));
    }
  }

  // ----- A weapon mailed twice -----

  /** One weapon slot with one weapon to choose, and a trap. */
  const ONE_WEAPON := SlotData(map[], {}, {}, 100, 1, [7], 101, map[1 := Sheep], map[], map[], map[], map[],
                               102, 103, 104)

  const TOO_MANY := TrapList.TRAPS_THAT_FIT + 1

  /** One trap more than the row has room for, and then the weapon. */
  function Flood(sender: int): seq<Entry> {
    seq(TOO_MANY, _ => Entry(1, 0)) + [Entry(100, sender)]
  }

  lemma Kinds()
    ensures Classify(ONE_WEAPON, 1) == Trap(Sheep) && Classify(ONE_WEAPON, 100) == HeirloomWeapon
  {
  }

  /** A trap on its first pass, and on a later one. */
  lemma OneTrap(s: State, index: int, rewarded: bool, counted: bool)
    requires WeaponShape(s) && s.weaponsSent == 0 == s.saved.weaponsSent
    ensures var t := RewardItem(ONE_WEAPON, s, NetworkItem(1, 0, index), rewarded, counted);
            if rewarded then t == s
            else t == s.(payments := t.payments, saved := t.saved, waiting := s.waiting + 1) && t.saved.weaponsSent == 0
  {
    hide Classify;
    Kinds();
  }

  lemma {:induction false} TrapsArrive(s: State, sender: int, k: nat)
    requires WeaponShape(s) && s.weaponsSent == 0 == s.saved.weaponsSent && s.itemIndex == -1 && k <= TOO_MANY
    ensures var t := RewardItems(ONE_WEAPON, s, Slice(Flood(sender), 0, k));
            t == s.(payments := t.payments, saved := t.saved, waiting := s.waiting + k) && t.saved.weaponsSent == 0
  {
    hide RewardItem;
    if k > 0 {
      var t := RewardItems(ONE_WEAPON, s, Slice(Flood(sender), 0, k - 1));
      TrapsArrive(s, sender, k - 1);
      RewardItemsLast(ONE_WEAPON, Flood(sender), s, 0, k);
      assert Flood(sender)[k - 1] == Entry(1, 0);
      OneTrap(t, k - 1, false, s.countedItemIndex >= k - 1);
    }
  }

  lemma {:induction false} TrapsAgain(s: State, sender: int, k: nat)
    requires WeaponShape(s) && s.weaponsSent == 0 == s.saved.weaponsSent && s.itemIndex >= TOO_MANY && k <= TOO_MANY
    ensures RewardItems(ONE_WEAPON, s, Slice(Flood(sender), 0, k)) == s
  {
    hide RewardItem;
    if k > 0 {
      TrapsAgain(s, sender, k - 1);
      RewardItemsLast(ONE_WEAPON, Flood(sender), s, 0, k);
      assert Flood(sender)[k - 1] == Entry(1, 0);
      OneTrap(s, k - 1, true, s.countedItemIndex >= k - 1);
    }
  }

  lemma WeaponMailed(s: State, sender: int, rewarded: bool)
    requires WeaponShape(s) && s.ledger == EMPTY_LEDGER && s.weaponsSent == 0
    ensures var t := RewardItem(ONE_WEAPON, s, NetworkItem(100, sender, TOO_MANY), rewarded, false);
            && t.weaponMails == s.weaponMails + [WeaponMail(0, 7, sender)]
            && (s.waiting > TrapList.TRAPS_THAT_FIT ==> t.saved == s.saved)
  {
    hide Classify, SavePreferences;
    Kinds();
    var led := EMPTY_LEDGER.(senders := [sender]);
    assert Absorb(ONE_WEAPON, EMPTY_LEDGER, Entry(100, sender), false) == led;
    var t := s.(ledger := led);
    assert MailWeapons(ONE_WEAPON, t) ==
           t.(weaponMails := t.weaponMails + [WeaponMail(0, 7, sender)], weaponsSent := 1);
    assert SavePreferences(MailWeapons(ONE_WEAPON, t)).weaponMails == s.weaponMails + [WeaponMail(0, 7, sender)]
      && (s.waiting > TrapList.TRAPS_THAT_FIT ==> SavePreferences(MailWeapons(ONE_WEAPON, t)).saved == s.saved) by {
      SaveIs(MailWeapons(ONE_WEAPON, t));
    }
  }

  lemma SaveIs(s: State)
    ensures SavePreferences(s) == s.(saved := SavePreferences(s).saved)
    ensures s.waiting > TrapList.TRAPS_THAT_FIT ==> SavePreferences(s) == s
  {
  }

  /** The whole list, read for the first time or after all of it was paid. */
  lemma FloodRead(s: State, sender: int)
    requires WeaponShape(s) && s.ledger == EMPTY_LEDGER && s.countedItemIndex == -1
    requires s.weaponsSent == 0 == s.saved.weaponsSent
    requires (s.itemIndex == -1 && s.waiting == 0) || s.itemIndex >= TOO_MANY
    ensures var t := ReceiveItems(ONE_WEAPON, s, Slice(Flood(sender), 0, TOO_MANY + 1));
            && t.weaponMails == s.weaponMails + [WeaponMail(0, 7, sender)] && t.itemIndex >= TOO_MANY
            && (s.itemIndex == -1 ==>
                 t.saved.weaponsSent == 0 && t.saved.itemIndex == t.itemIndex && t.waiting == TOO_MANY)
  {
    hide RewardItem, RewardItems;
    var list := Flood(sender);
    if s.itemIndex == -1 {
      TrapsArrive(s, sender, TOO_MANY);
    } else {
      TrapsAgain(s, sender, TOO_MANY);
    }
    var t := RewardItems(ONE_WEAPON, s, Slice(list, 0, TOO_MANY));
    RewardItemsLast(ONE_WEAPON, list, s, 0, TOO_MANY + 1);
    assert list[TOO_MANY] == Entry(100, sender);
    WeaponMailed(t, sender, s.itemIndex >= TOO_MANY);
    SliceHighest(s.itemIndex, list, 0, TOO_MANY + 1);
    WeaponWaits(t, sender, s.itemIndex >= TOO_MANY);
  }

  lemma WeaponWaits(s: State, sender: int, rewarded: bool)
    requires WeaponShape(s)
    ensures RewardItem(ONE_WEAPON, s, NetworkItem(100, sender, TOO_MANY), rewarded, false).waiting == s.waiting
  {
    hide Classify, MailWeapons;
    Kinds();
  }

  /** A weapon mailed with 129 traps waiting, and mailed again by the next login. */
  lemma WeaponMailedTwice(sender: int) returns (events: seq<Event>, worlds: seq<World>)
    ensures IsRun(ONE_WEAPON, events, worlds) && |events| == 4
    ensures events == [Grow(Flood(sender)), Batch(0, TOO_MANY + 1), Relog, Batch(0, TOO_MANY + 1)]
    ensures worlds[2].me.waiting == TOO_MANY
    ensures worlds[4].me.weaponMails == [WeaponMail(0, 7, sender), WeaponMail(0, 7, sender)]
  {
    hide ReceiveItems, Inv, Flood;
    events := [Grow(Flood(sender)), Batch(0, TOO_MANY + 1), Relog, Batch(0, TOO_MANY + 1)];
    assert |Flood(sender)| == TOO_MANY + 1 by { FloodLength(sender); }
    RunStarts(ONE_WEAPON);
    var w1 := Next(ONE_WEAPON, START, events[0]);
    assert w1.list == Flood(sender);
    FloodRead(w1.me, sender);
    var w2 := Next(ONE_WEAPON, w1, events[1]);
    StepKeeps(ONE_WEAPON, START, events[0]);
    StepKeeps(ONE_WEAPON, w1, events[1]);
    InvShape(ONE_WEAPON, w2);
    var w3 := Next(ONE_WEAPON, w2, events[2]);
    FloodRead(w3.me, sender);
    var w4 := Next(ONE_WEAPON, w3, events[3]);
    worlds := [START, w1, w2, w3, w4];
  }

  lemma FloodLength(sender: int)
    ensures |Flood(sender)| == TOO_MANY + 1
  {
  }
}
