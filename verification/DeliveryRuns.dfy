/** Item delivery over whole runs: the server's list grows, batches are cut and replayed anywhere,
    the player fills weapon slots, and sessions end between batches. */
module DeliveryRuns {
  import opened SlotItems
  import opened ItemDelivery

  datatype World = World(list: seq<Entry>, me: State)

  datatype Event =
    | Grow(more: seq<Entry>)
    | Batch(lo: nat, hi: nat)
    | Choose(slot: nat, weapon: nat)
    | PlayerChanged(player: Circumstances)
    | Sprung(n: nat)
    | PreferencesSaved
    | Relog

  /** The packet carrying the slice of the list from `lo` up to `hi`. */
  function Slice(list: seq<Entry>, lo: nat, hi: nat): seq<NetworkItem>
    requires lo <= hi <= |list|
  {
    seq(hi - lo, k requires 0 <= k < hi - lo => NetworkItem(list[lo + k].item, list[lo + k].player, lo + k))
  }

  /** Batches leave no gap: they start at or before the first index this session has not counted. */
  predicate Enabled(w: World, e: Event) {
    && (e.Batch? ==> e.lo <= w.me.countedItemIndex + 1 && e.lo <= e.hi <= |w.list|)
    && (e.Sprung? ==> e.n <= w.me.waiting)
  }

  function Next(sd: SlotData, w: World, e: Event): (w': World)
    requires WeaponShape(w.me) && Enabled(w, e)
    requires |w.me.saved.weapons| == MAX_HEIRLOOM_WEAPON_SLOTS
    ensures WeaponShape(w'.me)
  {
    match e
    case Grow(more) => w.(list := w.list + more)
    case Batch(lo, hi) => w.(me := ReceiveItems(sd, w.me, Slice(w.list, lo, hi)))
    case Choose(slot, weapon) => w.(me := ChooseWeapon(sd, w.me, slot, weapon))
    case PlayerChanged(player) => w.(me := w.me.(player := player))
    case Sprung(n) => w.(me := Spring(w.me, n))
    case PreferencesSaved => w.(me := SavePreferences(w.me))
    case Relog => w.(me := Login(w.me.saved, w.me.payments, w.me.weaponMails, w.me.player))
  }

  // ----- The invariant -----

  /** Every mail is from the sender of its slot's copy; the row may lag behind the login, never
      disagree with it; and as many mails as slots sent means each slot once, in order. */
  ghost predicate WeaponInv(sd: SlotData, list: seq<Entry>, s: State) {
    var senders := WeaponSenders(sd, list);
    && WeaponShape(s) && |s.saved.weapons| == MAX_HEIRLOOM_WEAPON_SLOTS
    && s.saved.weaponsSent <= s.weaponsSent <= sd.weaponSlots
    && s.weaponsSent <= |senders| && s.weaponsSent <= |s.weaponMails|
    && s.saved.weapons[..s.saved.weaponsSent] == s.weapons[..s.saved.weaponsSent]
    && Chosen(sd, s.weapons) && Chosen(sd, s.saved.weapons)
    && s.ledger.senders <= senders
    && (forall m :: m in s.weaponMails ==> Rightful(sd, senders, m))
    && (|s.weaponMails| == s.weaponsSent ==> AsShown(sd, senders, s))
  }

  predicate Chosen(sd: SlotData, weapons: seq<nat>) {
    forall k :: 0 <= k < |weapons| ==> weapons[k] == 0 || weapons[k] in sd.weaponChoices
  }

  /** A weapon the slot may have, for one of its slots, from the sender of that slot's copy. */
  predicate Rightful(sd: SlotData, senders: seq<int>, m: WeaponMail) {
    && m.weapon in sd.weaponChoices && m.slot < sd.weaponSlots
    && m.slot < |senders| && m.sender == senders[m.slot]
  }

  /** The mails are those of the slots sent, holding what the slots show. */
  ghost predicate AsShown(sd: SlotData, senders: seq<int>, s: State)
    requires WeaponShape(s) && s.weaponsSent <= |senders| && s.weaponsSent <= |s.weaponMails|
  {
    forall k :: 0 <= k < s.weaponsSent ==> s.weaponMails[k] == WeaponMail(k, WeaponInSlot(sd, s.weapons, k), senders[k])
  }

  /** Nothing waits, or the next weapon waits for the player to fill its slot. */
  ghost predicate NothingStuck(sd: SlotData, s: State)
    requires WeaponShape(s)
  {
    PendingWeapons(sd, |s.ledger.senders|, s.weaponsSent) == 0 || WeaponInSlot(sd, s.weapons, s.weaponsSent) == 0
  }

  /** The ledger is that of one reading, but for spells granted by replaying differing ladders. */
  ghost predicate LedgerInv(sd: SlotData, seen: seq<Entry>, led: Ledger) {
    SameButGrants(led, OnePass(sd, seen)) && (LaddersAgree(sd) ==> led == OnePass(sd, seen))
  }

  /** Where a batch stands once index `c` is counted and index `p` is paid. */
  ghost predicate MidBatch(sd: SlotData, list: seq<Entry>, s: State, c: int, p: int) {
    && -1 <= c <= p < |list|
    && LedgerInv(sd, list[..c + 1], s.ledger)
    && s.payments == Payments(sd, list[..p + 1])
    && WeaponInv(sd, list, s) && NothingStuck(sd, s)
  }

  ghost predicate Inv(sd: SlotData, w: World) {
    && MidBatch(sd, w.list, w.me, w.me.countedItemIndex, w.me.itemIndex)
    && w.me.saved.itemIndex == w.me.itemIndex
  }

  // ----- Heirloom weapons keep their invariant -----

  lemma MailOneKeeps(sd: SlotData, list: seq<Entry>, s: State, weapon: nat)
    requires WeaponInv(sd, list, s) && PendingWeapons(sd, |s.ledger.senders|, s.weaponsSent) > 0
    requires weapon == WeaponInSlot(sd, s.weapons, s.weaponsSent) != 0
    ensures var mail := WeaponMail(s.weaponsSent, weapon, s.ledger.senders[s.weaponsSent]);
            WeaponInv(sd, list, s.(weaponMails := s.weaponMails + [mail], weaponsSent := s.weaponsSent + 1))
  {
    hide WeaponSenders;
  }

  lemma {:induction false} MailWeaponsKeeps(sd: SlotData, list: seq<Entry>, s: State)
    requires WeaponInv(sd, list, s)
    ensures var t := MailWeapons(sd, s); WeaponInv(sd, list, t) && NothingStuck(sd, t)
    decreases PendingWeapons(sd, |s.ledger.senders|, s.weaponsSent)
  {
    hide WeaponInv;
    assert WeaponShape(s) by { WeaponInvShape(sd, list, s); }
    var weapon := WeaponInSlot(sd, s.weapons, s.weaponsSent);
    if PendingWeapons(sd, |s.ledger.senders|, s.weaponsSent) > 0 && weapon != 0 {
      MailOneKeeps(sd, list, s, weapon);
      MailWeaponsKeeps(sd, list, s.(
        weaponMails := s.weaponMails + [WeaponMail(s.weaponsSent, weapon, s.ledger.senders[s.weaponsSent])],
        weaponsSent := s.weaponsSent + 1));
    }
  }

  lemma WeaponInvShape(sd: SlotData, list: seq<Entry>, s: State)
    requires WeaponInv(sd, list, s)
    ensures WeaponShape(s)
  {
  }

  lemma SaveKeeps(sd: SlotData, list: seq<Entry>, s: State)
    requires WeaponInv(sd, list, s)
    ensures WeaponInv(sd, list, SavePreferences(s))
  {
    hide WeaponSenders, WeaponInSlot;
  }

  /** What is paid for otherwise leaves the weapons alone, but may have the row saved. */
  lemma SettleKeeps(sd: SlotData, list: seq<Entry>, s: State, rewards: seq<Reward>)
    requires WeaponInv(sd, list, s)
    ensures var t := Settle(s, rewards);
            && WeaponInv(sd, list, t) && (NothingStuck(sd, s) ==> NothingStuck(sd, t))
            && t == s.(saved := t.saved, waiting := t.waiting) && t.saved.itemIndex == s.saved.itemIndex
  {
    hide WeaponInv;
    assert WeaponShape(s) by { WeaponInvShape(sd, list, s); }
    SaveKeeps(sd, list, s);
    WaitKeeps(sd, list, s, s.waiting + 1);
    SaveKeeps(sd, list, s.(waiting := s.waiting + 1));
  }

  lemma WaitKeeps(sd: SlotData, list: seq<Entry>, s: State, waiting: nat)
    requires WeaponInv(sd, list, s)
    ensures WeaponInv(sd, list, s.(waiting := waiting))
  {
    hide WeaponSenders, WeaponInSlot;
  }

  lemma SendKeeps(sd: SlotData, list: seq<Entry>, s: State)
    requires WeaponInv(sd, list, s)
    ensures var t := SendPendingWeapons(sd, s);
            && WeaponInv(sd, list, t) && NothingStuck(sd, t)
            && t == s.(saved := t.saved, weaponsSent := t.weaponsSent, weaponMails := t.weaponMails)
            && t.saved.itemIndex == s.saved.itemIndex
  {
    hide WeaponInv;
    assert WeaponShape(s) by { WeaponInvShape(sd, list, s); }
    MailWeaponsKeeps(sd, list, s);
    SaveKeeps(sd, list, MailWeapons(sd, s));
  }

  lemma FillKeeps(sd: SlotData, list: seq<Entry>, s: State, slot: nat, weapon: nat)
    requires WeaponInv(sd, list, s) && s.weaponsSent <= slot < MAX_HEIRLOOM_WEAPON_SLOTS && weapon in sd.weaponChoices
    ensures WeaponInv(sd, list, s.(weapons := s.weapons[slot := weapon]))
  {
    hide WeaponSenders;
  }

  lemma ChooseKeeps(sd: SlotData, list: seq<Entry>, s: State, slot: nat, weapon: nat)
    requires WeaponInv(sd, list, s) && NothingStuck(sd, s)
    ensures var t := ChooseWeapon(sd, s, slot, weapon);
            && WeaponInv(sd, list, t) && NothingStuck(sd, t)
            && t.weapons[..s.weaponsSent] == s.weapons[..s.weaponsSent]
            && t == s.(saved := t.saved, weapons := t.weapons, weaponsSent := t.weaponsSent,
               weaponMails := t.weaponMails)
            && t.saved.itemIndex == s.saved.itemIndex
  {
    hide WeaponInv, SendPendingWeapons;
    assert WeaponShape(s) by { WeaponInvShape(sd, list, s); }
    if slot < sd.weaponSlots && slot >= s.weaponsSent && weapon in sd.weaponChoices {
      FillKeeps(sd, list, s, slot, weapon);
      var filled := s.(weapons := s.weapons[slot := weapon]);
      SaveKeeps(sd, list, filled);
      SendKeeps(sd, list, SavePreferences(filled));
    }
  }

  lemma SendersPrefix(sd: SlotData, list: seq<Entry>, n: nat)
    requires n <= |list|
    ensures OnePass(sd, list[..n]).senders <= WeaponSenders(sd, list)
  {
    OnePassGrows(sd, list, n);
    SendersInOrder(sd, list);
  }

  // ----- One item, one batch -----

  function Max(a: int, b: int): int { if a > b then a else b }

  lemma LedgerStep(sd: SlotData, list: seq<Entry>, led: Ledger, i: nat, counted: int)
    requires i < |list| && -1 <= counted < |list| && i <= Max(counted, i - 1) + 1
    requires LedgerInv(sd, list[..Max(counted, i - 1) + 1], led)
    ensures LedgerInv(sd, list[..Max(counted, i) + 1], Absorb(sd, led, list[i], counted >= i))
  {
    hide Classify, Absorb, PaymentsFor, LaddersAgree, OnePass;
    var before := OnePass(sd, list[..Max(counted, i - 1) + 1]);
    GrantsAside(sd, led, before, list[i], counted >= i, i);
    if counted >= i {
      assert list[..counted + 1][i] == list[i];
      ReplayChangesNothing(sd, list[..counted + 1], i);
    } else {
      OnePassStep(sd, list, i);
    }
  }

  lemma PaymentStep(sd: SlotData, list: seq<Entry>, i: nat, rewarded: int)
    requires i < |list| && -1 <= rewarded < |list|
    ensures Payments(sd, list[..Max(rewarded, i - 1) + 1])
              + (if rewarded >= i then [] else PaymentsFor(sd, OnePass(sd, list[..i + 1]), list[i], i))
         == Payments(sd, list[..Max(rewarded, i) + 1])
  {
    hide Classify;
    if rewarded < i {
      OnePassStep(sd, list, i);
    }
  }

  /** Only an Heirloom Weapon adds a sender, and it is paid through the weapon slots alone. */
  lemma SendersStep(sd: SlotData, led: Ledger, e: Entry, counted: bool, index: int)
    ensures !Classify(sd, e.item).HeirloomWeapon? ==> Absorb(sd, led, e, counted).senders == led.senders
    ensures Classify(sd, e.item).HeirloomWeapon? ==> PaymentsFor(sd, led, e, index) == []
  {
    hide Classify;
  }

  lemma RewardItemKeeps(sd: SlotData, list: seq<Entry>, s: State, i: nat, counted: int, rewarded: int)
    requires i < |list| && -1 <= counted <= rewarded < |list| && i <= Max(counted, i - 1) + 1
    requires MidBatch(sd, list, s, Max(counted, i - 1), Max(rewarded, i - 1))
    ensures var t := RewardItem(sd, s, NetworkItem(list[i].item, list[i].player, i), rewarded >= i, counted >= i);
            MidBatch(sd, list, t, Max(counted, i), Max(rewarded, i))
  {
    hide Classify, Absorb, OnePass, Payments, PaymentsFor, RewardOf, WeaponSenders, SendPendingWeapons, LaddersAgree,
      Settle;
    var e := list[i];
    assert Entry(e.item, e.player) == e;
    var led := Absorb(sd, s.ledger, e, counted >= i);
    LedgerStep(sd, list, s.ledger, i, counted);
    GrantsAside(sd, led, OnePass(sd, list[..Max(counted, i) + 1]), e, false, i);
    PaymentStep(sd, list, i, rewarded);
    SendersPrefix(sd, list, Max(counted, i) + 1);
    SendersStep(sd, s.ledger, e, counted >= i, i);
    SendersStep(sd, OnePass(sd, list[..i + 1]), e, counted >= i, i);
    var t := s.(ledger := led);
    if Classify(sd, e.item).HeirloomWeapon? {
      SendKeeps(sd, list, t);
    } else {
      SettleKeeps(sd, list, t.(payments := t.payments + PaymentsFor(sd, led, e, i)), RewardOf(sd, led, e));
    }
  }

  lemma {:induction false} SliceHighest(start: int, list: seq<Entry>, lo: nat, hi: nat)
    requires lo <= hi <= |list|
    ensures HighestIndex(start, Slice(list, lo, hi)) == if lo == hi then start else Max(start, hi - 1)
    decreases hi
  {
    var items := Slice(list, lo, hi);
    if hi > lo {
      SliceHighest(start, list, lo, hi - 1);
      assert items[..|items| - 1] == Slice(list, lo, hi - 1);
    }
  }

  lemma RewardItemsLast(sd: SlotData, list: seq<Entry>, s: State, lo: nat, hi: nat)
    requires WeaponShape(s) && lo < hi <= |list|
    ensures RewardItems(sd, s, Slice(list, lo, hi))
         == RewardItem(sd, RewardItems(sd, s, Slice(list, lo, hi - 1)),
              NetworkItem(list[hi - 1].item, list[hi - 1].player, hi - 1), s.itemIndex >= hi - 1,
              s.countedItemIndex >= hi - 1)
  {
    hide RewardItem;
    var items := Slice(list, lo, hi);
    assert items[..|items| - 1] == Slice(list, lo, hi - 1);
  }

  /** After the items of a batch, read up to `hi`: what was counted and paid reaches `hi - 1`. */
  lemma {:induction false} RewardItemsKeeps(sd: SlotData, list: seq<Entry>, s: State, lo: nat, hi: nat)
    requires lo <= hi <= |list| && lo <= s.countedItemIndex + 1
    requires MidBatch(sd, list, s, s.countedItemIndex, s.itemIndex)
    ensures var t := RewardItems(sd, s, Slice(list, lo, hi));
            MidBatch(sd, list, t, Max(s.countedItemIndex, hi - 1), Max(s.itemIndex, hi - 1))
    decreases hi
  {
    hide Classify, RewardItem, OnePass, Payments, HighestIndex;
    if hi > lo {
      RewardItemsKeeps(sd, list, s, lo, hi - 1);
      RewardItemsLast(sd, list, s, lo, hi);
      RewardItemKeeps(sd, list, RewardItems(sd, s, Slice(list, lo, hi - 1)), hi - 1, s.countedItemIndex, s.itemIndex);
    } else {
      assert RewardItems(sd, s, Slice(list, lo, hi)) == s;
    }
  }

  lemma BatchKeeps(sd: SlotData, w: World, lo: nat, hi: nat)
    requires Inv(sd, w) && Enabled(w, Batch(lo, hi))
    ensures Inv(sd, Next(sd, w, Batch(lo, hi)))
  {
    hide RewardItems, HighestIndex, OnePass, Payments, WeaponSenders;
    RewardItemsKeeps(sd, w.list, w.me, lo, hi);
    SliceHighest(w.me.itemIndex, w.list, lo, hi);
    SliceHighest(w.me.countedItemIndex, w.list, lo, hi);
  }

  lemma {:induction false} SendersGrow(sd: SlotData, list: seq<Entry>, more: seq<Entry>)
    ensures WeaponSenders(sd, list) <= WeaponSenders(sd, list + more)
    decreases |more|
  {
    hide Classify;
    if more != [] {
      var m := |more| - 1;
      SendersGrow(sd, list, more[..m]);
      assert (list + more)[..|list + more| - 1] == list + more[..m];
    } else {
      assert list + more == list;
    }
  }

  lemma GrowKeeps(sd: SlotData, w: World, more: seq<Entry>)
    requires Inv(sd, w)
    ensures Inv(sd, w.(list := w.list + more))
  {
    SendersGrow(sd, w.list, more);
    assert forall n :: 0 <= n <= |w.list| ==> (w.list + more)[..n] == w.list[..n];
  }

  lemma RelogWeapons(sd: SlotData, list: seq<Entry>, s: State)
    requires WeaponInv(sd, list, s)
    ensures var t := Login(s.saved, s.payments, s.weaponMails, s.player); WeaponInv(sd, list, t) && NothingStuck(sd, t)
  {
    hide WeaponSenders;
    var sent := s.saved.weaponsSent;
    assert forall k :: 0 <= k < sent ==> s.saved.weapons[..sent][k] == s.weapons[..sent][k];
  }

  lemma RelogKeeps(sd: SlotData, w: World)
    requires Inv(sd, w)
    ensures Inv(sd, Next(sd, w, Relog))
  {
    hide WeaponInv, WeaponSenders, LaddersAgree, NothingStuck, Payments;
    assert w.list[..0] == [];
    RelogWeapons(sd, w.list, w.me);
  }

  lemma StepKeeps(sd: SlotData, w: World, e: Event)
    requires Inv(sd, w) && Enabled(w, e)
    ensures Inv(sd, Next(sd, w, e))
  {
    hide Classify;
    match e {
      case Grow(more) => GrowKeeps(sd, w, more);
      case Batch(lo, hi) => BatchKeeps(sd, w, lo, hi);
      case Choose(slot, weapon) => ChooseKeeps(sd, w.list, w.me, slot, weapon);
      case PlayerChanged(_) =>
      case Sprung(n) =>
        WaitKeeps(sd, w.list, w.me, w.me.waiting - n);
        SaveKeeps(sd, w.list, w.me.(waiting := w.me.waiting - n));
      case PreferencesSaved => SaveKeeps(sd, w.list, w.me);
      case Relog => RelogKeeps(sd, w);
    }
  }

  // ----- Whole runs -----

  /** A newly bound character, before its first session. */
  const START := World([], Login(NEW_ROW, [], [], Circumstances({}, true)))

  ghost predicate StepsTo(sd: SlotData, v: World, e: Event, w: World) {
    && WeaponShape(v.me) && |v.me.saved.weapons| == MAX_HEIRLOOM_WEAPON_SLOTS
    && Enabled(v, e) && w == Next(sd, v, e)
  }

  /** A run of a slot: the worlds it goes through, one event at a time. */
  ghost predicate IsRun(sd: SlotData, events: seq<Event>, worlds: seq<World>) {
    && |worlds| == |events| + 1 && worlds[0] == START
    && forall i :: 0 <= i < |events| ==> StepsTo(sd, worlds[i], events[i], worlds[i + 1])
  }

  lemma {:induction false} RunKeeps(sd: SlotData, events: seq<Event>, worlds: seq<World>, n: nat)
    requires IsRun(sd, events, worlds) && n <= |events|
    ensures Inv(sd, worlds[n])
  {
    if n > 0 {
      RunKeeps(sd, events, worlds, n - 1);
      StepKeeps(sd, worlds[n - 1], events[n - 1]);
    }
  }

  /** Whatever the cuts, replays and sessions, the rewards paid so far are those of one reading of
      the list up to `itemIndex`: every index at most once, in order, and none left out. */
  lemma ExactlyOnce(sd: SlotData, events: seq<Event>, worlds: seq<World>, n: nat)
    requires IsRun(sd, events, worlds) && n <= |events|
    ensures var w := worlds[n]; var ps, paid := w.me.payments, w.me.itemIndex + 1;
            && 0 <= paid <= |w.list|
            && (forall a, b :: 0 <= a < b < |ps| ==> ps[a].index < ps[b].index)
            && (forall p :: p in ps ==> 0 <= p.index < paid)
            && (forall i, p :: 0 <= i < paid && p in PaymentsFor(sd, OnePass(sd, w.list[..i + 1]), w.list[i], i) ==>
                 p in ps)
            && ps == Payments(sd, w.list[..paid])
  {
    RunKeeps(sd, events, worlds, n);
    var w := worlds[n];
    var seen := w.list[..w.me.itemIndex + 1];
    PaymentsOnce(sd, seen);
    forall i, p | 0 <= i < |seen| && p in PaymentsFor(sd, OnePass(sd, w.list[..i + 1]), w.list[i], i)
      ensures p in w.me.payments
    {
      PaymentsAll(sd, seen, i);
      assert seen[..i + 1] == w.list[..i + 1];
    }
  }

  /** Two runs over the same list that have counted and paid as far agree on everything the items
      give, however differently their batches were cut, replayed and spread over sessions: on the
      granted spells too when the slot's riding ladders agree. */
  lemma SplitIndependence(sd: SlotData, events: seq<Event>, worlds: seq<World>, events': seq<Event>,
      worlds': seq<World>)
    requires IsRun(sd, events, worlds) && IsRun(sd, events', worlds')
    requires worlds[|events|].list == worlds'[|events'|].list
    ensures var w, w' := worlds[|events|], worlds'[|events'|];
            && (w.me.countedItemIndex == w'.me.countedItemIndex ==> SameButGrants(w.me.ledger, w'.me.ledger))
            && (w.me.countedItemIndex == w'.me.countedItemIndex && LaddersAgree(sd) ==> w.me.ledger == w'.me.ledger)
            && (w.me.itemIndex == w'.me.itemIndex ==> w.me.payments == w'.me.payments)
            && (w.me.countedItemIndex == |w.list| - 1 ==> SameButGrants(w.me.ledger, OnePass(sd, w.list)))
  {
    hide LaddersAgree;
    RunKeeps(sd, events, worlds, |events|);
    RunKeeps(sd, events', worlds', |events'|);
    var list := worlds[|events|].list;
    assert list[..|list|] == list;
  }

  /** Progress never goes back: what was paid, mailed or indexed stays, across relogs too. */
  lemma StepGrows(sd: SlotData, v: World, e: Event)
    requires Inv(sd, v) && Enabled(v, e)
    ensures var w := Next(sd, v, e);
            && v.me.itemIndex <= w.me.itemIndex
            && v.me.payments <= w.me.payments
            && v.me.weaponMails <= w.me.weaponMails
            && (!e.Relog? ==> v.me.countedItemIndex <= w.me.countedItemIndex)
  {
    hide Classify, MailWeapons, RewardItems, HighestIndex, OnePass, Payments, WeaponInv, LedgerInv;
    assert WeaponShape(v.me) && |v.me.saved.weapons| == MAX_HEIRLOOM_WEAPON_SLOTS by { InvShape(sd, v); }
    if !e.Relog? {
      StepAppends(sd, v, e);
    }
    if e.Batch? {
      BatchGrows(sd, v, e.lo, e.hi);
    }
  }

  lemma BatchGrows(sd: SlotData, v: World, lo: nat, hi: nat)
    requires Inv(sd, v) && Enabled(v, Batch(lo, hi))
    ensures var w := Next(sd, v, Batch(lo, hi));
            && v.me.itemIndex <= w.me.itemIndex && v.me.countedItemIndex <= w.me.countedItemIndex
            && v.me.payments <= w.me.payments
  {
    hide Classify;
    var w := Next(sd, v, Batch(lo, hi));
    BatchKeeps(sd, v, lo, hi);
    SliceHighest(v.me.itemIndex, v.list, lo, hi);
    SliceHighest(v.me.countedItemIndex, v.list, lo, hi);
    var seen := w.list[..w.me.itemIndex + 1];
    PaymentsPrefix(sd, seen, v.me.itemIndex + 1);
    assert seen[..v.me.itemIndex + 1] == v.list[..v.me.itemIndex + 1];
  }

  lemma {:induction false} PaymentsPrefix(sd: SlotData, list: seq<Entry>, n: nat)
    requires n <= |list|
    ensures Payments(sd, list[..n]) <= Payments(sd, list)
    decreases |list|
  {
    if n < |list| {
      PaymentsPrefix(sd, list[..|list| - 1], n);
      assert list[..|list| - 1][..n] == list[..n];
    } else {
      assert list[..n] == list;
    }
  }

  lemma RunStarts(sd: SlotData)
    ensures Inv(sd, START)
  {
    assert IsRun(sd, [], [START]);
    RunKeeps(sd, [], [START], 0);
  }

  lemma InvShape(sd: SlotData, w: World)
    requires Inv(sd, w)
    ensures WeaponShape(w.me) && |w.me.saved.weapons| == MAX_HEIRLOOM_WEAPON_SLOTS
  {
  }

  // ----- Where weapons are mailed -----

  /** Weapons are mailed for the slots from the first one not sent on. */
  ghost predicate Appends(s: State, t: State) {
    && s.weaponMails <= t.weaponMails && |t.weaponMails| - t.weaponsSent == |s.weaponMails| - s.weaponsSent
    && forall p :: |s.weaponMails| <= p < |t.weaponMails| ==>
       t.weaponMails[p].slot == p - (|s.weaponMails| - s.weaponsSent)
  }

  lemma {:induction false} MailAppends(sd: SlotData, s: State)
    requires WeaponShape(s)
    ensures Appends(s, MailWeapons(sd, s))
    decreases PendingWeapons(sd, |s.ledger.senders|, s.weaponsSent)
  {
    var weapon := WeaponInSlot(sd, s.weapons, s.weaponsSent);
    if PendingWeapons(sd, |s.ledger.senders|, s.weaponsSent) > 0 && weapon != 0 {
      MailAppends(sd, s.(
        weaponMails := s.weaponMails + [WeaponMail(s.weaponsSent, weapon, s.ledger.senders[s.weaponsSent])],
        weaponsSent := s.weaponsSent + 1));
    }
  }

  lemma ItemAppends(sd: SlotData, s: State, item: NetworkItem, rewarded: bool, counted: bool)
    requires WeaponShape(s)
    ensures Appends(s, RewardItem(sd, s, item, rewarded, counted))
  {
    hide Classify, MailWeapons, Absorb, PaymentsFor, RewardOf;
    MailAppends(sd, s.(ledger := Absorb(sd, s.ledger, Entry(item.item, item.player), counted)));
  }

  lemma {:induction false} ItemsAppend(sd: SlotData, s: State, items: seq<NetworkItem>)
    requires WeaponShape(s)
    ensures Appends(s, RewardItems(sd, s, items))
  {
    hide RewardItem;
    if |items| > 0 {
      var last := items[|items| - 1];
      ItemsAppend(sd, s, items[..|items| - 1]);
      ItemAppends(sd, RewardItems(sd, s, items[..|items| - 1]), last, s.itemIndex >= last.index,
        s.countedItemIndex >= last.index);
    }
  }

  /** A step that is not a new login only mails on. */
  lemma StepAppends(sd: SlotData, v: World, e: Event)
    requires WeaponShape(v.me) && |v.me.saved.weapons| == MAX_HEIRLOOM_WEAPON_SLOTS && Enabled(v, e) && !e.Relog?
    ensures Appends(v.me, Next(sd, v, e).me)
  {
    hide RewardItems, MailWeapons, HighestIndex;
    match e {
      case Batch(lo, hi) => ItemsAppend(sd, v.me, Slice(v.list, lo, hi));
      case Choose(slot, weapon) =>
        if slot < sd.weaponSlots && slot >= v.me.weaponsSent && weapon in sd.weaponChoices {
          MailAppends(sd, SavePreferences(v.me.(weapons := v.me.weapons[slot := weapon])));
        }
      case _ =>
    }
  }
}
