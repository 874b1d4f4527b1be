/** What replaying the item list does to the granted riding ranks, over whole runs. */
module LadderRuns {
  import opened SlotItems
  import opened ItemDelivery
  import opened DeliveryRuns

  /** A run that has counted the whole list holds the ledger of one reading. */
  ghost predicate Rebuilds(sd: SlotData, events: seq<Event>, worlds: seq<World>)
    requires IsRun(sd, events, worlds)
  {
    var w := worlds[|events|];
    w.me.countedItemIndex == |w.list| - 1 ==> w.me.ledger == OnePass(sd, w.list)
  }

  lemma {:induction false} FirstReading(sd: SlotData, list: seq<Entry>, s: State, k: nat)
    requires WeaponShape(s) && s.ledger == EMPTY_LEDGER && s.countedItemIndex == -1 && k <= |list|
    ensures RewardItems(sd, s, Slice(list, 0, k)).ledger == OnePass(sd, list[..k])
  {
    hide Absorb, RewardItem;
    if k > 0 {
      FirstReading(sd, list, s, k - 1);
      RewardItemsLast(sd, list, s, 0, k);
      LedgerOf(sd, RewardItems(sd, s, Slice(list, 0, k - 1)), list[k - 1], k - 1, s.itemIndex >= k - 1, false);
      assert list[..k][..k - 1] == list[..k - 1];
    }
  }

  /** Going over a counted list once more, from its first entry to its last. */
  function Replayed(sd: SlotData, led: Ledger, list: seq<Entry>): Ledger {
    if |list| == 0 then led
    else Absorb(sd, Replayed(sd, led, list[..|list| - 1]), list[|list| - 1], true)
  }

  lemma {:induction false} SecondReading(sd: SlotData, list: seq<Entry>, s: State, k: nat)
    requires WeaponShape(s) && k <= |list| && s.countedItemIndex >= |list| - 1
    ensures RewardItems(sd, s, Slice(list, 0, k)).ledger == Replayed(sd, s.ledger, list[..k])
  {
    hide RewardItem, Absorb;
    if k > 0 {
      SecondReading(sd, list, s, k - 1);
      RewardItemsLast(sd, list, s, 0, k);
      LedgerOf(sd, RewardItems(sd, s, Slice(list, 0, k - 1)), list[k - 1], k - 1, s.itemIndex >= k - 1, true);
      assert list[..k][..k - 1] == list[..k - 1];
    }
  }

  lemma LedgerOf(sd: SlotData, s: State, e: Entry, index: int, rewarded: bool, counted: bool)
    requires WeaponShape(s)
    ensures RewardItem(sd, s, NetworkItem(e.item, e.player, index), rewarded, counted).ledger
            == Absorb(sd, s.ledger, e, counted)
  {
    hide Absorb, Classify, PaymentsFor, RewardOf, MailWeapons;
    assert Entry(e.item, e.player) == e;
  }

  /** More granted before means more granted after. */
  lemma GrantsAdd(sd: SlotData, a: Ledger, b: Ledger, e: Entry)
    requires SameButGrants(a, b) && a.handedOver <= b.handedOver
    ensures Absorb(sd, a, e, true).handedOver <= Absorb(sd, b, e, true).handedOver
    ensures b.handedOver <= Absorb(sd, b, e, true).handedOver
  {
    hide Classify, Ranks;
  }

  /** A replay of the list grants at least what any one of its entries would. */
  lemma {:induction false} ReplayedHolds(sd: SlotData, list: seq<Entry>, k: nat)
    requires k <= |list|
    ensures var led, t := OnePass(sd, list), Replayed(sd, OnePass(sd, list), list[..k]);
            && SameButGrants(t, led) && led.handedOver <= t.handedOver
            && forall i :: 0 <= i < k ==> Absorb(sd, led, list[i], true).handedOver <= t.handedOver
  {
    hide Absorb, OnePass, PaymentsFor;
    if k > 0 {
      var led := OnePass(sd, list);
      var before := Replayed(sd, led, list[..k - 1]);
      ReplayedHolds(sd, list, k - 1);
      assert list[..k][..k - 1] == list[..k - 1];
      GrantsAdd(sd, led, before, list[k - 1]);
      GrantsAside(sd, before, led, list[k - 1], true, 0);
      ReplayChangesNothing(sd, list, k - 1);
    }
  }

  /** A connection that sends the whole list, to a character that has counted none or all of it. */
  lemma WholeList(sd: SlotData, w: World)
    requires Inv(sd, w)
    ensures var e := Batch(0, |w.list|);
            && Enabled(w, e) && StepsTo(sd, w, e, Next(sd, w, e)) && Inv(sd, Next(sd, w, e))
    ensures var w' := Next(sd, w, Batch(0, |w.list|));
            && w'.list == w.list && w'.me.countedItemIndex == |w.list| - 1
            && (w.me.countedItemIndex == -1 && w.me.ledger == EMPTY_LEDGER ==> w'.me.ledger == OnePass(sd, w.list))
            && (w.me.countedItemIndex == |w.list| - 1 ==> w'.me.ledger == Replayed(sd, w.me.ledger, w.list))
  {
    hide Absorb, OnePass, Payments, RewardItems, HighestIndex, WeaponSenders, LaddersAgree, Replayed, AsShown, Rightful;
    var n := |w.list|;
    StepKeeps(sd, w, Batch(0, n));
    SliceHighest(w.me.countedItemIndex, w.list, 0, n);
    assert w.list[..n] == w.list;
    if w.me.countedItemIndex == n - 1 {
      SecondReading(sd, w.list, w.me, n);
    }
    if w.me.countedItemIndex == -1 && w.me.ledger == EMPTY_LEDGER {
      FirstReading(sd, w.list, w.me, n);
    }
  }

  /** A list read once, and sent again by the next connection. */
  lemma ReplayRun(sd: SlotData, list: seq<Entry>) returns (events: seq<Event>, worlds: seq<World>)
    ensures IsRun(sd, events, worlds) && events == [Grow(list), Batch(0, |list|), Batch(0, |list|)]
    ensures var w := worlds[|events|];
            && w.list == list && w.me.countedItemIndex == |list| - 1
            && w.me.ledger == Replayed(sd, OnePass(sd, list), list)
  {
    var w1 := Listed(sd, list);
    hide Inv, OnePass, Replayed, ReceiveItems;
    WholeList(sd, w1);
    var w2 := Next(sd, w1, Batch(0, |list|));
    WholeList(sd, w2);
    events := [Grow(list), Batch(0, |list|), Batch(0, |list|)];
    worlds := [START, w1, w2, Next(sd, w2, Batch(0, |list|))];
  }

  lemma Listed(sd: SlotData, list: seq<Entry>) returns (w: World)
    ensures StepsTo(sd, START, Grow(list), w) && Inv(sd, w) && w.list == list
    ensures w.me.countedItemIndex == -1 && w.me.ledger == EMPTY_LEDGER
  {
    hide MidBatch;
    RunStarts(sd);
    w := Next(sd, START, Grow(list));
    StepKeeps(sd, START, Grow(list));
  }

  /** Every run rebuilds the ledger of one reading exactly when the slot's riding ladders agree. */
  lemma RebuildsIff(sd: SlotData)
    ensures (forall events: seq<Event>, worlds: seq<World> :: IsRun(sd, events, worlds) ==>
            Rebuilds(sd, events, worlds))
            <==> LaddersAgree(sd)
  {
    hide IsRun, OnePass, Absorb, LaddersAgree;
    if LaddersAgree(sd) {
      forall events: seq<Event>, worlds: seq<World> | IsRun(sd, events, worlds) ensures Rebuilds(sd, events, worlds) {
        RebuildsAgreeing(sd, events, worlds);
      }
    } else {
      ReplayNeutralIff(sd);
      var list: seq<Entry>, i: nat :| i < |list| && Absorb(sd, OnePass(sd, list), list[i], true) != OnePass(sd, list);
      var events, worlds := ReplayRun(sd, list);
      ReplayedHolds(sd, list, |list|);
      assert list[..|list|] == list;
      ReplayChangesNothing(sd, list, i);
      GrantsAdd(sd, OnePass(sd, list), OnePass(sd, list), list[i]);
      assert !Rebuilds(sd, events, worlds);
    }
  }

  lemma RebuildsAgreeing(sd: SlotData, events: seq<Event>, worlds: seq<World>)
    requires IsRun(sd, events, worlds) && LaddersAgree(sd)
    ensures Rebuilds(sd, events, worlds)
  {
    hide LaddersAgree;
    RunKeeps(sd, events, worlds, |events|);
    var list := worlds[|events|].list;
    assert list[..|list|] == list;
  }

  /** Two riding items whose second ranks differ. */
  const TWO_LADDERS := SlotData(map[], {}, {}, 100, 0, [], 101, map[], map[], map[], map[],
                                map[1 := Track(Riding, [10, 20]), 2 := Track(Riding, [10, 30])], 102, 103, 104)

  /** One copy of each, and both sent again: the second rank of a ladder climbed once. */
  lemma TwoLaddersOvergrant() returns (events: seq<Event>, worlds: seq<World>)
    ensures IsRun(TWO_LADDERS, events, worlds)
    ensures var w := worlds[|events|];
            && w.list == [Entry(1, 0), Entry(2, 0)] && w.me.countedItemIndex == 1
            && OnePass(TWO_LADDERS, w.list).handedOver == {10, 30} && w.me.ledger.handedOver == {10, 20, 30}
  {
    hide IsRun, OnePass, Absorb;
    var list := [Entry(1, 0), Entry(2, 0)];
    events, worlds := ReplayRun(TWO_LADDERS, list);
    TwoLaddersRead(list);
  }

  lemma TwoLaddersRead(list: seq<Entry>)
    requires list == [Entry(1, 0), Entry(2, 0)]
    ensures OnePass(TWO_LADDERS, list).handedOver == {10, 30}
    ensures Replayed(TWO_LADDERS, OnePass(TWO_LADDERS, list), list).handedOver == {10, 20, 30}
  {
    hide OnePass, Absorb;
    var one, two := OnePass(TWO_LADDERS, list[..1]), OnePass(TWO_LADDERS, list[..2]);
    OnePassStep(TWO_LADDERS, list, 0);
    OnePassStep(TWO_LADDERS, list, 1);
    assert list[..0] == [] && list[..2] == list;
    NothingRead();
    LadderStep(EMPTY_LEDGER, 1, 20, false);
    LadderStep(one, 2, 30, false);
    LadderStep(two, 1, 20, true);
    var again := Absorb(TWO_LADDERS, two, list[0], true);
    LadderStep(again, 2, 30, true);
    assert Replayed(TWO_LADDERS, two, list[..1]) == again by {
      assert list[..1][..0] == [];
    }
  }

  lemma NothingRead()
    ensures OnePass(TWO_LADDERS, []) == EMPTY_LEDGER
  {
  }

  /** A copy of one of the two ladders. */
  lemma LadderStep(led: Ledger, item: int, second: nat, alreadyCounted: bool)
    requires (item == 1 && second == 20) || (item == 2 && second == 30)
    ensures var t := Absorb(TWO_LADDERS, led, Entry(item, 0), alreadyCounted);
            var count := Count(led.counts, Riding) + if alreadyCounted then 0 else 1;
            && Count(t.counts, Riding) == count
            && (count == 1 ==> t.handedOver == led.handedOver + {10})
            && (count == 2 ==> t.handedOver == led.handedOver + {10, second})
  {
    hide Ranks;
    RanksOfTwo(10, second);
    assert Classify(TWO_LADDERS, item) == Progressive(Track(Riding, [10, second]));
  }

  lemma RanksOfTwo(a: nat, b: nat)
    ensures Ranks([a, b], 1) == {a} && Ranks([a, b], 2) == {a, b}
  {
    assert [a, b][0] in Ranks([a, b], 1) && [a, b][0] in Ranks([a, b], 2) && [a, b][1] in Ranks([a, b], 2);
  }
}
