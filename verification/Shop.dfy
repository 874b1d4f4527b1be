/** The stone's shop: its items in the order of the slot data, and what each costs. */
module Shop {
  import opened Options

  datatype ShopItem = ShopItem(locationId: int, level: nat)
  datatype ShopPrice = ShopPrice(level: nat, price: nat)

  const COPPER := 1
  const SILVER := 100 * COPPER
  const GOLD := 100 * SILVER

  const SHOP_PRICES: seq<ShopPrice> := [
    ShopPrice(1, 1 * SILVER + 40 * COPPER),
    ShopPrice(5, 7 * SILVER),
    ShopPrice(10, 35 * SILVER),
    ShopPrice(15, 60 * SILVER),
    ShopPrice(20, 1 * GOLD),
    ShopPrice(25, 1 * GOLD + 50 * SILVER),
    ShopPrice(30, 2 * GOLD + 40 * SILVER),
    ShopPrice(35, 4 * GOLD + 80 * SILVER),
    ShopPrice(40, 8 * GOLD),
    ShopPrice(45, 14 * GOLD),
    ShopPrice(50, 25 * GOLD),
    ShopPrice(55, 45 * GOLD),
    ShopPrice(60, 75 * GOLD),
    ShopPrice(65, 140 * GOLD),
    ShopPrice(70, 240 * GOLD),
    ShopPrice(75, 420 * GOLD)]

  const SHOP_PRICED_ITEMS_PER_TIER := 3
  const SHOP_ITEM_ENTRY := 100600
  const MAX_VENDOR_ITEMS := 150

  // ----- The list -----

  predicate Lists(items: seq<ShopItem>, locationId: int) {
    exists i :: 0 <= i < |items| && items[i].locationId == locationId
  }

  function Add(items: seq<ShopItem>, item: ShopItem): seq<ShopItem> {
    if Lists(items, item.locationId) then items else items + [item]
  }

  /** Reading the slot data's shop, entry by entry. */
  function AddAll(items: seq<ShopItem>, data: seq<ShopItem>): seq<ShopItem> {
    if |data| == 0 then items else Add(AddAll(items, data[..|data| - 1]), data[|data| - 1])
  }

  class ShopList {
    var items: seq<ShopItem>

    constructor ()
      ensures items == []
    {
      items := [];
    }

    method AddLocation(level: nat, locationId: int)
      modifies this
      ensures items == Add(old(items), ShopItem(locationId, level))
    {
      for i := 0 to |items|
        invariant items == old(items)
        invariant forall j :: 0 <= j < i ==> items[j].locationId != locationId
      {
        if items[i].locationId == locationId {
          return;
        }
      }
      items := items + [ShopItem(locationId, level)];
    }

    method ReadSlotData(data: seq<ShopItem>)
      modifies this
      ensures items == AddAll(old(items), data)
    {
      for i := 0 to |data|
        invariant items == AddAll(old(items), data[..i])
      {
        assert data[..i + 1][..i] == data[..i];
        AddLocation(data[i].level, data[i].locationId);
      }
      assert data[..|data|] == data;
    }
  }

  /** The item an entry of the vendor window stands for. */
  function ItemOf(items: seq<ShopItem>, entry: nat): Option<ShopItem> {
    if entry < SHOP_ITEM_ENTRY || entry - SHOP_ITEM_ENTRY >= |items| || entry - SHOP_ITEM_ENTRY >= MAX_VENDOR_ITEMS
    then None
    else Some(items[entry - SHOP_ITEM_ENTRY])
  }

  lemma {:induction false} AddAllLists(items: seq<ShopItem>, data: seq<ShopItem>)
    ensures items <= AddAll(items, data)
    ensures forall l :: Lists(AddAll(items, data), l) <==> Lists(items, l) || Lists(data, l)
  {
    if |data| > 0 {
      var n := |data| - 1;
      AddAllLists(items, data[..n]);
      forall l ensures Lists(AddAll(items, data), l) <==> Lists(items, l) || Lists(data, l) {
        ListsAppend(AddAll(items, data[..n]), data[n], l);
        ListsAppend(data[..n], data[n], l);
        assert data == data[..n] + [data[n]];
      }
    }
  }

  lemma ListsAppend(items: seq<ShopItem>, item: ShopItem, l: int)
    ensures Lists(items + [item], l) <==> Lists(items, l) || item.locationId == l
  {
    if Lists(items, l) {
      var i :| 0 <= i < |items| && items[i].locationId == l;
      assert (items + [item])[i].locationId == l;
    }
    if item.locationId == l {
      assert (items + [item])[|items|].locationId == l;
    }
  }

  lemma {:induction false} KnownDataAddsNothing(items: seq<ShopItem>, data: seq<ShopItem>)
    requires forall i :: 0 <= i < |data| ==> Lists(items, data[i].locationId)
    ensures AddAll(items, data) == items
  {
    if |data| > 0 {
      KnownDataAddsNothing(items, data[..|data| - 1]);
    }
  }

  /** Each location once. */
  ghost predicate Distinct(items: seq<ShopItem>) {
    forall i, j :: 0 <= i < j < |items| ==> items[i].locationId != items[j].locationId
  }

  lemma {:induction false} AddAllDistinct(items: seq<ShopItem>, data: seq<ShopItem>)
    requires Distinct(items)
    ensures Distinct(AddAll(items, data))
  {
    if |data| > 0 {
      AddAllDistinct(items, data[..|data| - 1]);
    }
  }

  /** Reading the slot data again on a reconnection, any number of times, changes nothing: every entry
      keeps standing for the same item. */
  lemma ReplayKeepsEntries(data: seq<ShopItem>, entry: nat)
    ensures var items := AddAll([], data);
            AddAll(items, data) == items && ItemOf(AddAll(items, data), entry) == ItemOf(items, entry)
              && Distinct(items)
  {
    AddAllLists([], data);
    KnownDataAddsNothing(AddAll([], data), data);
    AddAllDistinct([], data);
  }

  // ----- Prices -----

  function Lookup(table: seq<ShopPrice>, base: nat, level: nat): nat {
    if |table| == 0 then base
    else if level >= table[|table| - 1].level then table[|table| - 1].price
    else Lookup(table[..|table| - 1], base, level)
  }

  /** The level a tier is priced at: the last tier before a level goal costs what the one before does. */
  function PricedLevel(level: nat, goalLevel: nat): nat {
    if goalLevel > 6 && goalLevel - 6 < level then goalLevel - 6 else level
  }

  function TierPrice(level: nat, goalLevel: nat): nat {
    Lookup(SHOP_PRICES, SHOP_PRICES[0].price, PricedLevel(level, goalLevel))
  }

  method GetTierPrice(level: nat, goalLevel: nat) returns (price: nat)
    ensures price == TierPrice(level, goalLevel)
  {
    var level := level;
    if goalLevel > 6 {
      level := if level < goalLevel - 6 then level else goalLevel - 6;
    }
    price := SHOP_PRICES[0].price;
    for i := 0 to |SHOP_PRICES|
      invariant price == Lookup(SHOP_PRICES[..i], SHOP_PRICES[0].price, level)
    {
      assert SHOP_PRICES[..i + 1][..i] == SHOP_PRICES[..i];
      if level >= SHOP_PRICES[i].level {
        price := SHOP_PRICES[i].price;
      }
    }
    assert SHOP_PRICES[..|SHOP_PRICES|] == SHOP_PRICES;
  }

  /** Both columns rise, from at least `base`. */
  ghost predicate Rising(table: seq<ShopPrice>, base: nat) {
    && (forall i :: 0 <= i < |table| ==> base <= table[i].price)
    && (forall i, j :: 0 <= i < j < |table| ==> table[i].level < table[j].level && table[i].price <= table[j].price)
  }

  lemma {:induction false} LookupRises(table: seq<ShopPrice>, base: nat, low: nat, high: nat)
    requires Rising(table, base) && low <= high
    ensures base <= Lookup(table, base, low) <= Lookup(table, base, high)
    ensures |table| > 0 ==> Lookup(table, base, high) <= table[|table| - 1].price
  {
    if |table| > 0 {
      LookupRises(table[..|table| - 1], base, low, high);
    }
  }

  lemma PricesRise()
    ensures Rising(SHOP_PRICES, SHOP_PRICES[0].price)
  {
  }

  /** Later tiers never cost less, a nearer goal never makes a tier dearer, and every price fits the
      signed 32 bits it is taken from the player in, even before it is shared out. */
  lemma TierPricesRise(low: nat, high: nat, goalLevel: nat)
    requires low <= high
    ensures TierPrice(low, goalLevel) <= TierPrice(high, goalLevel)
    ensures TierPrice(low, goalLevel) <= TierPrice(low, 0)
    ensures SHOP_PRICES[0].price <= TierPrice(low, goalLevel) <= 420 * GOLD
    ensures TierPrice(low, goalLevel) * SHOP_PRICED_ITEMS_PER_TIER < 0x8000_0000
  {
    hide Rising, Lookup;
    var base := SHOP_PRICES[0].price;
    PricesRise();
    LookupRises(SHOP_PRICES, base, PricedLevel(low, goalLevel), PricedLevel(high, goalLevel));
    LookupRises(SHOP_PRICES, base, PricedLevel(low, goalLevel), low);
  }

  lemma {:induction false} LookupAt(table: seq<ShopPrice>, base: nat, level: nat, i: nat)
    requires Rising(table, base) && i < |table| && table[i].level <= level
    requires i + 1 < |table| ==> level < table[i + 1].level
    ensures Lookup(table, base, level) == table[i].price
  {
    if i < |table| - 1 {
      assert level < table[|table| - 1].level;
      LookupAt(table[..|table| - 1], base, level, i);
    }
  }

  /** A tier costs what the last row it reaches says, at its own level or, if that is lower, six levels
      below the goal. */
  lemma TierReached(level: nat, goalLevel: nat, priced: nat, i: nat)
    requires priced <= level && (goalLevel > 6 ==> priced <= goalLevel - 6)
    requires priced == level || (goalLevel > 6 && priced == goalLevel - 6)
    requires i < |SHOP_PRICES| && SHOP_PRICES[i].level <= priced
    requires i + 1 < |SHOP_PRICES| ==> priced < SHOP_PRICES[i + 1].level
    ensures TierPrice(level, goalLevel) == SHOP_PRICES[i].price
  {
    hide Rising;
    PricesRise();
    LookupAt(SHOP_PRICES, SHOP_PRICES[0].price, priced, i);
  }

  /** How many of the shop's items are of a level. */
  function TierSize(items: seq<ShopItem>, level: nat): nat {
    if |items| == 0 then 0
    else TierSize(items[..|items| - 1], level) + if items[|items| - 1].level == level then 1 else 0
  }

  lemma {:induction false} TierSizeCounts(items: seq<ShopItem>, level: nat)
    ensures TierSize(items, level) == |set i: nat | i < |items| && items[i].level == level|
  {
    if |items| > 0 {
      var n := |items| - 1;
      TierSizeCounts(items[..n], level);
      var all := set i: nat | i < |items| && items[i].level == level;
      var but := set i: nat | i < n && items[..n][i].level == level;
      assert all == if items[n].level == level then but + {n} else but;
    }
  }

  lemma {:induction false} SoldAtLevel(items: seq<ShopItem>, i: nat)
    requires i < |items|
    ensures TierSize(items, items[i].level) > 0
  {
    if i < |items| - 1 {
      SoldAtLevel(items[..|items| - 1], i);
    }
  }

  function Price(items: seq<ShopItem>, item: ShopItem, goalLevel: nat): nat
    requires TierSize(items, item.level) > 0
  {
    TierPrice(item.level, goalLevel) * SHOP_PRICED_ITEMS_PER_TIER / TierSize(items, item.level)
  }

  method GetPrice(items: seq<ShopItem>, i: nat, goalLevel: nat) returns (price: nat)
    requires i < |items|
    ensures TierSize(items, items[i].level) > 0
    ensures price == Price(items, items[i], goalLevel)
  {
    var tierSize := 0;
    for j := 0 to |items|
      invariant tierSize == TierSize(items[..j], items[i].level)
    {
      assert items[..j + 1][..j] == items[..j];
      if items[j].level == items[i].level {
        tierSize := tierSize + 1;
      }
    }
    assert items[..|items|] == items;
    SoldAtLevel(items, i);
    var tierPrice := GetTierPrice(items[i].level, goalLevel);
    price := tierPrice * SHOP_PRICED_ITEMS_PER_TIER / tierSize;
  }

  /** What buying every item of a level among `part` costs, at the prices of the whole shop. */
  function TierCost(items: seq<ShopItem>, part: seq<ShopItem>, level: nat, goalLevel: nat): nat
    requires TierSize(items, level) > 0
  {
    if |part| == 0 then 0
    else
      TierCost(items, part[..|part| - 1], level, goalLevel)
      + if part[|part| - 1].level == level then Price(items, part[|part| - 1], goalLevel) else 0
  }

  lemma {:induction false} TierCostIs(items: seq<ShopItem>, part: seq<ShopItem>, level: nat, goalLevel: nat)
    requires TierSize(items, level) > 0
    ensures TierCost(items, part, level, goalLevel) ==
            TierSize(part, level) * (TierPrice(level, goalLevel) * SHOP_PRICED_ITEMS_PER_TIER / TierSize(items, level))
  {
    hide TierPrice;
    if |part| > 0 {
      TierCostIs(items, part[..|part| - 1], level, goalLevel);
    }
  }

  lemma SharedOut(total: nat, n: nat)
    requires n > 0
    ensures total - n < n * (total / n) <= total
  {
    assert total == n * (total / n) + total % n;
  }

  /** However many items a tier is split into, buying it out costs three tier prices, short of less
      than one copper per item. */
  lemma TierTotal(items: seq<ShopItem>, level: nat, goalLevel: nat)
    requires TierSize(items, level) > 0
    ensures var whole := SHOP_PRICED_ITEMS_PER_TIER * TierPrice(level, goalLevel);
            whole - TierSize(items, level) < TierCost(items, items, level, goalLevel) <= whole
  {
    hide TierPrice, TierCost, TierSize;
    TierCostIs(items, items, level, goalLevel);
    SharedOut(TierPrice(level, goalLevel) * SHOP_PRICED_ITEMS_PER_TIER, TierSize(items, level));
  }
}
