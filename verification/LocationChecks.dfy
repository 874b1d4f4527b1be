/** Location checks on their way to the server, and the shop that sells them: what the client, the
    character and the database each remember, and how one call changes it. */
module LocationChecks {
  import opened Options
  import opened Shop

  /** The protocol client's part. `sent` is what the socket took: the socket drops the rest silently. */
  datatype Channel = Channel(slotConnected: bool, missing: set<int>, queue: set<int>, sent: set<int>)

  datatype Payment = Payment(locationId: int, price: nat)

  /** `checked` and `items` belong to the login, `db` and the money outlive it. `earned` records what
      came in less what went out outside the shop, `paid` what the shop took. */
  datatype World = World(channel: Channel, checked: set<int>, items: seq<ShopItem>, goalLevel: nat,
                         db: set<int>, money: nat, earned: int, paid: seq<Payment>)

  function Transmit(c: Channel, locations: set<int>, accepts: bool): Channel {
    var c := c.(missing := c.missing - locations);
    if !c.slotConnected then c.(queue := c.queue + locations)
    else if accepts then c.(sent := c.sent + locations)
    else c
  }

  /** The `Connected` message, up to the slot handler. */
  function Welcome(c: Channel, missing: set<int>, accepts: bool): Channel {
    var c := c.(slotConnected := true, missing := missing);
    if c.queue == {} then c else Transmit(c.(queue := {}), c.queue, accepts)
  }

  function Check(w: World, locations: set<int>, accepts: bool): World {
    if locations == {} then w
    else w.(channel := Transmit(w.channel, locations, accepts), checked := w.checked + locations,
      db := w.db + locations)
  }

  function Sync(w: World, accepts: bool): World {
    if w.db == {} then w
    else w.(checked := w.checked + w.db, channel := Transmit(w.channel, w.db, accepts))
  }

  /** A slot connection whose slot data the character accepts. */
  function Connect(w: World, missing: set<int>, data: seq<ShopItem>, goalLevel: nat, flushed: bool,
      accepts: bool): World {
    Sync(w.(channel := Welcome(w.channel, missing, flushed), items := AddAll(w.items, data), goalLevel := goalLevel),
      accepts)
  }

  predicate IsLocationChecked(w: World, locationId: int) {
    locationId in w.checked || (w.channel.slotConnected && locationId !in w.channel.missing)
  }

  /** What the vendor window sells for `entry`, if anything. */
  function OnSale(w: World, entry: nat): Option<ShopItem> {
    match ItemOf(w.items, entry)
    case None => None
    case Some(item) => if IsLocationChecked(w, item.locationId) then None else Some(item)
  }

  lemma SoldTogether(items: seq<ShopItem>, entry: nat)
    ensures ItemOf(items, entry).Some? ==> TierSize(items, ItemOf(items, entry).value.level) > 0
  {
    if ItemOf(items, entry).Some? {
      SoldAtLevel(items, entry - SHOP_ITEM_ENTRY);
    }
  }

  function Buy(w: World, entry: nat, playerLevel: nat, accepts: bool): World {
    if !w.channel.slotConnected || OnSale(w, entry).None? then w
    else
      var item := OnSale(w, entry).value;
      SoldTogether(w.items, entry);
      var price := Price(w.items, item, w.goalLevel);
      if playerLevel < item.level || w.money < price then w
      else
        Check(w.(money := w.money - price, paid := w.paid + [Payment(item.locationId, price)]), {item.locationId},
          accepts)
  }

  /** An entry bought is sold out: a second purchase from the same window changes nothing. */
  lemma BoughtOnce(w: World, entry: nat, playerLevel: nat, accepts: bool, later: nat, again: bool)
    ensures var w' := Buy(w, entry, playerLevel, accepts);
            w' == w || (OnSale(w, entry).Some? && OnSale(w', entry).None? && Buy(w', entry, later, again) == w')
  {
  }

  // ----- The classes -----

  function Locations(s: seq<int>): set<int> {
    set l | l in s
  }

  lemma LocationsStep(s: seq<int>, i: nat)
    requires i < |s|
    ensures Locations(s[..i + 1]) == Locations(s[..i]) + {s[i]}
  {
    assert s[..i + 1] == s[..i] + [s[i]];
  }

  lemma HasElement(s: set<int>)
    ensures s == {} || exists x :: x in s
  {
    if forall x :: x !in s {
      assert s == {};
    }
  }

  /** A set's elements, each once, in any order. */
  method Listed(s: set<int>) returns (list: seq<int>)
    ensures Locations(list) == s && |list| == |s|
  {
    list := [];
    var left := s;
    while left != {}
      invariant left <= s && Locations(list) + left == s && |list| + |left| == |s|
      decreases |left|
    {
      HasElement(left);
      var x :| x in left;
      ghost var was := list;
      list := list + [x];
      left := left - {x};
      assert Locations(list) == Locations(was) + {x};
    }
  }

  /** The character's table of checks. */
  class Database {
    var rows: set<int>

    constructor ()
      ensures rows == {}
    {
      rows := {};
    }

    method Replace(locationId: int)
      modifies this
      ensures rows == old(rows) + {locationId}
    {
      rows := rows + {locationId};
    }

    /** The rows, in whatever order the database hands them out. */
    method Select() returns (result: seq<int>)
      ensures Locations(result) == rows && |result| == |rows|
    {
      result := Listed(rows);
    }
  }

  class Client {
    var slotConnected: bool
    var missingLocations: set<int>
    var checkQueue: set<int>
    var sent: set<int>

    ghost function State(): Channel
      reads this
    {
      Channel(slotConnected, missingLocations, checkQueue, sent)
    }

    constructor ()
      ensures State() == Channel(false, {}, {}, {})
    {
      slotConnected, missingLocations, checkQueue, sent := false, {}, {}, {};
    }

    method LocationChecks(locations: seq<int>, accepts: bool)
      modifies this
      ensures State() == Transmit(old(State()), Locations(locations), accepts)
    {
      for i := 0 to |locations|
        invariant State() == old(State()).(missing := old(missingLocations) - Locations(locations[..i]))
      {
        LocationsStep(locations, i);
        missingLocations := missingLocations - {locations[i]};
      }
      assert locations[..|locations|] == locations;
      if slotConnected {
        if accepts {
          sent := sent + Locations(locations);
        }
      } else {
        checkQueue := checkQueue + Locations(locations);
      }
    }

    method Connected(missing: set<int>, accepts: bool)
      modifies this
      ensures State() == Welcome(old(State()), missing, accepts)
    {
      slotConnected := true;
      missingLocations := missing;
      if checkQueue != {} {
        var queued := Listed(checkQueue);
        checkQueue := {};
        LocationChecks(queued, accepts);
      }
    }
  }

  class Character {
    const ap: Client
    const database: Database
    const shop: ShopList
    var checkedLocations: set<int>
    var goalLevel: nat
    var money: nat
    ghost var earned: int
    ghost var paid: seq<Payment>

    ghost function State(): World
      reads this, ap, database, shop
    {
      World(ap.State(), checkedLocations, shop.items, goalLevel, database.rows, money, earned, paid)
    }

    /** A login, on the database the logins before it left. */
    constructor (database: Database, money: nat, ghost earned: int, ghost paid: seq<Payment>)
      ensures this.database == database && fresh(ap) && fresh(shop)
      ensures State() == World(Channel(false, {}, {}, {}), {}, [], 0, database.rows, money, earned, paid)
    {
      ap := new Client();
      shop := new ShopList();
      this.database := database;
      checkedLocations, goalLevel := {}, 0;
      this.money, this.earned, this.paid := money, earned, paid;
    }

    method CheckLocation(locationId: int, accepts: bool)
      modifies this, ap, database
      ensures State() == Check(old(State()), {locationId}, accepts)
    {
      checkedLocations := checkedLocations + {locationId};
      ap.LocationChecks([locationId], accepts);
      assert Locations([locationId]) == {locationId};
      database.Replace(locationId);
    }

    method CheckLocations(locationIds: seq<int>, accepts: bool)
      modifies this, ap, database
      ensures State() == Check(old(State()), Locations(locationIds), accepts)
    {
      if |locationIds| == 0 {
        return;
      }
      assert locationIds[0] in Locations(locationIds);
      ap.LocationChecks(locationIds, accepts);
      ghost var before := old(State());
      for i := 0 to |locationIds|
        invariant State() == before.(
          channel := Transmit(before.channel, Locations(locationIds), accepts),
          checked := before.checked + Locations(locationIds[..i]), db := before.db + Locations(locationIds[..i]))
      {
        LocationsStep(locationIds, i);
        checkedLocations := checkedLocations + {locationIds[i]};
        database.Replace(locationIds[i]);
      }
      assert locationIds[..|locationIds|] == locationIds;
    }

    method SyncLocationChecks(accepts: bool)
      modifies this, ap
      ensures State() == Sync(old(State()), accepts)
    {
      var result := database.Select();
      if |result| > 0 {
        assert result[0] in Locations(result);
        ghost var before := State();
        for i := 0 to |result|
          invariant State() == before.(checked := before.checked + Locations(result[..i]))
        {
          LocationsStep(result, i);
          checkedLocations := checkedLocations + {result[i]};
        }
        assert result[..|result|] == result;
        ap.LocationChecks(result, accepts);
      }
    }

    method OnConnected(missing: set<int>, data: seq<ShopItem>, goalLevel: nat, flushed: bool, accepts: bool)
      modifies this, ap, shop
      ensures State() == Connect(old(State()), missing, data, goalLevel, flushed, accepts)
    {
      ap.Connected(missing, flushed);
      shop.ReadSlotData(data);
      this.goalLevel := goalLevel;
      SyncLocationChecks(accepts);
    }

    method IsChecked(locationId: int) returns (r: bool)
      ensures r == IsLocationChecked(State(), locationId)
    {
      r := locationId in checkedLocations || (ap.slotConnected && locationId !in ap.missingLocations);
    }

    /** The entries the vendor window lists, in the shop's order; the shop is sold out when there are none. */
    method Open() returns (entries: seq<nat>)
      ensures forall entry: nat :: entry in entries <==> OnSale(State(), entry).Some?
      ensures forall i, j :: 0 <= i < j < |entries| ==> entries[i] < entries[j]
      ensures |entries| <= MAX_VENDOR_ITEMS
    {
      entries := [];
      var n := if |shop.items| < MAX_VENDOR_ITEMS then |shop.items| else MAX_VENDOR_ITEMS;
      for i := 0 to n
        invariant |entries| <= i
        invariant forall entry: nat :: entry in entries <==> OnSale(State(), entry).Some? && entry < SHOP_ITEM_ENTRY + i
        invariant forall j, k :: 0 <= j < k < |entries| ==> entries[j] < entries[k]
      {
        var sold := IsChecked(shop.items[i].locationId);
        if !sold {
          assert forall k :: 0 <= k < |entries| ==> entries[k] in entries;
          entries := entries + [SHOP_ITEM_ENTRY + i];
        }
      }
    }

    method BuyEntry(entry: nat, playerLevel: nat, accepts: bool)
      requires ItemOf(shop.items, entry).Some?
      modifies this, ap, database
      ensures State() == Buy(old(State()), entry, playerLevel, accepts)
    {
      if !ap.slotConnected {
        return;
      }
      var item := shop.items[entry - SHOP_ITEM_ENTRY];
      var sold := IsChecked(item.locationId);
      if sold || playerLevel < item.level {
        return;
      }
      var price := GetPrice(shop.items, entry - SHOP_ITEM_ENTRY, goalLevel);
      if money < price {
        return;
      }
      money, paid := money - price, paid + [Payment(item.locationId, price)];
      CheckLocation(item.locationId, accepts);
    }
  }
}
