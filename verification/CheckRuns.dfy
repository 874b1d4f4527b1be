/** Location checks and purchases over whole runs: connections come and go, the socket drops what it
    likes, logins end, and what was checked still reaches the server and is paid for once. */
module CheckRuns {
  import opened Options
  import opened Shop
  import opened LocationChecks

  datatype Event =
    | Made(locations: set<int>, accepts: bool)
    | Connected(missing: set<int>, data: seq<ShopItem>, goalLevel: nat, flushed: bool, accepts: bool)
    | Refused(missing: set<int>, flushed: bool)
    | Dropped
    | CheckedElsewhere(locations: set<int>)
    | Bought(entry: nat, playerLevel: nat, accepts: bool)
    | MoneyChanged(amount: int)  // earned, or spent outside the shop
    | Relog

  /** A new login: only the database and the money are still there, and what the server was sent. */
  function Login(w: World): World {
    w.(channel := Channel(false, {}, {}, w.channel.sent), checked := {}, items := [], goalLevel := 0)
  }

  function Next(w: World, e: Event): World {
    match e
    case Made(locations, accepts) => Check(w, locations, accepts)
    case Connected(missing, data, goalLevel, flushed, accepts) => Connect(w, missing, data, goalLevel, flushed, accepts)
    // Slot data that is not accepted ends the login with the poll that read it.
    case Refused(missing, flushed) => Login(w.(channel := Welcome(w.channel, missing, flushed)))
    case Dropped => w.(channel := w.channel.(slotConnected := false))
    case CheckedElsewhere(locations) => w.(channel := w.channel.(missing := w.channel.missing - locations))
    case Bought(entry, playerLevel, accepts) => Buy(w, entry, playerLevel, accepts)
    case MoneyChanged(amount) =>
      var change: int := if w.money + amount < 0 then 0 - w.money else amount;
      w.(money := w.money + change, earned := w.earned + change)
    case Relog => Login(w)
  }

  function Spent(paid: seq<Payment>): nat {
    if |paid| == 0 then 0 else Spent(paid[..|paid| - 1]) + paid[|paid| - 1].price
  }

  /** Nothing is remembered that the database does not hold, and a connected login remembers all of it. */
  ghost predicate ChecksInv(w: World) {
    && w.checked <= w.db && w.channel.queue <= w.db && w.channel.sent <= w.db
    && (w.channel.slotConnected ==> w.checked == w.db)
  }

  ghost predicate PaidInv(w: World) {
    && (forall i :: 0 <= i < |w.paid| ==> w.paid[i].locationId in w.db)
    && (forall i, j :: 0 <= i < j < |w.paid| ==> w.paid[i].locationId != w.paid[j].locationId)
  }

  ghost predicate Inv(w: World, start: nat) {
    ChecksInv(w) && PaidInv(w) && w.money + Spent(w.paid) == start + w.earned && Distinct(w.items)
  }

  lemma ChecksKept(w: World, e: Event)
    requires ChecksInv(w)
    ensures ChecksInv(Next(w, e))
  {
    hide AddAll, OnSale;
  }

  /** What a purchase takes is the price of what it sells, and only an unchecked location is sold. */
  lemma PaidKept(w: World, e: Event)
    requires ChecksInv(w) && PaidInv(w)
    ensures PaidInv(Next(w, e))
    ensures var w' := Next(w, e); w'.money + Spent(w'.paid) == w.money + Spent(w.paid) + w'.earned - w.earned
  {
    hide AddAll, Price, ItemOf;
  }

  lemma ItemsKept(w: World, e: Event)
    requires Distinct(w.items)
    ensures Distinct(Next(w, e).items)
    ensures !e.Relog? && !e.Refused? ==> w.items <= Next(w, e).items
  {
    hide AddAll, Price, ItemOf;
    if e.Connected? {
      AddAllDistinct(w.items, e.data);
      AddAllLists(w.items, e.data);
    }
  }

  lemma StepKeeps(w: World, e: Event, start: nat)
    requires Inv(w, start)
    ensures Inv(Next(w, e), start)
  {
    hide ChecksInv, PaidInv, Next, Distinct;
    ChecksKept(w, e);
    PaidKept(w, e);
    ItemsKept(w, e);
  }

  /** The database and what was sent only grow, and nothing is sent that the database does not hold. */
  lemma StepGrows(w: World, e: Event)
    ensures w.db <= Next(w, e).db && w.channel.sent <= Next(w, e).channel.sent
    ensures e.Made? ==> e.locations <= Next(w, e).db
  {
    hide AddAll, OnSale;
  }

  /** Whatever was dropped or is still queued goes out with a connection whose socket takes it. */
  lemma ConnectionSendsAll(w: World, e: Event)
    requires ChecksInv(w) && e.Connected? && e.accepts
    ensures Next(w, e).channel.sent == Next(w, e).db == w.db
  {
    hide AddAll;
  }

  /** With nothing outstanding, a step leaves something outstanding exactly when it makes a new check
      that the socket does not take. */
  lemma OutstandingIff(w: World, e: Event)
    requires ChecksInv(w) && w.channel.sent == w.db
    ensures var w' := Next(w, e);
            w'.channel.sent != w'.db <==> w'.db != w.db && !(w.channel.slotConnected && e.accepts)
  {
    hide AddAll, OnSale, Price;
  }

  // ----- Runs -----

  ghost predicate IsRun(events: seq<Event>, worlds: seq<World>) {
    && |worlds| == |events| + 1
    && forall i :: 0 <= i < |events| ==> worlds[i + 1] == Next(worlds[i], events[i])
  }

  /** A character that never logged in before. */
  function Fresh(money: nat): World {
    World(Channel(false, {}, {}, {}), {}, [], 0, {}, money, 0, [])
  }

  lemma {:induction false} RunKeeps(events: seq<Event>, worlds: seq<World>, money: nat, n: nat)
    requires IsRun(events, worlds) && worlds[0] == Fresh(money) && n < |worlds|
    ensures Inv(worlds[n], money)
  {
    hide Next;
    if n > 0 {
      RunKeeps(events, worlds, money, n - 1);
      assert worlds[n - 1 + 1] == Next(worlds[n - 1], events[n - 1]);
      StepKeeps(worlds[n - 1], events[n - 1], money);
    }
  }

  lemma {:induction false} RunGrows(events: seq<Event>, worlds: seq<World>, i: nat, j: nat)
    requires IsRun(events, worlds) && i <= j < |worlds|
    ensures worlds[i].db <= worlds[j].db && worlds[i].channel.sent <= worlds[j].channel.sent
    decreases j
  {
    hide Next;
    if i < j {
      RunGrows(events, worlds, i, j - 1);
      assert worlds[j - 1 + 1] == Next(worlds[j - 1], events[j - 1]);
      StepGrows(worlds[j - 1], events[j - 1]);
    }
  }

  /** At least once: a check made at any time, online or not, in this login or an earlier one, has
      reached the socket after the next connection whose socket takes it, and stays so. */
  lemma AtLeastOnce(events: seq<Event>, worlds: seq<World>, money: nat, made: nat, connected: nat, now: nat)
    requires IsRun(events, worlds) && worlds[0] == Fresh(money)
    requires made < connected < |events| && connected < now < |worlds|
    requires events[made].Made? && events[connected].Connected? && events[connected].accepts
    ensures events[made].locations <= worlds[now].channel.sent
    ensures worlds[connected].db <= worlds[now].channel.sent <= worlds[now].db
  {
    hide Next, Transmit, Check;
    RunKeeps(events, worlds, money, connected);
    RunKeeps(events, worlds, money, now);
    assert worlds[made + 1] == Next(worlds[made], events[made]);
    StepGrows(worlds[made], events[made]);
    RunGrows(events, worlds, made + 1, connected);
    assert worlds[connected + 1] == Next(worlds[connected], events[connected]);
    ConnectionSendsAll(worlds[connected], events[connected]);
    RunGrows(events, worlds, connected + 1, now);
  }

  /** Over all logins no location is paid for twice, each one paid for is checked, and the purse holds
      what came in by other ways, less what went out by them and what the shop took. */
  lemma PaidOnce(events: seq<Event>, worlds: seq<World>, money: nat, n: nat)
    requires IsRun(events, worlds) && worlds[0] == Fresh(money) && n < |worlds|
    ensures var w := worlds[n];
            && w.money == money + w.earned - Spent(w.paid)
            && (forall i :: 0 <= i < |w.paid| ==> w.paid[i].locationId in w.db)
            && (forall i, j :: 0 <= i < j < |w.paid| ==> w.paid[i].locationId != w.paid[j].locationId)
  {
    hide Next;
    RunKeeps(events, worlds, money, n);
  }

  /** Within a login an entry of the shop stands for one item, however often the slot data is read. */
  lemma {:induction false} EntriesStay(events: seq<Event>, worlds: seq<World>, money: nat, i: nat, j: nat, entry: nat)
    requires IsRun(events, worlds) && worlds[0] == Fresh(money) && i <= j < |worlds|
    requires forall k :: i <= k < j ==> !events[k].Relog? && !events[k].Refused?
    requires ItemOf(worlds[i].items, entry).Some?
    ensures worlds[i].items <= worlds[j].items && ItemOf(worlds[j].items, entry) == ItemOf(worlds[i].items, entry)
    decreases j
  {
    hide Next, Distinct;
    if i < j {
      EntriesStay(events, worlds, money, i, j - 1, entry);
      RunKeeps(events, worlds, money, j - 1);
      assert worlds[j - 1 + 1] == Next(worlds[j - 1], events[j - 1]);
      ItemsKept(worlds[j - 1], events[j - 1]);
    }
  }

  // ----- The queue and the missing list -----

  /** Over any run: what is checked while offline waits in the queue, a connection empties the queue into the
      socket before anything else, and what was checked or sent again is off the missing list. */
  lemma QueueFlushed(events: seq<Event>, worlds: seq<World>, money: nat, n: nat)
    requires IsRun(events, worlds) && worlds[0] == Fresh(money) && n < |events|
    ensures var v, e, w := worlds[n], events[n], worlds[n + 1];
            && (e.Made? && !v.channel.slotConnected ==> w.channel.queue == v.channel.queue + e.locations)
            && (e.Made? ==> w.channel.missing == v.channel.missing - e.locations)
            && (e.Connected? ==> w.channel.queue == {} && w.channel.missing == e.missing - v.db)
            && (e.Connected? && e.flushed ==> v.channel.queue <= w.channel.sent)
            && (e.Connected? && !e.flushed && !e.accepts ==> w.channel.sent == v.channel.sent)
  {
    hide AddAll, OnSale, IsRun;
    OneStep(events, worlds, n);
    RunKeeps(events, worlds, money, n);
  }

  lemma OneStep(events: seq<Event>, worlds: seq<World>, n: nat)
    requires IsRun(events, worlds) && n < |events|
    ensures |worlds| == |events| + 1 && worlds[n + 1] == Next(worlds[n], events[n])
  {
  }

  // ----- Sales -----

  /** An entry of the window is for sale to a character of a level: connected, one of the 150 entries the
      window shows, a location the server still misses and nobody remembers as checked, the level, and the
      money. */
  predicate Sells(w: World, entry: nat, playerLevel: nat, item: ShopItem) {
    && w.channel.slotConnected
    && 100600 <= entry < 100600 + 150 && entry < 100600 + |w.items| && w.items[entry - 100600] == item
    && item.locationId in w.channel.missing && item.locationId !in w.checked
    && item.level <= playerLevel && PriceOf(w, entry - 100600) <= w.money
  }

  function PriceOf(w: World, i: nat): nat
    requires i < |w.items|
  {
    SoldAtLevel(w.items, i);
    Price(w.items, w.items[i], w.goalLevel)
  }

  /** A purchase goes through exactly when its entry is for sale; it then takes the price and checks the
      location, and otherwise nothing happens. */
  lemma SaleIff(w: World, entry: nat, playerLevel: nat, accepts: bool)
    ensures var w' := Next(w, Bought(entry, playerLevel, accepts));
            if exists item :: Sells(w, entry, playerLevel, item)
            then
              var item, price := w.items[entry - 100600], PriceOf(w, entry - 100600);
              && w'.money == w.money - price && w'.paid == w.paid + [Payment(item.locationId, price)]
              && w'.db == w.db + {item.locationId} && w'.checked == w.checked + {item.locationId}
              && w'.channel.missing == w.channel.missing - {item.locationId}
            else w' == w
  {
    hide Price, TierSize;
    if ItemOf(w.items, entry).Some? {
      assert Sells(w, entry, playerLevel, w.items[entry - 100600]) || OnSale(w, entry).None?
        || !w.channel.slotConnected || w.items[entry - 100600].level > playerLevel
        || PriceOf(w, entry - 100600) > w.money;
    }
  }

  /** A payment made by a purchase that was for sale. */
  ghost predicate BoughtAt(w: World, e: Event, p: Payment) {
    && e.Bought? && 100600 <= e.entry < 100600 + |w.items|
    && Sells(w, e.entry, e.playerLevel, w.items[e.entry - 100600])
    && p == Payment(w.items[e.entry - 100600].locationId, PriceOf(w, e.entry - 100600))
  }

  /** Whatever the shop was ever paid for was for sale at the time, at that price, to a character of its
      level that could pay it. */
  lemma {:induction false} PaidForSale(events: seq<Event>, worlds: seq<World>, money: nat, n: nat, k: nat)
    requires IsRun(events, worlds) && worlds[0] == Fresh(money) && n < |worlds| && k < |worlds[n].paid|
    ensures exists i :: 0 <= i < n && BoughtAt(worlds[i], events[i], worlds[n].paid[k])
  {
    hide Next, Sells, PriceOf;
    assert n > 0;
    var v, e := worlds[n - 1], events[n - 1];
    assert worlds[n - 1 + 1] == Next(v, e);
    OnlySalesPay(v, e);
    if k < |v.paid| {
      PaidForSale(events, worlds, money, n - 1, k);
    } else {
      assert BoughtAt(v, e, worlds[n].paid[k]);
    }
  }

  lemma OnlySalesPay(w: World, e: Event)
    ensures Next(w, e).paid == w.paid
         || (|Next(w, e).paid| == |w.paid| + 1 && w.paid <= Next(w, e).paid
             && BoughtAt(w, e, Next(w, e).paid[|w.paid|]))
  {
    hide Price, TierSize, AddAll;
    if e.Bought? {
      SaleIff(w, e.entry, e.playerLevel, e.accepts);
    }
  }
}
