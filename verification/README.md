# ArchipelaWoW, verified

A Dafny model of the logic that decides whether an ArchipelaWoW character gets what its slot in an
Archipelago multiworld owes it, once, over any number of logins, reconnections and failures. Each part
of the module that changes state step by step is a class whose methods are proved to take the steps of
a specification, and the specification is what the theorems over whole runs are about.

`dafny verify dfyconfig.toml` checks the project.

## What is modelled

**Item delivery** (`SlotItems`, `ItemDelivery`, `DeliveryRuns`, `SlotTables`, `WeaponRuns`,
`LadderRuns`). The server replays a slot's whole item
list on every connection. The character saves `itemIndex`, forgets `countedItemIndex`, pays one-shot
rewards and rebuilds what is worth the sum of every copy. A run grows the list, cuts it into batches
anywhere, replays, fills heirloom weapon slots, springs the traps that wait and ends sessions. Rewards
are paid exactly once, in list order, each what the first of the slot's tables to name its item says;
everything else equals one reading of the list; the heirloom weapons are mailed from the senders of their
copies, slots 0, 1, 2 in order while the database takes the row that counts them, which it does while few
enough traps wait.

**The network** (`WebSocket`, `WebSocketClients`, `SocketRuns`, `ProtocolClient`, `PollingRuns`,
`StrandedClient`). The asynchronous socket is one step relation in which completions arrive in any order
the strand allows, over a stream that demands what Beast demands: one outstanding read, one outstanding
write of an unmoving buffer, no close over a write. The protocol client polls the socket's events, cut
anywhere, and decides on TLS fallback, the scheme of the next attempt and when to reconnect.

**Location checks and the shop** (`Shop`, `LocationChecks`, `CheckRuns`). What the login, the database,
the client's queue and a socket that drops silently each remember; purchases on top.

**Traps** (`TrapList`, `TrapQueue`, `TrapSprings`, `BombRun`, `BombDrops`). The saved list as text, the queue
with its holds and priorities, and the timed bombardment.

**Gear** (`GearPool`, `GearRules`). The armour types a character is offered, the widening search for a
piece, and why a piece is passed over.

**The spell lock** (`Spells`, `SpellLock`, `SpellLockRuns`, `SpellOutcomes`). The registry of withheld
spells, the hook, the grants and the sweep.

**Chat rendering** (`ColorCodes`, `Rendering`, `GameColors`, `ChatParts`). From a message's parts to
terminal codes to the game's codes, with an independent reading of both kinds of string as coloured
letters.

**Experience** (`Experience`). The carry loop over any table of requirements.

The clock, random draws, the core's answers (whether a trap can spring, what a spell goes on to teach,
whether a socket takes a message) and parsed packets are parameters, and the theorems hold for all of
them.

## What turned out not to hold

Each has its exact condition, for all inputs, and an input that shows it.

- Every run rebuilds what the items are worth exactly when the slot's riding items share one ladder
  (`LadderRuns.RebuildsIff`, `LadderRuns.TwoLaddersOvergrant`): on a replay, two different ladders grant
  ranks that one reading does not. Payments, counts and mails do not depend on it.
- A message whose read had completed when a write failed arrives after Close. If it carries `RoomInfo` or
  `Connected`, the client takes itself to be in the room and never reconnects
  (`ProtocolClient.ComesBackIff`, `StrandedClient.LateWelcomeStrands`).
- The waiting traps share a 255-character column, and a row past its width is refused as a whole. With
  129 traps left to save, one that went off is loaded again by the next login
  (`TrapQueue.NothingComesBackIff`, `TrapQueue.ComesBack`), and a weapon mailed meanwhile is mailed again
  (`WeaponRuns.WeaponMailedTwice`). Every slot is mailed at most once exactly when no weapon is mailed
  after a login that ended with one sent and not on record (`WeaponRuns.WeaponsInOrderIff`).
- The comment on the teleport hold says any teleport holds the traps. It does exactly when one is already
  waiting while the teleport is under way (`TrapQueue.TeleportHoldsIff`, `TrapQueue.SpringsEarly`).
- The sweep locks a character whatever it knew exactly when every spell a wrapper was registered with is
  still listed by an entry; a second item of the same wrapper with another list breaks that
  (`SpellLock.SweepLocksIff`, `SpellLock.SweepMisses`). A spell 0 that the slot data withholds passes the
  hook whenever nothing is being granted (`SpellLock.OutsideIff`, `SpellLock.SpellZeroPasses`). Every run
  of every character keeps the lock exactly when the slot data does neither
  (`SpellLockRuns.RunsLockIff`).
- Experience is conserved exactly when adding it does not pass 32 bits (`Experience.ConservedIff`,
  `Experience.OverflowLoses`).
- The chat shows a message as the terminal would exactly when the rendered text holds no colour code of
  the game, `|r`, or `|c` and any eight hexadecimal digits; this reads the colour codes alone, and the
  game's other bar escapes count as letters. The client removes escapes from texts, not bars
  (`GameColors.ChatShowsIff`, `GameColors.TextCanBreakColor`).

## Model

| member | source | states |
|---|---|---|
| SlotItems.OnePassGrows | src/AP_Character.cpp:1559-1597 | reading further never takes a count, sender, zone, spell or glyph back |
| SlotItems.CountsAreCopies | src/AP_Character.cpp:1559-1572 | a track's count is the number of its copies in the list |
| SlotItems.StepOfList | src/AP_Character.cpp:1909-1924 | what a track is worth after a list depends on its copies there alone |
| SlotItems.ValueSaturates | src/items/AP_Progressive.h:50-62 | a track's value is the step of its last copy and holds past the end |
| SlotItems.ValueNeverFallsIff | src/items/AP_Progressive.h:54-62 | another copy never makes a track worth less if and only if its steps never fall |
| SlotItems.SendersInOrder | src/AP_Character.cpp:1469-1480 | the heirloom weapon senders are those of the copies, in list order |
| SlotItems.ZonesOfList | src/AP_Character.cpp:1533-1536 | a zone is unlocked if and only if its item is in the list |
| SlotItems.CopyPays | src/AP_Character.cpp:1589-1594 | the k-th food or drink copy mails step k, copies past the end nothing |
| SlotItems.PaymentsOnce | src/AP_Character.cpp:2601-2621 | one reading pays each index at most once and in order |
| SlotItems.PaymentsAll | src/AP_Character.cpp:2601-2621 | one reading leaves no entry's reward out |
| SlotItems.ReplayChangesNothing | src/AP_Character.cpp:1559-1587 | going over a counted entry again leaves counts, senders, zones and glyphs as they are, and the grants too when the ladders agree |
| SlotItems.ReplayNeutralIff | src/AP_Character.cpp:1574-1587 | replaying any entry is neutral for every list if and only if the slot's riding ladders agree |
| SlotItems.CopyAtCount | src/AP_Character.cpp:1568-1572 | every count up to the current one was reached at a copy of the track |
| ItemDelivery.Character.constructor | src/AP_Character.cpp:131-195 | a login keeps the saved rows and has counted nothing of the list |
| ItemDelivery.Character.ReceivedItems | src/AP_Character.cpp:2592-2657 | a packet is judged by the indices it met, rewards item by item, then saves the highest index |
| ItemDelivery.Character.Reward | src/AP_Character.cpp:1440-1627 | one item's branch: its ledger entry on every pass, its payment only if not yet rewarded |
| ItemDelivery.Character.ReceiveWeapon | src/AP_Character.cpp:1469-1490 | a copy counts once with its sender, and on every pass the waiting weapons go out |
| ItemDelivery.Character.ReceiveTrapOf | src/AP_Character.cpp:1775-1789 | a trap joins those waiting, and the row is stored at once unless it can spring |
| ItemDelivery.Character.SpringTraps | src/AP_Character.cpp:1902-1906 | an update that springs some of the waiting traps stores the row, one that springs none does not |
| ItemDelivery.Character.Progress | src/AP_Character.cpp:1559-1597 | a copy counts once, riding grants every rank up to the count, food and drink mail their step |
| ItemDelivery.Character.GrantRanks | src/AP_Character.cpp:1580-1584 | grants exactly the ladder's ranks up to the count |
| ItemDelivery.Character.SendPendingHeirloomWeapons | src/AP_Character.cpp:1306-1328 | mails the waiting weapons in slot order up to the first empty slot and saves if any went |
| ItemDelivery.Character.SetHeirloomWeapon | src/AP_Character.cpp:405-416 | fills an unsent slot with an allowed choice, then sends what waited for it |
| ItemDelivery.Character.StorePreferences | src/AP_Character.cpp:1291-1304 | the preferences row is what the login holds, unless the database refuses it |
| DeliveryRuns.ExactlyOnce | src/AP_Character.cpp:2592-2657 | over any run of any slot, payments are those of one reading up to itemIndex: no index twice, none left out |
| DeliveryRuns.SplitIndependence | src/AP_Character.cpp:2601-2623 | two runs over a list agree on payments, counts, senders, zones and glyphs however it was cut and replayed, and on the granted spells when the ladders agree |
| WeaponRuns.WeaponsInOrderIff | src/AP_Character.cpp:1306-1328 | every weapon mail is a slot's weapon from its copy's sender and none waits behind a filled slot; the mails are slots 0, 1, 2, … in order, and no slot is mailed twice, if and only if no weapon is mailed after a login that ended with one sent but not on record |
| WeaponRuns.FewTrapsRecord | src/AP_Character.cpp:1291-1328 | every login ends with its weapons on record if at most 128 traps ever wait |
| WeaponRuns.WeaponMailedTwice | src/AP_Character.cpp:1291-1328 | a run of 129 traps and a weapon that mails the weapon, refuses its row, and mails it again after the next login |
| LadderRuns.RebuildsIff | src/AP_Character.cpp:1559-1587 | every run that has counted the list holds the ledger of one reading if and only if the slot's riding ladders agree |
| LadderRuns.ReplayRun | src/AP_Character.cpp:2592-2657 | any list sent whole on two connections, and the ledger that leaves |
| LadderRuns.TwoLaddersOvergrant | src/AP_Character.cpp:1574-1587 | a slot whose list, sent whole a second time, grants a rank that reading it once does not |
| DeliveryRuns.StepGrows | src/AP_Character.cpp:2592-2657 | itemIndex, payments and mails never go back, the counted index only with a login |
| DeliveryRuns.RewardItemKeeps | src/AP_Character.cpp:1440-1627 | in the middle of a batch, what is counted and paid is one reading up to the item just handled |
| DeliveryRuns.StepAppends | src/AP_Character.cpp:1306-1328 | between logins weapon mails are only appended, for the next slots not yet sent |
| SlotTables.WhatIsPaid | src/AP_Character.cpp:1440-1627 | what every index of a list is paid, from the slot's tables alone: only the first table that names its item decides, the k-th copy of a food or drink track mails its k-th step, and the sender is the entry's |
| SlotTables.WhatIsLeft | src/AP_Character.cpp:1440-1627 | which counts, zones, glyphs, spells, ranks and the friend teleport a list leaves, likewise |
| SlotTables.SendersByTables | src/AP_Character.cpp:1469-1480 | the weapon senders are the players of the weapon's entries, each at its copy's place |
| SlotTables.RunPays | src/AP_Character.cpp:2592-2657 | over any run of any slot, a reward has been paid if and only if its index is not past itemIndex and the tables owe it |
| SlotTables.BatchDelivers | src/AP_Character.cpp:2592-2657 | a batch that reaches the end of the list leaves everything the list owes paid, and every copy counted |
| WeaponRuns.ChoiceTakes | src/AP_Character.cpp:405-416 | a choice is taken if and only if its slot is the character's and not sent and its weapon is offered; it shows in that slot alone, and on record while at most 128 traps wait |
| WeaponRuns.TrapsWait | src/AP_Character.cpp:1775-1789 | traps that wait grow with those handed out, shrink with those sprung, and are those on record after a login |
| WebSocketClients.WebSocketClient.Connect | src/network/AP_WebSocketClient.cpp:130-150 | starts resolving, once |
| WebSocketClients.WebSocketClient.Send | src/network/AP_WebSocketClient.cpp:152-170 | takes a message only while connected and writes it at once only when nothing is in flight |
| WebSocketClients.WebSocketClient.Close | src/network/AP_WebSocketClient.cpp:172-196 | closes, behind the write in flight if there is one |
| WebSocketClients.WebSocketClient.Stop | src/network/AP_WebSocketClient.cpp:198-215 | shuts the socket and silences the callbacks |
| WebSocketClients.WebSocketClient.OnResolve | src/network/AP_WebSocketClient.cpp:227-245 | goes on to the TCP connection or fails |
| WebSocketClients.WebSocketClient.OnConnect | src/network/AP_WebSocketClient.cpp:247-300 | goes on to the handshake of its scheme or fails |
| WebSocketClients.WebSocketClient.OnSslHandshake | src/network/AP_WebSocketClient.cpp:302-329 | goes on to the WebSocket handshake or fails |
| WebSocketClients.WebSocketClient.OnHandshake | src/network/AP_WebSocketClient.cpp:331-356 | opens and starts reading, or fails |
| WebSocketClients.WebSocketClient.OnRead | src/network/AP_WebSocketClient.cpp:358-392 | hands a message over in whatever state, and ends the connection once |
| WebSocketClients.WebSocketClient.OnWrite | src/network/AP_WebSocketClient.cpp:394-443 | drops the written front, then closes if asked to, or writes the next; a failure ends the connection once |
| WebSocketClients.WebSocketClient.OnClose | src/network/AP_WebSocketClient.cpp:445-466 | ends the connection, with an error first unless it closed cleanly |
| WebSocketClients.WebSocketClient.Fail | src/network/AP_WebSocketClient.cpp:498-527 | goes down with an error and a close, keeping the queue while its front is in flight |
| WebSocketClients.WebSocketClient.DoWrite | src/network/AP_WebSocketClient.cpp:479-487 | starts the one write allowed, of the queue's front |
| WebSocketClients.WebSocketClient.DoClose | src/network/AP_WebSocketClient.cpp:489-496 | starts the close, with no write outstanding |
| WebSocketClients.WebSocketClient.DoRead | src/network/AP_WebSocketClient.cpp:468-477 | starts the one read allowed |
| WebSocket.StepKeeps | src/network/AP_WebSocketClient.cpp:130-527 | every call and completion keeps: one write in flight, its buffer the queue's front, no close over a write, a legal trace |
| WebSocket.SentInOrder | src/network/AP_WebSocketClient.cpp:152-196 | in every interleaving the messages written are a prefix of those accepted, all of them when idle; a requested close is never lost and never overlaps a write |
| WebSocket.BufferStays | src/network/AP_WebSocketClient.cpp:479-487 | nothing but its completion moves the buffer of a write in flight |
| WebSocket.Told | src/network/AP_WebSocketClient.cpp:331-527 | Close is told exactly at the transition to Disconnected, errors right before it, nothing once stopped |
| WebSocket.TraceShape | src/network/AP_WebSocketClient.cpp:331-527 | every trace: Open at most once and first, Close at most once, an error followed at once by Close, only messages after Close |
| SocketRuns.OpensByPlan | src/network/AP_WebSocketClient.cpp:130-356 | what succeeded is always a first part of connect, resolve, TCP, TLS if it is a TLS socket, and handshake, in that order; open sockets have been through all of it, one that has is open unless stopped, and until then the next part is under way |
| SocketRuns.TlsBeforeOpen | src/network/AP_WebSocketClient.cpp:247-329 | a socket that opened shook hands over TLS if and only if it is a TLS one, after its TCP connection and before the WebSocket handshake |
| SocketRuns.AcceptsWhatIsSent | src/network/AP_WebSocketClient.cpp:152-170 | accepted is exactly what was sent while connected, in order; a connected socket always has a read under way |
| SocketRuns.ClosedForGood | src/network/AP_WebSocketClient.cpp:172-196 | asked to close while connected, a socket takes nothing more and never opens again |
| SocketRuns.ClosingWasAsked | src/network/AP_WebSocketClient.cpp:172-196 | and only such a request makes one closing |
| SocketRuns.SilentOnceStopped | src/network/AP_WebSocketClient.cpp:198-215 | nothing is told after a stop |
| ProtocolClient.PollingClient.PollEvents | src/network/AP_Client.cpp:191-262 | one poll of the drained events and clock; a connection stops the old socket and abandons its queue |
| ProtocolClient.PollingClient.Connect | src/network/AP_Client.cpp:807-846 | replaces socket and queue, doubles the interval up to its cap |
| ProtocolClient.PollingClient.Process | src/network/AP_Client.cpp:860-980 | what the commands of a message do to the connection state |
| ProtocolClient.EventQueue.Drain | src/network/AP_Client.cpp:125-131 | hands over everything pushed and leaves nothing |
| ProtocolClient.PollingClient.ConnectBeforeDelivery | src/network/AP_Client.cpp:807-846 | what the replaced socket still delivers goes to the queue it was made with, and the new queue stays empty |
| ProtocolClient.EventsFollow | src/network/AP_Client.cpp:196-246 | however polls cut a socket's trace, the client's state is the one the trace implies |
| ProtocolClient.PollingKeeps | src/network/AP_Client.cpp:191-262 | over every run of polls and sockets the client follows its current socket |
| ProtocolClient.SchemeOfNextAttempt | src/network/AP_Client.cpp:206-261 | the next scheme depends on the trace alone: plaintext after a TLS failure, flipped once after another refusal, kept after anything that opened |
| ProtocolClient.AttemptsSpaced | src/network/AP_Client.cpp:254-261 | the interval stays within 1500 and 15000 ms and attempts keep the shortest one apart, the fallback excepted |
| PollingRuns.AttemptIff | src/network/AP_Client.cpp:254-261 | a poll makes an attempt if and only if there was none yet, or the socket's TLS was refused, or the client is not connected and its interval has passed since the last attempt |
| PollingRuns.IntervalDoubles | src/network/AP_Client.cpp:807-846 | that interval is 1500 ms doubled with every attempt since the last connection that opened, and 15000 at most |
| PollingRuns.StateReached | src/network/AP_Client.cpp:860-980 | while the connection is open the client is slot-connected if and only if a `Connected` came, and else in the room if and only if a `RoomInfo` did |
| ProtocolClient.ComesBackIff | src/network/AP_Client.cpp:219-246 | a client whose connection is gone tries again if and only if no late message welcomed it |
| ProtocolClient.RevivedForGood | src/network/AP_Client.cpp:219-261 | nothing the dead socket still delivers lets such a client reconnect |
| StrandedClient.LateMessageRun | src/network/AP_WebSocketClient.cpp:358-443 | a socket that takes messages only after its first one came, and hands over another after Close |
| StrandedClient.LostConnection | src/network/AP_Client.cpp:219-261 | a first connection that is greeted, welcomed and lost, and leaves the client offline to reconnect |
| StrandedClient.LateWelcomeStrands | src/network/AP_Client.cpp:926-935 | after such a connection, polls over the second socket that strand the client, for any messages that welcome it |
| Shop.ShopList.AddLocation | src/locations/AP_Shop.cpp:14-23 | a location is appended only if it is not listed |
| Shop.ShopList.ReadSlotData | src/AP_Character.cpp:2355-2362 | the slot data's shop, entry by entry |
| Shop.AddAllLists | src/locations/AP_Shop.cpp:14-23 | reading lists exactly what was listed and what was read, and keeps the order so far |
| Shop.AddAllDistinct | src/locations/AP_Shop.cpp:14-23 | no location is listed twice |
| Shop.ReplayKeepsEntries | src/AP_StoneShop.cpp:221-230 | slot data read again leaves every entry standing for the same item |
| Shop.GetTierPrice | src/AP_StoneShop.cpp:342-361 | the price of the last tier reached at the level the goal leaves it at |
| Shop.TierPricesRise | src/AP_StoneShop.cpp:44-61 | tier prices never fall with the level, a level goal never raises one, all fit 32 signed bits |
| Shop.TierReached | src/AP_StoneShop.cpp:342-361 | a tier costs the last row reached, at its own level or six below the goal if that is lower |
| Shop.TierSizeCounts | src/AP_StoneShop.cpp:363-370 | a tier's size is the number of the shop's items of its level |
| Shop.GetPrice | src/AP_StoneShop.cpp:363-370 | an item's share of its tier's price |
| Shop.TierTotal | src/AP_StoneShop.cpp:363-370 | a tier of n items costs more than 3P - n and at most 3P in all |
| LocationChecks.Client.LocationChecks | src/network/AP_Client.cpp:346-368 | off the missing list, then to the socket or into the queue |
| LocationChecks.Client.Connected | src/network/AP_Client.cpp:926-971 | connected with the server's missing list, and the queue emptied into the socket |
| LocationChecks.Database.Select | src/AP_Character.cpp:1337-1349 | every row once, in any order |
| LocationChecks.Character.CheckLocation | src/AP_Character.cpp:2141-2148 | checked in memory, sent or queued, and in the database |
| LocationChecks.Character.CheckLocations | src/AP_Character.cpp:2150-2168 | the same for a list, nothing for an empty one |
| LocationChecks.Character.SyncLocationChecks | src/AP_Character.cpp:1330-1352 | every row is remembered and sent again |
| LocationChecks.Character.OnConnected | src/AP_Character.cpp:2355-2480 | queue, shop and rows, in the order of the handlers |
| LocationChecks.Character.Open | src/AP_StoneShop.cpp:122-170 | lists exactly the entries still on sale, in order, within the vendor's limit |
| LocationChecks.Character.BuyEntry | src/AP_StoneShop.cpp:232-266 | a purchase or one of its four refusals |
| LocationChecks.BoughtOnce | src/AP_StoneShop.cpp:243-248 | what is bought is sold out, and a second purchase from the old window changes nothing |
| CheckRuns.StepKeeps | src/AP_Character.cpp:2141-2168 | memory, queue and what was sent stay within the database; connected, memory is the database |
| CheckRuns.ConnectionSendsAll | src/AP_Character.cpp:1330-1352 | a connection whose socket takes it has sent every row |
| CheckRuns.OutstandingIff | src/network/AP_Client.cpp:346-368 | with nothing outstanding, a step leaves something so if and only if it makes a new check the socket does not take |
| CheckRuns.AtLeastOnce | src/network/AP_Client.cpp:848-971 | a check made at any time has been sent after the next connection whose socket takes it, and stays sent |
| CheckRuns.PaidOnce | src/AP_StoneShop.cpp:232-266 | over all logins no location is paid for twice, and money is what it was, and what came and went outside the shop, less what the shop was paid, never below zero |
| CheckRuns.EntriesStay | src/AP_StoneShop.cpp:221-230 | within a login an entry stands for one item through every reconnection |
| CheckRuns.QueueFlushed | src/network/AP_Client.cpp:346-368 | over any run, what is checked offline waits in the queue, a connection empties the queue into the socket, and what is on record is off the missing list |
| CheckRuns.SaleIff | src/AP_StoneShop.cpp:232-266 | a purchase goes through if and only if its entry is in the window, missing on the server, not remembered as checked, at most of the character's level, and paid for; it takes the price and checks the location |
| CheckRuns.PaidForSale | src/AP_StoneShop.cpp:232-266 | over all logins, whatever was paid for was for sale then, at that price, to a character of its level |
| TrapList.PrintTraps | src/AP_Character.cpp:1293-1297 | the list as numbers between commas |
| TrapList.ParseTraps | src/AP_Character.cpp:1279-1288 | the column read back token by token as `stoul` reads: unknown values skipped, a token without a number refused |
| TrapList.RoundTrip | src/AP_Character.cpp:1279-1297 | printing and parsing gives the same list, for every list |
| TrapList.FitsColumnIff | src/AP_Character.cpp:1293-1302 | the text fits 255 characters if and only if there are at most 128 traps |
| TrapList.NumbersRead | src/AP_Character.cpp:1279-1288 | any column of numbers between commas reads as the traps they are the values of, cut to 32 bits, the rest skipped |
| TrapList.PrintsValues | src/AP_Character.cpp:1293-1297 | a list is saved as the values 1 to 8 of its traps |
| TrapList.RefusedIff | src/AP_Character.cpp:1279-1288 | a login stops if and only if a part of the column has no number |
| TrapQueue.TrapKeeper.ReceiveTrap | src/AP_Character.cpp:1775-1789 | queued behind the others, saved unless it can spring already |
| TrapQueue.TrapKeeper.SpringPendingTraps | src/AP_Character.cpp:1855-1907 | one update: hold, a Teleport alone, or a pass over the rest |
| TrapQueue.TrapKeeper.SpringWaiting | src/AP_Character.cpp:1888-1900 | springs what can in order, bombs only without a run, and keeps the rest in order |
| TrapQueue.TrapKeeper.SavePreferences | src/AP_Character.cpp:1291-1304 | the column is the printed list, or the old one when that is past its 255 characters |
| TrapQueue.TrapKeeper.LoadPreferences | src/AP_Character.cpp:1279-1288 | a login waits on exactly the saved list, or stops on a column that does not parse |
| TrapQueue.TrapsAccountedFor | src/AP_Character.cpp:1855-1907 | over any run, refused saves among it, traps received or loaded a second time are sprung, pending or lost with a session, as multisets; bomb runs never overlap; the column always parses |
| TrapQueue.FittingSavesKeepStep | src/AP_Character.cpp:1279-1304 | while no save holds more than 128 traps none is loaded a second time, pending keeps arrival order, and the column holds the first of them |
| TrapQueue.NothingComesBackIff | data/sql/updates/db_archipelawow/2026_10_15_02.sql:1-2 | nothing is loaded a second time in any run whose saves hold at most so many traps if and only if that is at most 128 |
| TrapQueue.ComesBack | src/AP_Character.cpp:1902-1906 | a run in which a trap springs with 129 others left to save, and waits again after the next login |
| TrapQueue.SessionKeepsAll | src/AP_Character.cpp:1775-1789 | within a session, from any queue and whatever is refused, nothing is lost or comes back and those waiting keep their order |
| TrapQueue.ColumnLoads | src/AP_Character.cpp:1279-1304 | the column always parses, as a list that fits it, and as the first traps that wait if it holds those |
| TrapQueue.TeleportFirstAndAlone | src/AP_Character.cpp:1877-1886 | a Teleport that can spring goes first, alone and once |
| TrapQueue.TeleportHoldsIff | src/AP_Character.cpp:1863-1875 | a teleport holds every trap for three seconds if and only if one was waiting or an earlier hold lasts as long |
| TrapQueue.SpringsEarly | src/AP_Character.cpp:1857-1875 | a trap that springs within three seconds of a teleport nothing waited for |
| TrapSprings.EveryTrapThatCan | src/AP_Character.cpp:1888-1906 | entry by entry: in an update that is neither held nor teleporting a trap goes off if and only if it can and is no Bombs while a run is on or after one of the same pass; the others stay, both in order |
| TrapSprings.NothingGoesOff | src/AP_Character.cpp:1855-1875 | nothing goes off before the slot data, during a teleport or while one holds the traps |
| TrapSprings.TeleportGoes | src/AP_Character.cpp:1877-1886 | the first Teleport goes off alone, leaves the rest in order and holds them three seconds |
| TrapSprings.WaitingSurvives | src/AP_Character.cpp:1775-1789 | a trap that has to wait is found again by the next session, with all before it, while they fit |
| TrapSprings.SprungStaysSprung | src/AP_Character.cpp:1902-1906 | a session that ends after a spring finds the traps it left and no other, while they fit |
| TrapSprings.RunOnIff | src/AP_Character.cpp:229-232 | over any run, a bombardment is on if and only if a Bombs trap went off and its run has not ended or been cut off since |
| BombRun.BombRunState.UpdateBombRun | src/AP_Traps.cpp:531-595 | one update marks, explodes and drops what is due, and says whether the run goes on |
| BombRun.BombRunState.MarkBombs | src/AP_Traps.cpp:540-550 | marks what is due, and leaves numbers and times alone |
| BombRun.BombRunState.ExplodeBombs | src/AP_Traps.cpp:552-565 | what is due explodes, in order, and the rest keeps falling in order |
| BombRun.UpdateKeeps | src/AP_Traps.cpp:531-595 | drops and bombs left stay 40 in all, bombs stay an interval apart, each is marked before it explodes |
| BombRun.AtMostEight | src/AP_Traps.cpp:84-85 | at most eight bombs are live at any time |
| BombRun.InOrder | src/AP_Traps.cpp:552-592 | bombs explode in drop order and marked; a finished run dropped 40, aimed 13, and took its time |
| BombRun.UpdateProgress | src/AP_Traps.cpp:574-594 | no update adds to what is left, and one a fuse later takes from it |
| BombRun.RunEnds | src/AP_Traps.cpp:531-595 | an uncut run whose updates are at most any gap apart is over once the clock passes 40 intervals and gaps and a fuse, however often it is updated |
| BombRun.SparseRunEnds | src/AP_Traps.cpp:531-595 | and updated a fuse or more apart it is over by the eightieth update |
| BombDrops.BombsAreDrops | src/AP_Traps.cpp:574-592 | the bombs of a run are those of its drops that landed, one each and in order, marked 600 and exploding 2000 ms after the drop |
| BombDrops.NumberedIff | src/AP_Traps.cpp:585-588 | drop k brought a bomb if and only if the update that made it landed one |
| BombDrops.DropsIff | src/AP_Traps.cpp:574-592 | an update drops if and only if fewer than 40 were tried and the last one was 250 ms ago or more |
| BombDrops.ExplodesInTime | src/AP_Traps.cpp:540-565 | a bomb falls until its time, marked from its marker's time on, and has exploded from then on |
| BombDrops.AllFortyExplode | src/AP_Traps.cpp:531-595 | a finished uncut run whose drops all landed has exploded 40 bombs, numbers 0 to 39 in order |
| GearPool.TrainingLevel | src/items/AP_GearPool.cpp:425-449 | the level of the first row that covers the character |
| GearPool.AllowedArmorMask | src/items/AP_GearPool.cpp:451-503 | the loop computes the closed form: tiers trained strictly earlier than every stronger one, in reach and not outgrown |
| GearPool.StoodFor | src/items/AP_GearPool.cpp:479-485 | a tier left out is stood for by a stronger one trained no later |
| GearPool.MaskNonEmptyIff | src/items/AP_GearPool.cpp:469-492 | the mask is empty if and only if no usable tier is trained below the ceiling and in reach |
| GearPool.MaskOnlyGetsHeavier | src/items/AP_GearPool.cpp:487-499 | as the level rises neither the lightest nor the heaviest type on offer gets lighter |
| GearPool.CollectWindow | src/items/AP_GearPool.cpp:210-223 | the fitting pieces of the window's levels, in order |
| GearPool.FittingPieces | src/items/AP_GearPool.cpp:216-222 | a level's fitting pieces, in order |
| GearPool.Search.Widenings | src/items/AP_GearPool.cpp:225-231 | the first window that holds five pieces or covers every level; none before it does |
| GearPool.FindCandidates | src/items/AP_GearPool.cpp:197-246 | the search, ended by a measure of what the window has yet to cover |
| GearPool.NothingIff | src/items/AP_GearPool.cpp:201-251 | there is no candidate if and only if no level of the pool holds a fitting piece |
| GearPool.DrawnFrom | src/items/AP_GearPool.cpp:201-246 | candidates fit; above the ceiling only when nothing at or below fits, and then the nearest level; else all of the first wide enough window |
| GearPool.WindowsNest | src/items/AP_GearPool.cpp:230-231 | widening never drops a piece |
| GearPool.GroupBySlot | src/items/AP_GearPool.cpp:259-273 | every match is filed under its own slot, and every slot can be drawn |
| GearPool.Draw | src/items/AP_GearPool.cpp:253-275 | the piece drawn is one of the matches |
| GearPool.Roll | src/items/AP_GearPool.cpp:162-276 | a candidate's item, and nothing if and only if there is no candidate |
| GearRules.FitsIff | src/items/AP_GearPool.cpp:191-195 | a piece fits if and only if none of eight obstacles bars it: class, race, faction, relic, skill, training, armour type, off hand |
| GearRules.MaskIff | src/items/AP_GearPool.cpp:451-503 | an armour type is offered if and only if it can be worn in the run, is trained in reach and earlier than every stronger one that can, and none of those is outgrown |
| GearRules.WindowIs | src/items/AP_GearPool.cpp:207-232 | a window holds the unbarred pieces of its levels, three more down and up with each widening, within the run |
| GearRules.SearchIs | src/items/AP_GearPool.cpp:201-251 | what a search draws from, by what bars a piece: all of the first window that holds five or spans the run, else the nearest level above, and nothing if and only if all are barred |
| GearRules.SearchOfRoll | src/items/AP_GearPool.cpp:162-198 | what a roll searches: up to the goal's level or the server's, around the character's level or that cap, in the types on offer |
| Spells.Container.AddItem | src/items/AP_Spells.cpp:18-28 | the entry under both ids, its taught spells recorded |
| Spells.Container.AddTrainerSpell | src/items/AP_Spells.cpp:30-33 | an entry by spell alone, over any earlier one |
| Spells.ReadAgain | src/AP_Character.cpp:2400-2418 | slot data read again on a reconnection changes nothing |
| Spells.AgreeingIsCoherent | src/items/AP_Spells.cpp:18-33 | slot data whose repeated registrations agree leaves no taught spell unlisted |
| SpellLock.Character.GrantSpell | src/AP_Character.cpp:1062-1098 | a grant, wrappers spell by spell |
| SpellLock.Character.LearnSpell | src/AP_Character.cpp:725-730 | what comes through when the core asks the hook about a spell and then about all it teaches |
| SpellLock.Character.LearnGrantedSpell | src/AP_Character.cpp:1114-1124 | learned with the hook told, which is told no longer afterwards |
| SpellLock.Character.GrantRidingMount | src/AP_Character.cpp:1100-1112 | a mount of the rank unless one is known |
| SpellLock.Character.RemoveSpellIfUngranted | src/AP_Character.cpp:1126-1134 | taken away unless granted |
| SpellLock.Character.RemoveEntry | src/AP_Character.cpp:1149-1156 | an entry's spell and all its taught spells are gone unless granted |
| SpellLock.Character.RemoveUngrantedSpells | src/AP_Character.cpp:1136-1158 | whatever order the entries come in, what they list is gone unless granted, and nothing else |
| SpellLock.GrantGives | src/AP_Character.cpp:1062-1124 | of the seed's spells a grant teaches exactly what it hands over, not the wrapper nor a spell with its own entry, and records it |
| SpellLock.GrantKeepsLock | src/AP_Character.cpp:1062-1124 | a grant keeps the character locked and leaves nothing marked as being granted |
| SpellLock.OutsideIff | src/AP_Character.cpp:725-730 | an outside attempt keeps the lock if and only if it does not bring a withheld spell 0 |
| SpellLock.SpellZeroPasses | src/AP_Character.cpp:725-730 | a character that learns a withheld spell 0 |
| SpellLock.SweepLocksIff | src/AP_Character.cpp:1136-1158 | the sweep locks every character if and only if every taught spell is listed by an entry |
| SpellLock.SweepMisses | src/items/AP_Spells.cpp:18-28 | two items of one wrapper whose sweep leaves a withheld spell known |
| SpellLockRuns.LockHolds | src/AP_Character.cpp:2592-2639 | with sound slot data, from the first batch of a login on the character knows none of the seed's spells but those handed over |
| SpellLockRuns.BatchesHandOver | src/AP_Character.cpp:1549-1557 | with any slot data, after every batch the character knows all that batch handed over, whatever went missing before |
| SpellLockRuns.RunsLockIff | src/AP_Character.cpp:1136-1158 | every run of every character keeps the lock if and only if every taught spell is listed and spell 0 is not withheld |
| SpellOutcomes.WithheldIff | src/items/AP_Spells.cpp:18-64 | a spell is withheld if and only if an entry of the slot data names it |
| SpellOutcomes.HandedOutIs | src/AP_Character.cpp:1062-1098 | what a handover hands out, from the entries: what the last one for the spell teaches, less spells with an entry of their own, or the spell |
| SpellOutcomes.AttemptTeaches | src/AP_Character.cpp:725-730 | over any run, an attempt from outside teaches its spell if and only if no entry names it or it is spell 0 |
| SpellOutcomes.OwnSpellsStay | src/AP_Character.cpp:1136-1158 | over any run, no grant, sweep, connection or login takes a spell that no entry names |
| SpellOutcomes.HandedOverStays | src/AP_Character.cpp:1126-1134 | over any run, what a login handed over stays through its sweeps |
| SpellOutcomes.MountIff | src/AP_Character.cpp:1100-1112 | a mount of the rank is known afterwards if and only if one was or the one drawn is let past; never a second one |
| SpellOutcomes.RidersAreMounted | src/AP_Character.cpp:1574-1587 | over any run, after a batch the character knows a mount of every rank handed over whose mounts are not withheld |
| ColorCodes.PrefixFree | src/AP_Character.cpp:2731-2743 | no terminal code begins with another, so the map's order does not matter |
| ColorCodes.GameCodeIs | src/AP_Character.cpp:2730-2743 | each code of the map reads as the colour it stands for, among all the game's codes of eight digits |
| ColorCodes.HuesDiffer | src/AP_Character.cpp:2731-2743 | the eleven colours stay apart in the game |
| ColorCodes.PaintText | src/network/AP_Client.cpp:1168-1171 | text without the dialect's mark shows letter by letter in the current colour |
| Rendering.RenderJson | src/network/AP_Client.cpp:702-784 | the loop with its flag renders what the spans say, or the plain text |
| Rendering.RenderingShows | src/network/AP_Client.cpp:757-781 | read back, the rendering shows every letter in its part's colour and ends uncoloured |
| Rendering.PartColor | src/network/AP_Client.cpp:709-755 | a hint's status sets its colour, else the part's own, else its kind's; only plain text that asks for none is uncoloured |
| Rendering.SameLetters | src/network/AP_Client.cpp:757-775 | both formats show the same letters, but for escapes |
| Rendering.ConvertANSIColoredString | src/AP_Character.cpp:2728-2771 | every terminal code replaced, the rest kept, whatever order the map is searched in |
| Rendering.FindCode | src/AP_Character.cpp:2752-2761 | finds the one code the string begins with, if any |
| Rendering.ConvertedIsDirect | src/AP_Character.cpp:2728-2771 | rendering and converting is rendering with the game's codes directly |
| Rendering.NoEscapeLeft | src/AP_Character.cpp:2676-2678 | no escape character reaches the chat |
| Rendering.ChatLine | src/AP_Character.cpp:2676-2678 | the line sent is the direct rendering, without escapes |
| GameColors.PictureKeptIff | src/AP_Character.cpp:2728-2771 | for every string, converting keeps letters and colours if and only if it holds no colour code of the game, of any eight digits |
| GameColors.ChatShowsIff | src/AP_Character.cpp:2676-2678 | for every message, the chat shows each letter in its part's colour if and only if the rendering holds no colour code of the game, of any eight digits |
| GameColors.TextCanBreakColor | src/network/AP_Client.cpp:1168-1171 | any text that starts with a colour code of the game breaks its message |
| GameColors.CodesThatBreak | src/AP_Character.cpp:1852-1852 | the reset code and the module's own trap colour are such codes, in either case; seven digits are not |
| ChatParts.ItemLine | src/network/AP_Client.cpp:724-735 | an item's chat line: the item's name in its owner's game, plum, slate blue, salmon or cyan by its flags, to the last character |
| ChatParts.LocationLine | src/network/AP_Client.cpp:736-741 | a location's, from the locations' names, in blue |
| ChatParts.PlayerLine | src/network/AP_Client.cpp:717-723 | a player's, by the alias of the slot in the room's team, magenta for this slot and its groups, yellow for others |
| ChatParts.HintLine | src/network/AP_Client.cpp:742-752 | a hint's status, in the colour of the status alone |
| ChatParts.NameFrom | src/network/AP_Client.cpp:612-650 | a name comes from the game's table, else the common one, else it is unknown |
| ChatParts.IdReads | src/network/AP_Client.cpp:74-79 | an id written in decimal is read back, negative ones too |
| Experience.Character.GiveArchipelagoExperience | src/AP_Character.cpp:1650-1676 | the loop reaches the carried level and remainder and checks the levels passed, in order |
| Experience.CarryKeeps | src/AP_Character.cpp:1661-1673 | the loop conserves experience and ends below the next requirement or at a level without one |
| Experience.ReachedIff | src/AP_Character.cpp:1661-1673 | a level is reached if and only if every level before it has a requirement and the experience covers them all |
| Experience.ConservedIff | src/AP_Character.cpp:1659-1673 | a gain is conserved if and only if adding it does not pass 32 bits |
| Experience.OverflowLoses | src/AP_Character.cpp:1659-1659 | a gain that empties the bar |
| Experience.GiveInParts | src/AP_Character.cpp:1650-1676 | a then b is a plus b, when together they fit |
| Experience.PartsIff | src/AP_Character.cpp:1650-1676 | two parts come out as the whole if and only if they pass 32 bits as often |
| Experience.OnlyTheSumMatters | src/AP_Character.cpp:1650-1676 | over any gains that fit together only their sum matters |
| Experience.ChecksOnce | src/AP_Character.cpp:1666-1670 | over any gains the checks made are those of the levels passed, each once and in order |
| Experience.ChecksOfLevels | src/AP_Character.cpp:1666-1670 | over any gains, each check is the location of a level gained: not the first level, but the last, each at its place |

## Left out

Modelled with assumptions:

- Batches are contiguous slices of the list without a gap, sessions end between batches, and a database
  write is done or not done as a whole.
- A preferences row past its width is refused, as a strict MySQL does; one that cut the text short would
  keep the first 128 traps. `DeliveryRuns` counts the traps that wait; their kinds and order are
  `TrapQueue`'s.
- `WebSocket` models one `Connect` per socket, as `ConnectSocket` makes, and a write started on a closed
  socket only fails. A server name that TLS refuses counts as a failed TCP connection of the SSL category,
  which the handler treats the same.
- `Client::Reset`, used when the character drops its client, is not part of the polling model.
- Slot data that is refused ends the login with the poll that read it; items handled later in that poll
  are not modelled.
- ItemDelivery.Character.Reward: the mail of an heirloom names the item received, not the piece the
  preference picks; zone keys are not handed out; a gear roll is one payment whether or not it finds a piece.
- ProtocolClient.PollingClient.Process: only `RoomInfo` and `Connected` change the connection state, and
  what their handlers call is not modelled; JSON parsing and malformed commands are a function from the
  text to its commands.
- TrapQueue.TrapsAccountedFor: a trap that could spring when it came is not saved at once, so a session
  that ends before its update loses it; the theorem counts it as lost.
- SpellLock.Character.RemoveSpellIfUngranted: takes the one spell; the higher ranks the core's
  `removeSpell` takes along are not modelled, nor spells the core teaches without asking the hook.
  `SpellLockRuns.BatchesHandOver`, `SpellOutcomes.OwnSpellsStay` and `SpellOutcomes.HandedOverStays`
  therefore read as if no spell that stays were a higher rank of one the sweep takes.
- Experience.Character.GiveArchipelagoExperience: the table stops below 256 levels, as the core's does.
- GearPool.Roll: quality and category pick a bucket before the search; the bucket has one list per level
  up to the server's cap, as `Build` makes it. `Build`, `CategoryOf` and the data files are left out.
- GearPool.Draw: random draws are any choice the weights allow; the weights' proportions are not modelled.
- LocationChecks.Character.CheckLocations: location ids keep their value, where the source narrows them
  to 32 bits; its callers build the list from 32-bit ids.
- Rendering.RenderJson: the lookups of names take the last received players and data package as given.
- GameColors.PictureKeptIff: as for `GameColors.ChatShowsIff`.
- GameColors.ChatShowsIff: reads the game's colour codes alone. Its other bar escapes, the doubled bar,
  links (`|H`, `|h`), textures (`|T`, `|t`), the line break `|n`, the grammar forms `|1` to `|4` and the
  protected names `|K`, `|k`, count as letters.

Not modelled: glyph use, mail and gossip, the buffs' timing, where bombs and ambushers land and what they
hit, hints and status updates, the stone's mailbox, configuration, SQL and migrations, TLS certificates,
the data package cache, slot binding across characters, and the script hooks, which dispatch in one branch.
