/** What each kind of part says in the game's chat, from the room's tables to the codes and letters of
    the line that is sent. */
module ChatParts {
  import opened ColorCodes
  import opened Digits
  import opened Rendering

  /** The chat line of a message of one part. */
  ghost function LineOf(room: Room, node: TextNode): string {
    Translate(Render(Ansi, Resolved(room, [node], true), false))
  }

  lemma OnePart(room: Room, node: TextNode)
    ensures var span := Resolve(room, node, true);
            LineOf(room, node) == if span.color == "" then Deansify(span.text)
                                  else Code(Game, ColourNamed(span.color)) + Deansify(span.text) + "|r"
  {
    hide Resolve, Code, ColourNamed, Translate, Deansify;
    var span := Resolve(room, node, true);
    assert Resolved(room, [node], true) == [span];
    ConvertedIsDirect([span], false);
    RenderFrom(Game, [span], 0, false);
    RenderNothing(Game, span.color != "");
    assert [span][0..] == [span] && [span][1..] == [];
    assert "" + Deansify(span.text) + "" == Deansify(span.text);
    ResetCode();
  }

  lemma ResetCode()
    ensures Code(Game, Off) == "|r"
  {
  }

  lemma KindCodes()
    ensures Code(Game, ColourNamed("plum")) == "|cFFFF77FF" && Code(Game, ColourNamed("slateblue")) == "|cFF5F5FD7"
    ensures Code(Game, ColourNamed("salmon")) == "|cFFFF8787" && Code(Game, ColourNamed("cyan")) == "|cFF00FFFF"
    ensures Code(Game, ColourNamed("blue")) == "|cFF0050FF"
  {
  }

  lemma OtherCodes()
    ensures Code(Game, ColourNamed("magenta")) == "|cFFFF00FF" && Code(Game, ColourNamed("yellow")) == "|cFFFFF380"
    ensures Code(Game, ColourNamed("green")) == "|cFF00FF00" && Code(Game, ColourNamed("grey")) == "|cFF808080"
    ensures Code(Game, ColourNamed("red")) == "|cFFFF0000"
  {
  }

  // ----- Numbers -----

  /** An id written out in decimal is read back, negative ones too. */
  lemma IdReads(n: nat)
    requires n < 0x8000_0000_0000_0000
    ensures ParseId(Decimal(n)) == n && ParseId("-" + Decimal(n)) == 0 - n
  {
    hide NumberFrom, Decimal;
    DecimalReads(n);
    assert ("-" + Decimal(n))[1..] == Decimal(n);
  }

  // ----- The kinds of parts -----

  /** Where a name comes from: the table of the game, else the common one, else nowhere. */
  lemma NameFrom(names: map<string, map<int, string>>, id: int, game: string)
    ensures game in names && id in names[game] ==> NameOf(names, id, game) == names[game][id]
    ensures !(game in names && id in names[game]) && "Archipelago" in names && id in names["Archipelago"] ==>
              NameOf(names, id, game) == names["Archipelago"][id]
    ensures (game in names ==> id !in names[game]) && ("Archipelago" in names ==> id !in names["Archipelago"]) ==>
              NameOf(names, id, game) == "Unknown"
  {
  }

  /** The game of a part's owner: the server's own for player 0, else the game of the player's slot. */
  predicate OwnedBy(room: Room, player: int, game: string) {
    && (player == 0 ==> game == "Archipelago")
    && (player != 0 && player in room.slots ==> game == room.slots[player].game)
    && (player != 0 && player !in room.slots ==> game == "")
  }

  /** An item's part is the item's name in its owner's game: plum for an item that advances, slate blue for a
      useful one, salmon for a trap, and cyan for any other. */
  lemma ItemLine(room: Room, node: TextNode, game: string, id: int)
    requires node.kind == "item_id" && node.color == "" && ParseId(node.text) == id
    requires OwnedBy(room, node.player, game)
    ensures LineOf(room, node) ==
            (if node.flags % 2 == 1 then "|cFFFF77FF"
             else if node.flags / 2 % 2 == 1 then "|cFF5F5FD7"
             else if node.flags / 4 % 2 == 1 then "|cFFFF8787"
             else "|cFF00FFFF") + Deansify(NameOf(room.items, id, game)) + "|r"
  {
    hide Code, ColourNamed, Deansify, ParseId, LineOf, NameOf;
    OnePart(room, node);
    KindCodes();
  }

  /** A location's part is the location's name in its owner's game, in blue. */
  lemma LocationLine(room: Room, node: TextNode, game: string, id: int)
    requires node.kind == "location_id" && node.color == "" && ParseId(node.text) == id
    requires OwnedBy(room, node.player, game)
    ensures LineOf(room, node) == "|cFF0050FF" + Deansify(NameOf(room.locations, id, game)) + "|r"
  {
    hide Code, ColourNamed, Deansify, ParseId, LineOf, NameOf;
    OnePart(room, node);
    KindCodes();
  }

  /** A player's part is the alias of the player of that slot in the room's team, magenta for this slot and
      the groups it is in, yellow for the others. */
  lemma PlayerLine(room: Room, node: TextNode, slot: nat, k: nat)
    requires node.kind == "player_id" && node.color == "" && ParseId(node.text) == slot
    requires 0 < slot < 0x8000_0000 && k < |room.players|
    requires room.players[k].team == room.team && room.players[k].slot == slot
    requires forall j :: 0 <= j < k ==> room.players[j].team != room.team || room.players[j].slot != slot
    ensures var own := slot == room.slot || (slot in room.slots && room.slot in room.slots[slot].members);
            LineOf(room, node) == (if own then "|cFFFF00FF" else "|cFFFFF380") + Deansify(room.players[k].alias) + "|r"
  {
    hide Code, ColourNamed, Deansify, ParseId, LineOf, AliasAmong;
    OnePart(room, node);
    FirstAlias(room.players, room.team, slot, k);
    OtherCodes();
  }

  lemma {:induction false} FirstAlias(players: seq<Player>, team: int, slot: int, k: nat)
    requires k < |players| && players[k].team == team && players[k].slot == slot
    requires forall j :: 0 <= j < k ==> players[j].team != team || players[j].slot != slot
    ensures AliasAmong(players, team, slot) == players[k].alias
    decreases k
  {
    if k > 0 {
      FirstAlias(players[1..], team, slot, k - 1);
    }
  }

  /** A hint's status says its own text, in the colour of the status, whatever colour the part asks for. */
  lemma HintLine(room: Room, node: TextNode)
    requires node.kind == "hint_status"
    ensures LineOf(room, node) ==
            (match node.hintStatus
             case 0 => "|cFF808080"
             case 10 => "|cFF5F5FD7"
             case 20 => "|cFFFF8787"
             case 30 => "|cFFFF77FF"
             case 40 => "|cFF00FF00"
             case _ => "|cFFFF0000") + Deansify(node.text) + "|r"
  {
    hide Code, ColourNamed, Deansify, LineOf;
    OnePart(room, node);
    KindCodes();
    OtherCodes();
  }

  /** Any other part that asks for no colour is its text alone. */
  lemma PlainLine(room: Room, node: TextNode)
    requires node.kind !in {"player_id", "item_id", "location_id", "hint_status"} && node.color == ""
    ensures LineOf(room, node) == Deansify(node.text)
  {
    hide Code, ColourNamed, Deansify, LineOf;
    OnePart(room, node);
  }
}
