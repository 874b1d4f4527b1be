/** From a message's parts to the game's chat: the protocol client renders them with terminal colour
    codes, the character replaces those with the game's. */
module Rendering {
  import opened ColorCodes
  import opened Digits
  import opened Options

  datatype TextNode = TextNode(kind: string, color: string, text: string, player: int, flags: nat, hintStatus: nat)

  datatype Player = Player(team: int, slot: int, alias: string)
  datatype Slot = Slot(game: string, members: seq<int>)

  /** What the client knows of the room. */
  datatype Room = Room(team: int, slot: int, players: seq<Player>, slots: map<int, Slot>,
                       items: map<string, map<int, string>>, locations: map<string, map<int, string>>)

  const FLAG_ADVANCEMENT := 1
  const FLAG_NEVER_EXCLUDE := 2
  const FLAG_TRAP := 4
  const HINT_UNSPECIFIED := 0
  const HINT_NO_PRIORITY := 10
  const HINT_AVOID := 20
  const HINT_PRIORITY := 30
  const HINT_FOUND := 40

  // ----- What a part says -----

  /** The number at the start of the text, or -1 without one that fits 64 bits. */
  function ParseId(text: string): int {
    var negative := |text| > 0 && text[0] == '-';
    var digits := if negative then text[1..] else text;
    if |digits| == 0 || !IsDigit(digits[0]) then -1
    else
      var value: int := if negative then 0 - NumberFrom(0, digits) else NumberFrom(0, digits);
      if -0x8000_0000_0000_0000 <= value < 0x8000_0000_0000_0000 then value else -1
  }

  function ToInt32(n: int): int {
    (n + 0x8000_0000) % 0x1_0000_0000 - 0x8000_0000
  }

  predicate HasFlag(flags: nat, flag: nat)
    requires flag > 0
  {
    flags / flag % 2 == 1
  }

  function AliasAmong(players: seq<Player>, team: int, slot: int): string {
    if |players| == 0 then "Unknown"
    else if players[0].team == team && players[0].slot == slot then players[0].alias
    else AliasAmong(players[1..], team, slot)
  }

  function PlayerAlias(room: Room, slot: int): string {
    if slot == 0 then "Server" else AliasAmong(room.players, room.team, slot)
  }

  function PlayerGame(room: Room, player: int): string {
    if player == 0 then "Archipelago" else if player in room.slots then room.slots[player].game else ""
  }

  function NameOf(names: map<string, map<int, string>>, id: int, game: string): string {
    if game in names && id in names[game] then names[game][id]
    else if "Archipelago" in names && id in names["Archipelago"] then names["Archipelago"][id]
    else "Unknown"
  }

  predicate ConcernsSelf(room: Room, slot: int) {
    slot == room.slot || (slot in room.slots && room.slot in room.slots[slot].members)
  }

  /** A part's text and the name of its colour, "" for none. */
  datatype Span = Span(color: string, text: string)

  function Resolve(room: Room, node: TextNode, colored: bool): Span {
    var color := if colored then node.color else "";
    if node.kind == "player_id" then
      var id := ToInt32(ParseId(node.text));
      Span(if color != "" then color else if ConcernsSelf(room, id) then "magenta" else "yellow", PlayerAlias(room, id))
    else if node.kind == "item_id" then
      var chosen :=
        if color != "" then color
        else if HasFlag(node.flags, FLAG_ADVANCEMENT) then "plum"
        else if HasFlag(node.flags, FLAG_NEVER_EXCLUDE) then "slateblue"
        else if HasFlag(node.flags, FLAG_TRAP) then "salmon"
        else "cyan";
      Span(chosen, NameOf(room.items, ParseId(node.text), PlayerGame(room, node.player)))
    else if node.kind == "location_id" then
      Span(if color != "" then color else "blue",
           NameOf(room.locations, ParseId(node.text), PlayerGame(room, node.player)))
    else if node.kind == "hint_status" then
      Span(StatusColor(node.hintStatus), node.text)
    else Span(color, node.text)
  }

  /** A hint's status sets the colour whatever the part asked for. */
  function StatusColor(status: nat): string {
    if status == HINT_FOUND then "green"
    else if status == HINT_UNSPECIFIED then "grey"
    else if status == HINT_NO_PRIORITY then "slateblue"
    else if status == HINT_AVOID then "salmon"
    else if status == HINT_PRIORITY then "plum"
    else "red"
  }

  /** Names the client does not know reset the colour. */
  function ColourNamed(name: string): Colour {
    if name == "red" then Red
    else if name == "green" then Green
    else if name == "yellow" then Yellow
    else if name == "blue" then Blue
    else if name == "magenta" then Magenta
    else if name == "cyan" then Cyan
    else if name == "plum" then Plum
    else if name == "slateblue" then SlateBlue
    else if name == "salmon" then Salmon
    else if name == "gray" || name == "grey" then Gray
    else Off
  }

  function Deansify(text: string): string {
    seq(|text|, i requires 0 <= i < |text| => if text[i] == ESC then ' ' else text[i])
  }

  // ----- Rendering -----

  function Lead(d: Dialect, color: string, colorIsSet: bool): string {
    if color != "" then Code(d, ColourNamed(color)) else if colorIsSet then Code(d, Off) else ""
  }

  /** Rendering straight into a dialect's codes. */
  function Render(d: Dialect, spans: seq<Span>, colorIsSet: bool): string {
    if |spans| == 0 then (if colorIsSet then Code(d, Off) else "")
    else Lead(d, spans[0].color, colorIsSet) + Deansify(spans[0].text) + Render(d, spans[1..], spans[0].color != "")
  }

  function Plain(spans: seq<Span>): string {
    if |spans| == 0 then "" else spans[0].text + Plain(spans[1..])
  }

  function Resolved(room: Room, nodes: seq<TextNode>, colored: bool): seq<Span> {
    seq(|nodes|, i requires 0 <= i < |nodes| => Resolve(room, nodes[i], colored))
  }

  lemma RenderFrom(d: Dialect, spans: seq<Span>, i: nat, colorIsSet: bool)
    requires i < |spans|
    ensures Render(d, spans[i..], colorIsSet) ==
            Lead(d, spans[i].color, colorIsSet) + Deansify(spans[i].text) + Render(d, spans[i + 1..],
              spans[i].color != "")
  {
    assert spans[i..][1..] == spans[i + 1..];
  }

  lemma RenderNothing(d: Dialect, colorIsSet: bool)
    ensures Render(d, [], colorIsSet) == if colorIsSet then Code(d, Off) else ""
  {
  }

  /** `colored` is the Ansi format, the other one is plain text. */
  method RenderJson(room: Room, nodes: seq<TextNode>, colored: bool) returns (out: string)
    ensures var spans := Resolved(room, nodes, colored);
            out == if colored then Render(Ansi, spans, false) else Plain(spans)
  {
    hide Resolve, Code, Deansify, ColourNamed, Render;
    out := "";
    var colorIsSet := false;
    ghost var spans := Resolved(room, nodes, colored);
    for i := 0 to |nodes|
      invariant colored ==> Render(Ansi, spans, false) == out + Render(Ansi, spans[i..], colorIsSet)
      invariant !colored ==> out + Plain(spans[i..]) == Plain(spans) && !colorIsSet
    {
      var span := Resolve(room, nodes[i], colored);
      ghost var was, lead := out, Lead(Ansi, span.color, colorIsSet);
      RenderFrom(Ansi, spans, i, colorIsSet);
      assert spans[i..][0] == span && spans[i..][1..] == spans[i + 1..];
      if colored {
        if span.color == "" && colorIsSet {
          out := out + Code(Ansi, Off);
          colorIsSet := false;
        } else if span.color != "" {
          out := out + Code(Ansi, ColourNamed(span.color));
          colorIsSet := true;
        }
        out := out + Deansify(span.text);
        assert colorIsSet == (span.color != "") && out == was + (lead + Deansify(span.text));
        ghost var rest := Render(Ansi, spans[i + 1..], colorIsSet);
        assert was + (lead + Deansify(span.text) + rest) == out + rest;
      } else {
        out := out + span.text;
      }
    }
    RenderNothing(Ansi, colorIsSet);
    if colored && colorIsSet {
      out := out + Code(Ansi, Off);
    }
  }

  /** What the message shows: every letter of every part, in the part's colour. */
  function Shown(spans: seq<Span>): seq<Cell> {
    if |spans| == 0 then []
    else Cells(Deansify(spans[0].text), HueOf(ColourNamed(spans[0].color))) + Shown(spans[1..])
  }

  /** What a part adds in front of the rest: its code, unless it has no colour and none is on. */
  lemma RenderShape(d: Dialect, spans: seq<Span>, colorIsSet: bool)
    requires |spans| > 0
    ensures var tail := Deansify(spans[0].text) + Render(d, spans[1..], spans[0].color != "");
            Render(d, spans, colorIsSet) ==
            if spans[0].color != "" || colorIsSet then Code(d, ColourNamed(spans[0].color)) + tail else tail
  {
    hide Code, Deansify;
    NamedNothing();
    var lead, text, rest := Lead(d, spans[0].color, colorIsSet), Deansify(spans[0].text),
      Render(d, spans[1..], spans[0].color != "");
    assert lead + text + rest == lead + (text + rest);
    assert "" + (text + rest) == text + rest;
  }

  lemma {:induction false} RenderingShows(spans: seq<Span>, colorIsSet: bool, current: Hue)
    requires colorIsSet || current == Uncoloured
    ensures Paint(Ansi, Render(Ansi, spans, colorIsSet), current) == Picture(Shown(spans), Uncoloured)
  {
    hide Code, Paint, ColourNamed, Cells, Deansify, Render;
    NamedNothing();
    if |spans| == 0 {
      RenderNothing(Ansi, colorIsSet);
      EmptyPaint(current);
      EmptyPaint(Uncoloured);
      PaintCode(Ansi, Off, "", current);
      assert Code(Ansi, Off) + "" == Code(Ansi, Off);
      assert spans == [];
    } else {
      var colour, rest := ColourNamed(spans[0].color), Render(Ansi, spans[1..], spans[0].color != "");
      var text := Deansify(spans[0].text);
      NoEscape(spans[0].text);
      RenderingShows(spans[1..], spans[0].color != "", HueOf(colour));
      RenderShape(Ansi, spans, colorIsSet);
      PaintText(Ansi, text, rest, HueOf(colour));
      PaintCode(Ansi, colour, text + rest, current);
    }
  }

  lemma NoEscape(text: string)
    ensures ESC !in Deansify(text)
  {
  }

  lemma NamedNothing()
    ensures ColourNamed("") == Off
  {
  }

  lemma EmptyPaint(current: Hue)
    ensures Paint(Ansi, "", current) == Picture([], current)
  {
  }

  /** Where a part's colour comes from: a hint's status, then what the part asks for, then its kind;
      only plain text that asks for none goes uncoloured. The text does not depend on the format. */
  lemma PartColor(room: Room, node: TextNode)
    ensures var span := Resolve(room, node, true);
            && (node.kind == "hint_status" ==> Resolve(room, node.(color := ""), true) == span)
            && (node.kind != "hint_status" && node.color != "" ==> span.color == node.color)
            && (span.color == "" <==>
                  node.color == "" && node.kind !in {"player_id", "item_id", "location_id", "hint_status"})
            && (node.color == "" && node.kind == "player_id" ==>
                  (span.color == "magenta" <==> ConcernsSelf(room, ToInt32(ParseId(node.text)))))
            && Resolve(room, node, false).text == span.text
  {
    hide ParseId, ToInt32, ConcernsSelf, PlayerAlias, NameOf;
  }

  function Letters(cells: seq<Cell>): string {
    seq(|cells|, i requires 0 <= i < |cells| => cells[i].letter)
  }

  lemma LettersJoin(text: string, hue: Hue, rest: seq<Cell>)
    ensures Letters(Cells(text, hue) + rest) == text + Letters(rest)
  {
  }

  lemma DeansifyJoin(a: string, b: string)
    ensures Deansify(a + b) == Deansify(a) + Deansify(b)
  {
  }

  lemma {:induction false} LettersOf(spans: seq<Span>, plain: seq<Span>)
    requires |spans| == |plain| && forall i :: 0 <= i < |spans| ==> spans[i].text == plain[i].text
    ensures Letters(Shown(spans)) == Deansify(Plain(plain))
  {
    hide ColourNamed, Cells;
    if |spans| > 0 {
      hide Letters, Deansify;
      LettersOf(spans[1..], plain[1..]);
      LettersJoin(Deansify(spans[0].text), HueOf(ColourNamed(spans[0].color)), Shown(spans[1..]));
      DeansifyJoin(spans[0].text, Plain(plain[1..]));
    }
  }

  /** Both formats show the same letters, but for escapes. */
  lemma SameLetters(room: Room, nodes: seq<TextNode>)
    ensures Letters(Shown(Resolved(room, nodes, true))) == Deansify(Plain(Resolved(room, nodes, false)))
  {
    hide Resolve, Letters, Shown, Plain, Deansify;
    forall i | 0 <= i < |nodes| ensures Resolve(room, nodes[i], true).text == Resolve(room, nodes[i], false).text {
      PartColor(room, nodes[i]);
    }
    LettersOf(Resolved(room, nodes, true), Resolved(room, nodes, false));
  }

  // ----- The game's codes -----

  /** Every terminal code replaced by the game's, the rest left as it is. */
  ghost function Translate(s: string): string
    decreases |s|
  {
    if |s| == 0 then ""
    else
      match Match(s)
      case Some(c) => Code(Game, c) + Translate(s[|Code(Ansi, c)|..])
      case None => [s[0]] + Translate(s[1..])
  }

  const COLOURS: set<Colour> := {Red, Green, Yellow, Blue, Magenta, Cyan, Plum, SlateBlue, Salmon, Gray, Off}

  lemma AllColours()
    ensures forall c: Colour :: c in COLOURS
  {
    forall c: Colour ensures c in COLOURS {
      match c
      case Red | Green | Yellow | Blue | Magenta | Cyan | Plum | SlateBlue | Salmon | Gray | Off =>
    }
  }

  /** The map of codes is searched in whatever order it keeps them. */
  method FindCode(str: string, i: nat) returns (r: Option<Colour>)
    requires i <= |str|
    ensures r == Match(str[i..])
  {
    hide Code;
    var left := COLOURS;
    while left != {}
      invariant left <= COLOURS
      invariant forall c :: c in COLOURS && c !in left ==> !(Code(Ansi, c) <= str[i..])
      decreases |left|
    {
      var c :| c in left;
      left := left - {c};
      if Code(Ansi, c) <= str[i..] {
        PrefixFree(str[i..], c, Match(str[i..]).value);
        return Some(c);
      }
    }
    AllColours();
    r := None;
  }

  lemma TranslateFrom(str: string, i: nat)
    requires i < |str|
    ensures var found := Match(str[i..]);
            && (found.Some? ==> i + |Code(Ansi, found.value)| <= |str|)
            && Translate(str[i..]) ==
               if found.Some? then Code(Game, found.value) + Translate(str[i + |Code(Ansi, found.value)|..])
                 else [str[i]] + Translate(str[i + 1..])
  {
    hide Code, Match;
    var rest, found := str[i..], Match(str[i..]);
    if found.Some? {
      assert rest[|Code(Ansi, found.value)|..] == str[i + |Code(Ansi, found.value)|..];
    } else {
      assert rest[1..] == str[i + 1..];
    }
  }

  method ConvertANSIColoredString(str: string) returns (result: string)
    ensures result == Translate(str)
  {
    hide Code, Match, Translate;
    result := "";
    var i := 0;
    assert str[0..] == str;
    while i < |str|
      invariant i <= |str| && result + Translate(str[i..]) == Translate(str)
    {
      TranslateFrom(str, i);
      var matched := FindCode(str, i);
      match matched
      case Some(c) =>
        result := result + Code(Game, c);
        i := i + |Code(Ansi, c)|;
      case None =>
        result := result + [str[i]];
        i := i + 1;
    }
    TranslateNothing();
    assert str[i..] == "" && result + "" == result;
  }

  lemma TranslateCode(c: Colour, rest: string)
    ensures Translate(Code(Ansi, c) + rest) == Code(Game, c) + Translate(rest)
  {
    hide Code;
    MatchIs(c, rest);
  }

  lemma {:induction false} TranslateText(text: string, rest: string)
    requires ESC !in text
    ensures Translate(text + rest) == text + Translate(rest)
  {
    hide Code, Match;
    if |text| == 0 {
      assert text + rest == rest;
    } else {
      var s := text + rest;
      NoMarkNoCode(Ansi, s);
      assert s[0] == text[0] && s[1..] == text[1..] + rest;
      TranslateText(text[1..], rest);
      assert [text[0]] + (text[1..] + Translate(rest)) == text + Translate(rest);
    }
  }

  /** Rendering for the terminal and converting is rendering with the game's codes in the first place. */
  lemma {:induction false} ConvertedIsDirect(spans: seq<Span>, colorIsSet: bool)
    ensures Translate(Render(Ansi, spans, colorIsSet)) == Render(Game, spans, colorIsSet)
  {
    hide Code, Translate, ColourNamed, Deansify, Render;
    if |spans| == 0 {
      RenderNothing(Ansi, colorIsSet);
      RenderNothing(Game, colorIsSet);
      TranslateNothing();
      TranslateCode(Off, "");
      assert Code(Ansi, Off) + "" == Code(Ansi, Off) && Code(Game, Off) + "" == Code(Game, Off);
      assert spans == [];
    } else {
      var set', text := spans[0].color != "", Deansify(spans[0].text);
      var rest := Render(Ansi, spans[1..], set');
      ConvertedIsDirect(spans[1..], set');
      NoEscape(spans[0].text);
      TranslateText(text, rest);
      TranslateCode(ColourNamed(spans[0].color), text + rest);
      RenderShape(Ansi, spans, colorIsSet);
      RenderShape(Game, spans, colorIsSet);
    }
  }

  lemma TranslateNothing()
    ensures Translate("") == ""
  {
  }

  /** No terminal code and no stray escape reaches the chat. */
  lemma {:induction false} NoEscapeLeft(spans: seq<Span>, colorIsSet: bool)
    ensures ESC !in Translate(Render(Ansi, spans, colorIsSet))
  {
    hide Code, Translate, ColourNamed;
    ConvertedIsDirect(spans, colorIsSet);
    forall c ensures ESC !in Code(Game, c) {
      CodeShape(Game, c);
    }
    if |spans| > 0 {
      NoEscapeLeft(spans[1..], spans[0].color != "");
      ConvertedIsDirect(spans[1..], spans[0].color != "");
    }
  }

  /** What is sent to the chat for a message. */
  method ChatLine(room: Room, nodes: seq<TextNode>) returns (str: string)
    ensures str == Render(Game, Resolved(room, nodes, true), false) && ESC !in str
  {
    str := RenderJson(room, nodes, true);
    ConvertedIsDirect(Resolved(room, nodes, true), false);
    NoEscapeLeft(Resolved(room, nodes, true), false);
    str := ConvertANSIColoredString(str);
  }
}
