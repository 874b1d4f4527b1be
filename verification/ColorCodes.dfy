/** The colour codes of a rendered message: the terminal's, which the protocol client writes, and the
    game's, which the character turns them into. */
module ColorCodes {
  import opened Options

  datatype Colour = Red | Green | Yellow | Blue | Magenta | Cyan | Plum | SlateBlue | Salmon | Gray | Off

  datatype Dialect = Ansi | Game

  const ESC := '\U{001b}'

  function Code(d: Dialect, c: Colour): (code: string)
    ensures |code| > 1
  {
    if d == Ansi then
      [ESC, '['] + AnsiNumber(c) + "m"
    else if c == Off then "|r" else "|cFF" + GameHex(c)
  }

  function AnsiNumber(c: Colour): string {
    match c
    case Red => "31"
    case Green => "32"
    case Yellow => "33"
    case Blue => "34"
    case Magenta => "35"
    case Cyan => "36"
    case Plum => "38:5:219"
    case SlateBlue => "38:5:62"
    case Salmon => "38:5:210"
    case Gray => "90"
    case Off => "0"
  }

  function GameHex(c: Colour): string {
    match c
    case Red => "FF0000"
    case Green => "00FF00"
    case Yellow => "FFF380"
    case Blue => "0050FF"
    case Magenta => "FF00FF"
    case Cyan => "00FFFF"
    case Plum => "FF77FF"
    case SlateBlue => "5F5FD7"
    case Salmon => "FF8787"
    case Gray => "808080"
    case Off => ""
  }

  /** The character every code of a dialect starts with. */
  function BarOrEscape(d: Dialect): char {
    if d == Ansi then ESC else '|'
  }

  lemma CodeShape(d: Dialect, c: Colour)
    ensures Code(d, c)[0] == BarOrEscape(d)
    ensures forall i :: 0 < i < |Code(d, c)| ==> Code(d, c)[i] != ESC && Code(d, c)[i] != '|'
  {
    hide AnsiNumber, GameHex;
    PlainDigits(c);
    var x := if d == Ansi then AnsiNumber(c) else if c == Off then "" else GameHex(c);
    forall i | 0 < i < |Code(d, c)| ensures Code(d, c)[i] != ESC && Code(d, c)[i] != '|' {
      var lead := if d == Ansi then 2 else if c == Off then 2 else 4;
      if lead <= i < lead + |x| {
        assert Code(d, c)[i] == x[i - lead];
      }
    }
  }

  lemma PlainDigits(c: Colour)
    ensures var n := AnsiNumber(c); forall i :: 0 <= i < |n| ==> n[i] != ESC && n[i] != '|' && n[i] != 'm'
    ensures var h := GameHex(c); forall i :: 0 <= i < |h| ==> h[i] != ESC && h[i] != '|'
  {
  }

  /** No terminal code begins with another. */
  lemma PrefixFree(s: string, a: Colour, b: Colour)
    requires Code(Ansi, a) <= s && Code(Ansi, b) <= s
    ensures a == b
  {
    hide AnsiNumber;
    var x, y := AnsiNumber(a), AnsiNumber(b);
    assert forall i :: 0 <= i < |x| ==> s[i + 2] == Code(Ansi, a)[i + 2] == x[i];
    assert forall i :: 0 <= i < |y| ==> s[i + 2] == Code(Ansi, b)[i + 2] == y[i];
    assert s[|x| + 2] == Code(Ansi, a)[|x| + 2] == 'm';
    assert s[|y| + 2] == Code(Ansi, b)[|y| + 2] == 'm';
    PlainDigits(a);
    PlainDigits(b);
    assert |x| == |y|;
    assert x == y;
    NumbersDiffer(a, b);
  }

  lemma NumbersDiffer(a: Colour, b: Colour)
    requires AnsiNumber(a) == AnsiNumber(b)
    ensures a == b
  {
    var x, y := AnsiNumber(a), AnsiNumber(b);
    assert |x| == |y|;
    assert x[0] == y[0] && (|x| > 1 ==> x[1] == y[1]) && (|x| > 5 ==> x[5] == y[5]) && (|x| > 6 ==> x[6] == y[6]);
    assert |x| > 7 ==> x[7] == y[7];
  }

  // ----- Reading the codes -----

  /** A letter's colour as the game knows it: its eight hexadecimal digits, in upper case. */
  datatype Hue = Uncoloured | Argb(digits: string)

  function HueOf(c: Colour): Hue {
    if c == Off then Uncoloured else Argb("FF" + GameHex(c))
  }

  /** The colours stay apart. */
  lemma HuesDiffer(a: Colour, b: Colour)
    requires HueOf(a) == HueOf(b)
    ensures a == b
  {
    if a != Off && b != Off {
      assert ("FF" + GameHex(a))[2..] == GameHex(a) && ("FF" + GameHex(b))[2..] == GameHex(b);
      HexesDiffer(a, b);
    }
  }

  lemma HexesDiffer(a: Colour, b: Colour)
    requires GameHex(a) == GameHex(b)
    ensures a == b
  {
    var x, y := GameHex(a), GameHex(b);
    assert |x| == |y|;
    if |x| > 0 {
      assert x[0] == y[0] && x[1] == y[1] && x[2] == y[2] && x[3] == y[3] && x[4] == y[4];
    }
  }

  predicate IsHex(ch: char) {
    '0' <= ch <= '9' || 'a' <= ch <= 'f' || 'A' <= ch <= 'F'
  }

  function Upper(s: string): string {
    seq(|s|, i requires 0 <= i < |s| =>
      if 'a' <= s[i] <= 'f' then ((s[i] as int - 'a' as int) + 'A' as int) as char else s[i])
  }

  /** A code at the start of a string: how long it is, and the colour it sets. */
  datatype Mark = Mark(length: nat, hue: Hue)

  /** The game's colour codes: `|r`, and `|c` with any eight hexadecimal digits in either case. A bar
      followed by anything else is a letter to this reader. */
  function GameCodeAt(s: string): (r: Option<Mark>)
    ensures r.Some? ==> 1 < r.value.length <= |s|
  {
    if |s| >= 2 && s[0] == '|' && s[1] == 'r' then Some(Mark(2, Uncoloured))
    else if |s| >= 10 && s[0] == '|' && s[1] == 'c' && forall i :: 2 <= i < 10 ==> IsHex(s[i]) then
      Some(Mark(10, Argb(Upper(s[2..10]))))
    else None
  }

  /** The colour whose terminal code `s` begins with. */
  ghost function Match(s: string): (r: Option<Colour>)
    ensures r.Some? ==> Code(Ansi, r.value) <= s
    ensures r.None? ==> forall c :: !(Code(Ansi, c) <= s)
  {
    if exists c :: Code(Ansi, c) <= s then
      var c :| Code(Ansi, c) <= s;
      Some(c)
    else None
  }

  /** The code a string of either dialect begins with. */
  ghost function CodeAt(d: Dialect, s: string): (r: Option<Mark>)
    ensures r.Some? ==> 1 < r.value.length <= |s|
  {
    match d
    case Game => GameCodeAt(s)
    case Ansi =>
      match Match(s)
      case None => None
      case Some(c) => Some(Mark(|Code(Ansi, c)|, HueOf(c)))
  }

  lemma MatchIs(c: Colour, rest: string)
    ensures Match(Code(Ansi, c) + rest) == Some(c)
    ensures (Code(Ansi, c) + rest)[|Code(Ansi, c)|..] == rest
  {
    hide Code;
    assert Code(Ansi, c) <= Code(Ansi, c) + rest;
    PrefixFree(Code(Ansi, c) + rest, Match(Code(Ansi, c) + rest).value, c);
  }

  lemma GameHexIsHex(c: Colour)
    requires c != Off
    ensures |GameHex(c)| == 6 && Upper("FF" + GameHex(c)) == "FF" + GameHex(c)
    ensures forall i :: 0 <= i < 6 ==> IsHex(GameHex(c)[i])
  {
  }

  lemma GameCodeIs(c: Colour, rest: string)
    ensures GameCodeAt(Code(Game, c) + rest) == Some(Mark(|Code(Game, c)|, HueOf(c)))
  {
    hide GameHex, Upper;
    var s := Code(Game, c) + rest;
    if c != Off {
      var hex := GameHex(c);
      GameHexIsHex(c);
      assert s[2..10] == "FF" + hex;
      assert forall i :: 4 <= i < 10 ==> s[i] == hex[i - 4];
    }
  }

  lemma CodeIs(d: Dialect, c: Colour, rest: string)
    ensures CodeAt(d, Code(d, c) + rest) == Some(Mark(|Code(d, c)|, HueOf(c)))
    ensures (Code(d, c) + rest)[|Code(d, c)|..] == rest
  {
    hide Code, GameCodeAt, Match;
    if d == Ansi {
      MatchIs(c, rest);
    } else {
      GameCodeIs(c, rest);
    }
  }

  lemma NoMarkNoCode(d: Dialect, s: string)
    requires |s| > 0 && s[0] != BarOrEscape(d)
    ensures CodeAt(d, s) == None
    ensures d == Ansi ==> Match(s) == None
  {
    hide Code;
    if d == Ansi && Match(s).Some? {
      CodeShape(Ansi, Match(s).value);
    }
  }

  datatype Cell = Cell(letter: char, hue: Hue)

  /** What a reader sees: every letter with its colour, and the colour left on at the end. */
  datatype Picture = Picture(cells: seq<Cell>, hue: Hue)

  ghost function Paint(d: Dialect, s: string, current: Hue): Picture
    decreases |s|
  {
    if |s| == 0 then Picture([], current)
    else
      match CodeAt(d, s)
      case Some(mark) => Paint(d, s[mark.length..], mark.hue)
      case None =>
        var rest := Paint(d, s[1..], current);
        rest.(cells := [Cell(s[0], current)] + rest.cells)
  }

  /** A text's letters, all in one colour. */
  function Cells(text: string, hue: Hue): seq<Cell> {
    seq(|text|, i requires 0 <= i < |text| => Cell(text[i], hue))
  }

  lemma PaintCode(d: Dialect, c: Colour, rest: string, current: Hue)
    ensures Paint(d, Code(d, c) + rest, current) == Paint(d, rest, HueOf(c))
  {
    hide Code, CodeAt;
    CodeIs(d, c, rest);
  }

  lemma {:induction false} PaintText(d: Dialect, text: string, rest: string, current: Hue)
    requires BarOrEscape(d) !in text
    ensures var p := Paint(d, rest, current);
            Paint(d, text + rest, current) == p.(cells := Cells(text, current) + p.cells)
  {
    hide CodeAt;
    if |text| == 0 {
      assert text + rest == rest;
    } else {
      var s, p := text + rest, Paint(d, rest, current);
      NoMarkNoCode(d, s);
      assert s[0] == text[0] && s[1..] == text[1..] + rest;
      PaintText(d, text[1..], rest, current);
      assert Cells(text, current) == [Cell(text[0], current)] + Cells(text[1..], current);
      assert [Cell(text[0], current)] + (Cells(text[1..], current) + p.cells) == Cells(text, current) + p.cells;
    }
  }
}
