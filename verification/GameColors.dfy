/** What the player sees in the game's chat, against what the terminal would have shown. */
module GameColors {
  import opened Options
  import opened ColorCodes
  import opened Rendering

  /** One of the game's colour codes is in the string before it is converted. */
  ghost predicate HasGameCode(s: string) {
    exists i :: 0 <= i < |s| && GameCodeAt(s[i..]).Some?
  }

  lemma CodeOrTail(s: string)
    requires |s| > 0
    ensures HasGameCode(s) <==> GameCodeAt(s).Some? || HasGameCode(s[1..])
  {
    hide GameCodeAt;
    assert s[0..] == s;
    if HasGameCode(s[1..]) {
      var i :| 0 <= i < |s[1..]| && GameCodeAt(s[1..][i..]).Some?;
      assert s[1..][i..] == s[i + 1..];
    }
    if HasGameCode(s) && !GameCodeAt(s).Some? {
      var i :| 0 <= i < |s| && GameCodeAt(s[i..]).Some?;
      assert s[1..][i - 1..] == s[i..];
    }
  }

  lemma {:induction false} CodePastPlain(plain: string, rest: string)
    requires '|' !in plain
    ensures HasGameCode(plain + rest) <==> HasGameCode(rest)
  {
    hide HasGameCode, GameCodeAt;
    if |plain| == 0 {
      assert plain + rest == rest;
    } else {
      CodeOrTail(plain + rest);
      NoMarkNoCode(Game, plain + rest);
      assert (plain + rest)[1..] == plain[1..] + rest;
      CodePastPlain(plain[1..], rest);
    }
  }

  lemma MarkShape(s: string, mark: Mark)
    requires GameCodeAt(s) == Some(mark)
    ensures s[0] == '|' && forall i :: 0 < i < mark.length ==> s[i] != ESC && s[i] != '|'
  {
  }

  /** Whether a code is there depends on its own letters alone. */
  lemma GameCodeLocal(s: string, t: string, mark: Mark)
    requires GameCodeAt(s) == Some(mark) && s[..mark.length] <= t
    ensures GameCodeAt(t) == Some(mark)
  {
    var w := s[..mark.length];
    assert forall i :: 0 <= i < mark.length ==> t[i] == w[i] == s[i];
    if mark.length == 10 {
      assert t[2..10] == s[2..10];
    }
  }

  /** A run of letters without escape or bar in the converted string was there before. */
  lemma {:induction false} RawPrefix(s: string, w: string)
    requires w <= Translate(s) && ESC !in w && '|' !in w
    ensures w <= s && Translate(s) == w + Translate(s[|w|..])
  {
    hide Code, Translate;
    if |w| == 0 {
      assert s[0..] == s;
    } else {
      RawStep(s, w[0]);
      Tails(w, w[0], Translate(s[1..]));
      RawPrefix(s[1..], w[1..]);
      Heads(s, w, Translate(s[1..]));
    }
  }

  lemma Tails(w: string, x: char, t: string)
    requires |w| > 0 && w <= [x] + t
    ensures w[0] == x && w[1..] <= t
  {
    assert ([x] + t)[0] == x && ([x] + t)[1..] == t;
  }

  /** Putting the first letter back in front of a raw run. */
  lemma Heads(s: string, w: string, t: string)
    requires |s| > 0 && |w| > 0 && s[0] == w[0] && w[1..] <= s[1..] && t == w[1..] + Translate(s[1..][|w| - 1..])
    ensures w <= s && [w[0]] + t == w + Translate(s[|w|..])
  {
    hide Translate;
    assert w == [w[0]] + w[1..] && s == [s[0]] + s[1..];
    assert s[1..][|w| - 1..] == s[|w|..];
  }

  lemma TranslateRaw(s: string)
    requires |s| > 0 && Match(s).None?
    ensures Translate(s) == [s[0]] + Translate(s[1..])
  {
    hide Code, Match;
  }

  lemma RawStep(s: string, x: char)
    requires |Translate(s)| > 0 && Translate(s)[0] == x && x != '|'
    ensures |s| > 0 && s[0] == x && Translate(s) == [x] + Translate(s[1..])
  {
    hide Code;
    if Match(s).Some? {
      CodeShape(Game, Match(s).value);
    }
  }

  lemma RawRun(s: string, w: string)
    requires |s| > 0 && Match(s).None? && |w| > 0 && w <= Translate(s)
    requires forall i :: 0 < i < |w| ==> w[i] != ESC && w[i] != '|'
    ensures w <= s && Translate(s) == w + Translate(s[|w|..])
  {
    hide Match, Translate;
    TranslateRaw(s);
    Tails(w, s[0], Translate(s[1..]));
    RawPrefix(s[1..], w[1..]);
    Heads(s, w, w[1..] + Translate(s[1..][|w| - 1..]));
  }

  /** A game code at the front of the converted string that no terminal code stood for was there before. */
  lemma RawCode(s: string, mark: Mark)
    requires |s| > 0 && Match(s).None? && GameCodeAt(Translate(s)) == Some(mark)
    ensures GameCodeAt(s) == Some(mark)
  {
    hide Match, Translate, GameCodeAt;
    var t := Translate(s);
    MarkShape(t, mark);
    RawRun(s, t[..mark.length]);
    GameCodeLocal(t, s, mark);
  }

  /** A game code in the string stays as it is. */
  lemma CodeStays(s: string, mark: Mark)
    requires GameCodeAt(s) == Some(mark)
    ensures Match(s).None? && Translate(s) == s[..mark.length] + Translate(s[mark.length..])
  {
    hide Code, Match, Translate, GameCodeAt;
    var w := s[..mark.length];
    MarkShape(s, mark);
    NoMarkNoCode(Ansi, s);
    assert s == w + s[mark.length..];
    TranslateText(w, s[mark.length..]);
  }

  lemma SameCode(s: string)
    requires |s| > 0 && Match(s).None?
    ensures GameCodeAt(Translate(s)) == GameCodeAt(s)
  {
    hide Code, Translate, GameCodeAt, Match;
    if GameCodeAt(s).Some? {
      CodeStays(s, GameCodeAt(s).value);
      GameCodeLocal(s, Translate(s), GameCodeAt(s).value);
    } else if GameCodeAt(Translate(s)).Some? {
      RawCode(s, GameCodeAt(Translate(s)).value);
    }
  }

  /** Without a game code in the string, converting it keeps every letter, its colour and the colour
      left on. */
  lemma {:induction false} PictureKept(s: string, current: Hue)
    requires !HasGameCode(s)
    ensures Paint(Game, Translate(s), current) == Paint(Ansi, s, current)
    decreases |s|
  {
    hide Code, Match, HasGameCode, GameCodeAt;
    if |s| > 0 {
      match Match(s)
      case Some(c) =>
        AnsiFront(s, c);
        PictureKept(s[|Code(Ansi, c)|..], HueOf(c));
        PaintCode(Game, c, Translate(s[|Code(Ansi, c)|..]), current);
      case None =>
        SameCode(s);
        CodeOrTail(s);
        PictureKept(s[1..], current);
        assert Translate(s)[1..] == Translate(s[1..]);
    }
  }

  lemma AnsiFront(s: string, c: Colour)
    requires Code(Ansi, c) <= s
    ensures HasGameCode(s) <==> HasGameCode(s[|Code(Ansi, c)|..])
  {
    hide Code, HasGameCode;
    CodeShape(Ansi, c);
    assert s == Code(Ansi, c) + s[|Code(Ansi, c)|..];
    CodePastPlain(Code(Ansi, c), s[|Code(Ansi, c)|..]);
  }

  // ----- A game code in the string swallows letters -----

  /** How many letters are shown. */
  ghost function Visible(d: Dialect, s: string): nat
    decreases |s|
  {
    if |s| == 0 then 0
    else
      match CodeAt(d, s)
      case Some(mark) => Visible(d, s[mark.length..])
      case None => 1 + Visible(d, s[1..])
  }

  lemma {:induction false} VisibleIs(d: Dialect, s: string, current: Hue)
    ensures |Paint(d, s, current).cells| == Visible(d, s)
    decreases |s|
  {
    hide CodeAt;
    if |s| > 0 {
      match CodeAt(d, s)
      case Some(mark) => VisibleIs(d, s[mark.length..], mark.hue);
      case None => VisibleIs(d, s[1..], current);
    }
  }

  lemma {:induction false} VisiblePlain(text: string, rest: string)
    requires ESC !in text
    ensures Visible(Ansi, text + rest) == |text| + Visible(Ansi, rest)
  {
    hide CodeAt;
    if |text| == 0 {
      assert text + rest == rest;
    } else {
      NoMarkNoCode(Ansi, text + rest);
      assert (text + rest)[1..] == text[1..] + rest;
      VisiblePlain(text[1..], rest);
    }
  }

  lemma VisibleCode(d: Dialect, c: Colour, rest: string)
    ensures Visible(d, Code(d, c) + rest) == Visible(d, rest)
  {
    hide Code, CodeAt;
    CodeIs(d, c, rest);
  }

  lemma VisibleGameCode(s: string, mark: Mark)
    requires GameCodeAt(s) == Some(mark)
    ensures Visible(Game, Translate(s)) == Visible(Game, Translate(s[mark.length..]))
    ensures Visible(Ansi, s) == mark.length + Visible(Ansi, s[mark.length..])
  {
    hide Code, Translate, Match, GameCodeAt;
    CodeStays(s, mark);
    SameCode(s);
    assert Translate(s)[mark.length..] == Translate(s[mark.length..]);
    MarkShape(s, mark);
    assert s == s[..mark.length] + s[mark.length..];
    VisiblePlain(s[..mark.length], s[mark.length..]);
  }

  lemma {:induction false} CodesSwallow(s: string)
    ensures Visible(Game, Translate(s)) <= Visible(Ansi, s)
    ensures HasGameCode(s) ==> Visible(Game, Translate(s)) < Visible(Ansi, s)
    decreases |s|
  {
    hide Code, Match, HasGameCode, GameCodeAt;
    if |s| == 0 {
      NothingHasNoCode();
    } else if Match(s).Some? {
      var c := Match(s).value;
      var rest := s[|Code(Ansi, c)|..];
      AnsiFront(s, c);
      VisibleCode(Game, c, Translate(rest));
      CodesSwallow(rest);
    } else if GameCodeAt(s).Some? {
      var mark := GameCodeAt(s).value;
      VisibleGameCode(s, mark);
      CodesSwallow(s[mark.length..]);
    } else {
      SameCode(s);
      CodeOrTail(s);
      CodesSwallow(s[1..]);
      assert Translate(s)[1..] == Translate(s[1..]);
    }
  }

  lemma NothingHasNoCode()
    ensures !HasGameCode("")
  {
  }

  /** For every string: the chat shows what the terminal would have exactly when the string holds none
      of the game's colour codes. */
  lemma PictureKeptIff(s: string, current: Hue)
    ensures Paint(Game, Translate(s), current) == Paint(Ansi, s, current) <==> !HasGameCode(s)
  {
    hide Paint, Translate, Visible, HasGameCode;
    if HasGameCode(s) {
      CodesSwallow(s);
      VisibleIs(Game, Translate(s), current);
      VisibleIs(Ansi, s, current);
    } else {
      PictureKept(s, current);
    }
  }

  /** For every message: the chat shows every letter in its part's colour, and is left uncoloured,
      exactly when the rendering holds none of the game's colour codes. */
  lemma ChatShowsIff(spans: seq<Span>)
    ensures var str := Render(Ansi, spans, false);
            Paint(Game, Translate(str), Uncoloured) == Picture(Shown(spans), Uncoloured) <==> !HasGameCode(str)
  {
    hide Paint, Translate, Render, Shown, HasGameCode;
    RenderingShows(spans, false, Uncoloured);
    PictureKeptIff(Render(Ansi, spans, false), Uncoloured);
  }

  /** A text that starts with a code of the game breaks its message, whether or not the code is one of
      those the client's colours turn into. */
  lemma TextCanBreakColor(text: string)
    requires GameCodeAt(text).Some?
    ensures var spans := [Span("red", text)];
            Paint(Game, Translate(Render(Ansi, spans, false)), Uncoloured) != Picture(Shown(spans), Uncoloured)
  {
    hide Paint, Translate, Shown, Match, HasGameCode, GameCodeAt, Code, Deansify, ColourNamed;
    var spans := [Span("red", text)];
    var str := Render(Ansi, spans, false);
    var mark := GameCodeAt(text).value;
    var lead, shown := Code(Ansi, ColourNamed("red")), Deansify(text);
    MarkShape(text, mark);
    DeansifiedCode(text, mark.length);
    assert spans[1..] == [];
    RenderNothing(Ansi, true);
    assert str == lead + shown + Code(Ansi, Off);
    assert str[|lead|..] == shown + Code(Ansi, Off);
    assert text[..mark.length] <= str[|lead|..];
    GameCodeLocal(text, str[|lead|..], mark);
    HasCodeAt(str, |lead|);
    ChatShowsIff(spans);
  }

  lemma DeansifiedCode(text: string, n: nat)
    requires n <= |text| && forall i :: 0 <= i < n ==> text[i] != ESC
    ensures |Deansify(text)| == |text| && text[..n] <= Deansify(text)
  {
  }

  /** The reset code, and the colour of the module's own trap messages. */
  lemma CodesThatBreak()
    ensures GameCodeAt("|r!").Some? && GameCodeAt("|cFFFF4040!").Some? && GameCodeAt("|cffff4040!").Some?
    ensures GameCodeAt("|cFFFF404!") == None && GameCodeAt("|x") == None
  {
    var code := "|cFFFF404!";
    assert code[9] == '!' && !IsHex(code[9]);
  }

  lemma HasCodeAt(s: string, i: nat)
    requires i < |s| && GameCodeAt(s[i..]).Some?
    ensures HasGameCode(s)
  {
  }
}
