/** The pending traps as one text column: printed separated by commas, and parsed back on login. */
module TrapList {
  import opened Digits
  import opened Options
  import opened SlotItems

  const COLUMN_WIDTH := 255
  const TRAPS_THAT_FIT := 128

  function Value(t: TrapType): nat {
    match t
    case Dazed => 1 case Shackle => 2 case Sheep => 3 case Poison => 4
    case Teleport => 5 case Ambush => 6 case Disarm => 7 case Bombs => 8
  }

  function TrapTypeFromValue(value: nat): Option<TrapType> {
    match value
    case 1 => Some(Dazed) case 2 => Some(Shackle) case 3 => Some(Sheep) case 4 => Some(Poison)
    case 5 => Some(Teleport) case 6 => Some(Ambush) case 7 => Some(Disarm) case 8 => Some(Bombs)
    case _ => None
  }

  // ----- Printing -----

  function Print(traps: seq<TrapType>): string {
    if |traps| == 0 then ""
    else
      var before := Print(traps[..|traps| - 1]);
      before + (if before == "" then "" else ",") + Decimal(Value(traps[|traps| - 1]))
  }

  // ----- Parsing -----

  predicate IsSpace(ch: char) {
    ch == ' ' || '\t' <= ch <= '\r'
  }

  function SkipSpace(s: string): string {
    if |s| > 0 && IsSpace(s[0]) then SkipSpace(s[1..]) else s
  }

  /** The unsigned number a text starts with, as `stoul` reads it: after white space and a sign, a minus
      wrapping around; none without a digit, nor for one that does not fit. */
  function LeadingNumber(s: string): (r: Option<nat>) {
    var t := SkipSpace(s);
    var signed := |t| > 0 && (t[0] == '+' || t[0] == '-');
    var digits := if signed then t[1..] else t;
    if |digits| == 0 || !IsDigit(digits[0]) then None
    else
      var n := NumberFrom(0, digits);
      if n >= ULONG_LIMIT then None
      else Some(if signed && t[0] == '-' then (ULONG_LIMIT - n) % ULONG_LIMIT else n)
  }

  const ULONG_LIMIT := 0x1_0000_0000_0000_0000
  const UINT32_LIMIT := 0x1_0000_0000

  function FirstComma(s: string): (i: nat)
    ensures i <= |s| && ',' !in s[..i] && (i < |s| ==> s[i] == ',')
  {
    if |s| == 0 || s[0] == ',' then 0
    else
      var i := 1 + FirstComma(s[1..]);
      assert s[..i] == [s[0]] + s[1..][..i - 1];
      i
  }

  /** What reading up to each comma yields: nothing after a trailing one. */
  function Tokens(s: string): seq<string>
    decreases |s|
  {
    if |s| == 0 then []
    else
      var i := FirstComma(s);
      if i == |s| then [s] else [s[..i]] + Tokens(s[i + 1..])
  }

  /** The trap of a token: a value of no trap is skipped, and a token of no number throws. */
  function ParseToken(token: string): Option<seq<TrapType>> {
    match LeadingNumber(token)
    case None => None
    case Some(n) =>
      match TrapTypeFromValue(n % UINT32_LIMIT)
      case Some(t) => Some([t])
      case None => Some([])
  }

  function ParseTokens(tokens: seq<string>): Option<seq<TrapType>> {
    if |tokens| == 0 then Some([])
    else
      var before, last := ParseTokens(tokens[..|tokens| - 1]), ParseToken(tokens[|tokens| - 1]);
      if before.None? || last.None? then None else Some(before.value + last.value)
  }

  function Parse(s: string): Option<seq<TrapType>> {
    ParseTokens(Tokens(s))
  }

  // ----- As the preferences are saved and loaded -----

  method PrintTraps(pendingTraps: seq<TrapType>) returns (traps: string)
    ensures traps == Print(pendingTraps)
  {
    traps := "";
    for i := 0 to |pendingTraps|
      invariant traps == Print(pendingTraps[..i])
    {
      assert pendingTraps[..i + 1][..i] == pendingTraps[..i];
      traps := traps + (if traps == "" then "" else ",") + Decimal(Value(pendingTraps[i]));
    }
    assert pendingTraps[..|pendingTraps|] == pendingTraps;
  }

  method ParseTraps(column: string) returns (pendingTraps: Option<seq<TrapType>>)
    ensures pendingTraps == Parse(column)
  {
    hide ParseToken, FirstComma, ParseTokens, Tokens;
    var traps: seq<TrapType> := [];
    var rest := column;
    ghost var read: seq<string> := [];
    NoTokens();
    while |rest| > 0
      invariant Tokens(column) == read + Tokens(rest)
      invariant ParseTokens(read) == Some(traps)
      decreases |rest|
    {
      var i := FirstComma(rest);
      var token := rest[..i];
      ghost var left := Tokens(rest);
      TokensStep(rest);
      rest := if i == |rest| then "" else rest[i + 1..];
      var parsed := ParseToken(token);
      ParseStep(read, token);
      assert read + left == read + [token] + Tokens(rest);
      read := read + [token];
      if parsed.None? {
        ParseStops(read, Tokens(rest));
        return None;
      }
      traps := traps + parsed.value;
    }
    assert read + [] == read;
    return Some(traps);
  }

  lemma NoTokens()
    ensures Tokens("") == [] && ParseTokens([]) == Some([])
  {
  }

  lemma TokensStep(s: string)
    requires |s| > 0
    ensures var i := FirstComma(s); Tokens(s) == [s[..i]] + Tokens(if i == |s| then "" else s[i + 1..])
  {
    assert s[..|s|] == s;
  }

  lemma ParseStep(read: seq<string>, token: string)
    ensures ParseTokens(read + [token])
         == if ParseTokens(read).None? || ParseToken(token).None? then None
            else Some(ParseTokens(read).value + ParseToken(token).value)
  {
    assert (read + [token])[..|read|] == read;
  }

  lemma {:induction false} ParseStops(read: seq<string>, rest: seq<string>)
    requires ParseTokens(read) == None
    ensures ParseTokens(read + rest) == None
    decreases |rest|
  {
    if rest == [] {
      assert read + rest == read;
    } else {
      ParseStops(read, rest[..|rest| - 1]);
      assert (read + rest)[..|read + rest| - 1] == read + rest[..|rest| - 1];
    }
  }

  // ----- The round trip -----

  lemma TokenOfTrap(t: TrapType)
    ensures var d := Decimal(Value(t)); |d| == 1 && d[0] != ',' && ParseToken(d) == Some([t])
  {
    var d := Decimal(Value(t));
    assert d == [Digit(Value(t))] && IsDigit(d[0]);
    assert NumberFrom(0, d) == NumberFrom(Value(t), d[1..]) == Value(t);
  }

  lemma {:induction false} FirstCommaIs(s: string, i: nat)
    requires i <= |s| && ',' !in s[..i] && (i < |s| ==> s[i] == ',')
    ensures FirstComma(s) == i
  {
    if i > 0 {
      assert s[0] in s[..i];
      assert s[1..][..i - 1] == s[..i][1..];
      FirstCommaIs(s[1..], i - 1);
    }
  }

  /** A token put behind a comma is the last one read. */
  lemma {:induction false} TokensAppend(s: string, d: string)
    requires |s| > 0 && s[|s| - 1] != ',' && |d| > 0 && ',' !in d
    ensures Tokens(s + "," + d) == Tokens(s) + [d]
    decreases |s|
  {
    hide Tokens, FirstComma;
    var all := s + "," + d;
    var i := FirstComma(s);
    assert all[..i] == s[..i] && all[i] == (if i < |s| then s[i] else ',');
    FirstCommaIs(all, i);
    TokensStep(all);
    TokensStep(s);
    NoTokens();
    if i == |s| {
      assert all[i + 1..] == d && s[..i] == s;
      TokenAlone(d);
      assert [s] + [] == [s];
    } else {
      assert all[i + 1..] == s[i + 1..] + "," + d;
      TokensAppend(s[i + 1..], d);
      assert [s[..i]] + (Tokens(s[i + 1..]) + [d]) == [s[..i]] + Tokens(s[i + 1..]) + [d];
    }
  }

  /** Printing and parsing back gives the same list, for every list; the text takes a digit a trap and
      the commas between. */
  lemma {:induction false} RoundTrip(traps: seq<TrapType>)
    ensures Parse(Print(traps)) == Some(traps)
    ensures |Print(traps)| == if |traps| == 0 then 0 else 2 * |traps| - 1
    ensures |traps| > 0 ==> Print(traps)[|Print(traps)| - 1] != ','
  {
    hide ParseToken, Decimal, Tokens, ParseTokens, FirstComma;
    NoTokens();
    if |traps| > 0 {
      var n := |traps| - 1;
      var before, d := Print(traps[..n]), Decimal(Value(traps[n]));
      RoundTrip(traps[..n]);
      TokenOfTrap(traps[n]);
      if n == 0 {
        TokenAlone(d);
        assert before == "" && Tokens(before) == [];
        assert Print(traps) == d;
      } else {
        assert |before| > 0;
        TokensAppend(before, d);
        assert Print(traps) == before + "," + d;
      }
      ParseStep(Tokens(before), d);
      assert Tokens(Print(traps)) == Tokens(before) + [d];
      assert traps[..n] + [traps[n]] == traps;
    }
  }

  lemma TokenAlone(d: string)
    requires |d| > 0 && ',' !in d
    ensures Tokens(d) == [d]
  {
    FirstCommaIs(d, |d|);
  }

  /** The column holds a list exactly when it has no more than 128 traps. */
  lemma FitsColumnIff(traps: seq<TrapType>)
    ensures |Print(traps)| <= COLUMN_WIDTH <==> |traps| <= TRAPS_THAT_FIT
  {
    RoundTrip(traps);
  }

  // ----- Any column of numbers -----

  /** The traps in the order of their values, from 1 up. */
  const TRAPS_BY_VALUE: seq<TrapType> := [Dazed, Shackle, Sheep, Poison, Teleport, Ambush, Disarm, Bombs]

  function Join(ns: seq<nat>): string {
    if |ns| == 0 then ""
    else Join(ns[..|ns| - 1]) + (if |ns| == 1 then "" else ",") + Decimal(ns[|ns| - 1])
  }

  /** The traps of the numbers, cut to 32 bits, that are one's value. */
  function KnownTraps(ns: seq<nat>): seq<TrapType> {
    if |ns| == 0 then []
    else
      var value := ns[|ns| - 1] % UINT32_LIMIT;
      KnownTraps(ns[..|ns| - 1]) + if 1 <= value <= 8 then [TRAPS_BY_VALUE[value - 1]] else []
  }

  lemma NumberLeads(n: nat)
    requires n < ULONG_LIMIT
    ensures LeadingNumber(Decimal(n)) == Some(n)
    ensures var d := Decimal(n); |d| > 0 && ',' !in d && d[|d| - 1] != ','
  {
    hide Decimal, NumberFrom;
    DecimalReads(n);
    assert IsDigit(Decimal(n)[0]);
    assert SkipSpace(Decimal(n)) == Decimal(n);
  }

  lemma ValueOfTrap(t: TrapType, value: nat)
    ensures TrapTypeFromValue(value) == if 1 <= value <= 8 then Some(TRAPS_BY_VALUE[value - 1]) else None
    ensures 1 <= Value(t) <= 8 && TRAPS_BY_VALUE[Value(t) - 1] == t
  {
  }

  lemma TokenOfNumber(n: nat)
    requires n < ULONG_LIMIT
    ensures ParseToken(Decimal(n)) == Some(KnownTraps([n]))
  {
    hide Decimal, LeadingNumber, TrapTypeFromValue;
    NumberLeads(n);
    ValueOfTrap(Dazed, n % UINT32_LIMIT);
    OneNumber(n);
  }

  /** Whatever numbers a column holds, it is read as the traps they stand for, and those that stand for
      none are skipped. */
  lemma {:induction false} NumbersRead(ns: seq<nat>)
    requires forall i :: 0 <= i < |ns| ==> ns[i] < ULONG_LIMIT
    ensures Parse(Join(ns)) == Some(KnownTraps(ns))
    ensures |ns| > 0 ==> |Join(ns)| > 0 && Join(ns)[|Join(ns)| - 1] != ','
  {
    hide ParseToken, Decimal, Tokens, ParseTokens, FirstComma, LeadingNumber;
    NoTokens();
    if |ns| > 0 {
      var n := |ns| - 1;
      var before, d := Join(ns[..n]), Decimal(ns[n]);
      NumbersRead(ns[..n]);
      TokenOfNumber(ns[n]);
      NumberLeads(ns[n]);
      OneNumber(ns[n]);
      if n == 0 {
        TokenAlone(d);
        assert before == "" && "" + "" + d == d && Join(ns) == d;
      } else {
        TokensAppend(before, d);
      }
      ParseStep(Tokens(before), d);
      assert Tokens(Join(ns)) == Tokens(before) + [d];
    }
  }

  lemma OneNumber(n: nat)
    ensures KnownTraps([n]) == if 1 <= n % UINT32_LIMIT <= 8 then [TRAPS_BY_VALUE[n % UINT32_LIMIT - 1]] else []
  {
    assert [n][..0] == [];
  }

  function Values(traps: seq<TrapType>): seq<nat> {
    seq(|traps|, i requires 0 <= i < |traps| => Value(traps[i]))
  }

  /** A list is saved as the values of its traps. */
  lemma PrintsValues(traps: seq<TrapType>)
    ensures Print(traps) == Join(Values(traps))
    ensures forall i :: 0 <= i < |traps| ==>
              1 <= Values(traps)[i] <= 8 && TRAPS_BY_VALUE[Values(traps)[i] - 1] == traps[i]
  {
    JoinsValues(traps);
    forall i | 0 <= i < |traps|
      ensures 1 <= Values(traps)[i] <= 8 && TRAPS_BY_VALUE[Values(traps)[i] - 1] == traps[i]
    {
      ValueOfTrap(traps[i], 0);
    }
  }

  lemma {:induction false} JoinsValues(traps: seq<TrapType>)
    ensures Print(traps) == Join(Values(traps))
  {
    hide Decimal, Value, Parse;
    if |traps| > 0 {
      var n := |traps| - 1;
      JoinsValues(traps[..n]);
      RoundTrip(traps[..n]);
      assert Values(traps)[..n] == Values(traps[..n]);
    }
  }

  /** A login stops on a column exactly when a part of it has no number. */
  lemma {:induction false} RefusedIff(tokens: seq<string>)
    ensures ParseTokens(tokens).None? <==> exists i :: 0 <= i < |tokens| && LeadingNumber(tokens[i]).None?
  {
    hide LeadingNumber, TrapTypeFromValue;
    if |tokens| > 0 {
      RefusedIff(tokens[..|tokens| - 1]);
    }
  }
}
