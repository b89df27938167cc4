/**
 A screen redrawn from nothing: every cell of it as text a terminal turns back into the screen.
 What is drawn like the cell before it says so only once, and the right half of a wide character
 is not drawn at all.
 */
module Repaint {
  import opened Maybe
  import Decimal
  import opened Display

  // ------------------------------------------------------------- colours

  /** The colours that have names, in the order their numbers are in. */
  const COLOURS: seq<string> := ["black", "red", "green", "brown", "blue", "magenta", "cyan", "white"]

  /** Where a colour is among those that have names. */
  function Index(name: string, i: nat): (r: Option<nat>)
    requires i <= |COLOURS|
    ensures r.Some? ==> i <= r.value < |COLOURS| && COLOURS[r.value] == name
    ensures r == None ==> name !in COLOURS[i..]
    decreases |COLOURS| - i
  {
    if i == |COLOURS| then None else if COLOURS[i] == name then Some(i) else Index(name, i + 1)
  }

  predicate Bright(value: string) {
    |value| >= 6 && value[..6] == "bright"
  }

  function Unbright(value: string): string {
    if Bright(value) then value[6..] else value
  }

  predicate IsHex(c: char) {
    '0' <= c <= '9' || 'a' <= c <= 'f' || 'A' <= c <= 'F'
  }

  function HexWorth(c: char): (n: nat)
    requires IsHex(c)
    ensures n < 16
  {
    if '0' <= c <= '9' then c as int - '0' as int
    else if 'a' <= c <= 'f' then c as int - 'a' as int + 10
    else c as int - 'A' as int + 10
  }

  predicate Six(value: string) {
    |value| == 6 && forall c | c in value :: IsHex(c)
  }

  function Pair(value: string, i: nat): nat
    requires Six(value) && i < 5
  {
    HexWorth(value[i]) * 16 + HexWorth(value[i + 1])
  }

  /** What selects a colour, or nothing for the default and for one that is not known. */
  function Colour(value: string, background: bool): Option<string> {
    var base := if background then 40 else 30;
    var index := Index(Unbright(value), 0);
    if value == "default" then None
    else if index.Some? then Some(Decimal.Digits(base + index.value + (if Bright(value) then 60 else 0)))
    else if Six(value) then
      Some(Decimal.Digits(base + 8) + ";2;" + Decimal.Digits(Pair(value, 0)) + ";" +
           Decimal.Digits(Pair(value, 2)) + ";" + Decimal.Digits(Pair(value, 4)))
    else None
  }

  /** The colours there is a way to say: the default, the sixteen named and any of three pairs of
      hex digits, written small. */
  predicate Canonical(value: string) {
    || value == "default"
    || Unbright(value) in COLOURS
    || (Six(value) && forall c | c in value :: !('A' <= c <= 'F'))
  }

  function Small(c: char): char {
    if 'A' <= c <= 'F' then (c as int + 32) as char else c
  }

  function Smalls(value: string): string
    requires |value| == 6
  {
    [Small(value[0]), Small(value[1]), Small(value[2]), Small(value[3]), Small(value[4]), Small(value[5])]
  }

  /** The colour a terminal takes it for. */
  function Decoded(value: string): string {
    if value == "default" || Unbright(value) in COLOURS then value
    else if Six(value) then Smalls(value)
    else "default"
  }

  function Codes(value: string, background: bool): seq<nat> {
    var base := if background then 40 else 30;
    var index := Index(Unbright(value), 0);
    if value == "default" then []
    else if index.Some? then [base + index.value + (if Bright(value) then 60 else 0)]
    else if Six(value) then [base + 8, 2, Pair(value, 0), Pair(value, 2), Pair(value, 4)]
    else []
  }

  lemma ColourSays(value: string, background: bool)
    ensures Colour(value, background).None? <==> Codes(value, background) == []
    ensures Colour(value, background).Some? ==> Numbers(0, Colour(value, background).value) == Codes(value, background)
  {
    var base := if background then 40 else 30;
    var index := Index(Unbright(value), 0);
    hide Numbers, Index, Unbright, Bright, Pair;
    if value != "default" {
      if index.Some? {
        OneNumber(base + index.value + (if Bright(value) then 60 else 0));
      } else if Six(value) {
        var r, g, b := Pair(value, 0), Pair(value, 2), Pair(value, 4);
        FiveNumbers(base + 8, 2, r, g, b);
        FiveWritten(base + 8, r, g, b);
      }
    }
  }

  function Five(a: nat, b: nat, c: nat, d: nat, e: nat): string {
    Decimal.Digits(a) + ";" + (Decimal.Digits(b) + ";" + (Decimal.Digits(c) + ";" + (Decimal.Digits(d) + ";" + Decimal.Digits(e))))
  }

  lemma FiveWritten(a: nat, c: nat, d: nat, e: nat)
    ensures Decimal.Digits(a) + ";2;" + Decimal.Digits(c) + ";" + Decimal.Digits(d) + ";" + Decimal.Digits(e) ==
      Five(a, 2, c, d, e)
  {
    assert Decimal.Digits(2) == "2";
    var sa, sc, sd, se := Decimal.Digits(a), Decimal.Digits(c), Decimal.Digits(d), Decimal.Digits(e);
    hide Decimal.Digits;
    Regrouped(sa, sc, sd, se);
  }

  lemma Regrouped(a: string, c: string, d: string, e: string)
    ensures a + ";2;" + c + ";" + d + ";" + e == a + ";" + ("2" + ";" + (c + ";" + (d + ";" + e)))
  {
    assert a + ";2;" == a + ";" + ("2" + ";");
  }

  lemma FiveNumbers(a: nat, b: nat, c: nat, d: nat, e: nat)
    ensures Numbers(0, Five(a, b, c, d, e)) == [a, b, c, d, e]
  {
    var s4 := Decimal.Digits(d) + ";" + Decimal.Digits(e);
    var s3 := Decimal.Digits(c) + ";" + s4;
    var s2 := Decimal.Digits(b) + ";" + s3;
    hide Numbers;
    OneNumber(a);
    OneNumber(b);
    OneNumber(c);
    OneNumber(d);
    OneNumber(e);
    NumbersThen(0, Decimal.Digits(d), Decimal.Digits(e));
    NumbersThen(0, Decimal.Digits(c), s4);
    NumbersThen(0, Decimal.Digits(b), s3);
    NumbersThen(0, Decimal.Digits(a), s2);
  }

  lemma HexSmall(c: char)
    requires IsHex(c)
    ensures Hex(HexWorth(c)) == Small(c)
  {
  }

  lemma PairWritten(value: string, i: nat)
    requires Six(value) && i < 5
    ensures Byte(Pair(value, i)) == [Small(value[i]), Small(value[i + 1])]
  {
    assert value[i] in value && value[i + 1] in value;
    HexSmall(value[i]);
    HexSmall(value[i + 1]);
    Nibbles(HexWorth(value[i]), HexWorth(value[i + 1]));
  }

  lemma Nibbles(high: nat, low: nat)
    requires high < 16 && low < 16
    ensures Byte(high * 16 + low) == [Hex(high), Hex(low)]
  {
  }

  /** Those are the terminal's own numbers. */
  lemma HueOf(i: nat)
    requires i < |COLOURS|
    ensures Hue(i) == COLOURS[i]
  {
  }

  lemma NamedNumber(i: nat, background: bool)
    requires i < |COLOURS|
    ensures Colour(COLOURS[i], background) == Some(Decimal.Digits((if background then 40 else 30) + i))
    ensures Colour("bright" + COLOURS[i], background) == Some(Decimal.Digits((if background then 100 else 90) + i))
  {
    hide Decimal.Digits, Pair;
    assert Index(COLOURS[i], 0) == Some(i) by { IndexOf(i, 0); }
    assert ("bright" + COLOURS[i])[..6] == "bright" && ("bright" + COLOURS[i])[6..] == COLOURS[i];
    NotBright(i);
  }

  lemma NotBright(i: nat)
    requires i < |COLOURS|
    ensures !Bright(COLOURS[i]) && COLOURS[i] != "default" && "bright" + COLOURS[i] != "default"
  {
    assert ("bright" + COLOURS[i])[0] == 'b' && "default"[0] == 'd' && COLOURS[i] != "default";
    assert i != 5 ==> |COLOURS[i]| < 6;
    assert COLOURS[5][..6] == "magent";
  }

  lemma {:induction false} IndexOf(i: nat, from: nat)
    requires from <= i < |COLOURS|
    ensures Index(COLOURS[i], from) == Some(i)
    decreases i - from
  {
    if from < i {
      IndexOf(i, from + 1);
      assert COLOURS[from] != COLOURS[i];
    }
  }

  lemma DigitsAre(n: nat, a: char, b: char)
    requires 10 <= n < 100 && a == Decimal.Digit(n / 10) && b == Decimal.Digit(n % 10)
    ensures Decimal.Digits(n) == [a, b]
  {
    assert Decimal.Digits(n / 10) == [a];
  }

  lemma HundredsAre(n: nat, b: char)
    requires 100 <= n < 110 && b == Decimal.Digit(n % 10)
    ensures Decimal.Digits(n) == ['1', '0', b]
  {
    DigitsAre(10, '1', '0');
  }

  /** The number that selects each of the sixteen, on either ground. */
  lemma SixteenNumbers()
    ensures Colour("black", false) == Some("30") && Colour("red", false) == Some("31") && Colour("green", false) == Some("32")
      && Colour("brown", false) == Some("33") && Colour("blue", false) == Some("34") && Colour("magenta", false) == Some("35")
      && Colour("cyan", false) == Some("36") && Colour("white", false) == Some("37")
    ensures Colour("black", true) == Some("40") && Colour("red", true) == Some("41") && Colour("green", true) == Some("42")
      && Colour("brown", true) == Some("43") && Colour("blue", true) == Some("44") && Colour("magenta", true) == Some("45")
      && Colour("cyan", true) == Some("46") && Colour("white", true) == Some("47")
    ensures Colour("bright" + "black", false) == Some("90") && Colour("bright" + "red", false) == Some("91")
      && Colour("bright" + "green", false) == Some("92") && Colour("bright" + "brown", false) == Some("93")
      && Colour("bright" + "blue", false) == Some("94") && Colour("bright" + "magenta", false) == Some("95")
      && Colour("bright" + "cyan", false) == Some("96") && Colour("bright" + "white", false) == Some("97")
    ensures Colour("bright" + "black", true) == Some("100") && Colour("bright" + "red", true) == Some("101")
      && Colour("bright" + "green", true) == Some("102") && Colour("bright" + "brown", true) == Some("103")
      && Colour("bright" + "blue", true) == Some("104") && Colour("bright" + "magenta", true) == Some("105")
      && Colour("bright" + "cyan", true) == Some("106") && Colour("bright" + "white", true) == Some("107")
    ensures Colour("default", false) == None && Colour("default", true) == None
  {
    hide Colour;
    NumbersOf(0, "black", '0');
    NumbersOf(1, "red", '1');
    NumbersOf(2, "green", '2');
    NumbersOf(3, "brown", '3');
    NumbersOf(4, "blue", '4');
    NumbersOf(5, "magenta", '5');
    NumbersOf(6, "cyan", '6');
    NumbersOf(7, "white", '7');
    DefaultSaysNothing();
  }

  lemma DefaultSaysNothing()
    ensures Colour("default", false) == None && Colour("default", true) == None
  {
  }

  lemma NumbersOf(i: nat, name: string, digit: char)
    requires i < |COLOURS| && name == COLOURS[i] && digit == Decimal.Digit(i)
    ensures Colour(name, false) == Some(['3', digit]) && Colour(name, true) == Some(['4', digit])
    ensures Colour("bright" + name, false) == Some(['9', digit]) && Colour("bright" + name, true) == Some(['1', '0', digit])
  {
    hide Colour, Decimal.Digits;
    NamedNumber(i, false);
    NamedNumber(i, true);
    DigitsAre(30 + i, '3', digit);
    DigitsAre(40 + i, '4', digit);
    DigitsAre(90 + i, '9', digit);
    HundredsAre(100 + i, digit);
  }

  lemma NamedSelected(pen: Pen, value: string, background: bool, i: nat, rest: seq<nat>)
    requires i < |COLOURS| && Unbright(value) == COLOURS[i]
    ensures var n := (if background then 40 else 30) + i + (if Bright(value) then 60 else 0);
      Selected(pen, [n] + rest) == Selected(if background then pen.(bg := value) else pen.(fg := value), rest)
  {
    var n := (if background then 40 else 30) + i + (if Bright(value) then 60 else 0);
    HueOf(i);
    assert ([n] + rest)[1..] == rest;
    if Bright(value) {
      assert value == "bright" + COLOURS[i];
    }
  }

  lemma PairsSelected(pen: Pen, value: string, background: bool, rest: seq<nat>)
    requires Six(value)
    ensures var ns := [if background then 48 else 38, 2, Pair(value, 0), Pair(value, 2), Pair(value, 4)];
      var small := Smalls(value);
      Selected(pen, ns + rest) == Selected(if background then pen.(bg := small) else pen.(fg := small), rest)
  {
    TripleSelected(pen, background, Pair(value, 0), Pair(value, 2), Pair(value, 4), rest);
    SmallWritten(value);
  }

  lemma TripleSelected(pen: Pen, background: bool, r: nat, g: nat, b: nat, rest: seq<nat>)
    ensures var ns := [if background then 48 else 38, 2, r, g, b];
      var named := Byte(r) + Byte(g) + Byte(b);
      Selected(pen, ns + rest) == Selected(if background then pen.(bg := named) else pen.(fg := named), rest)
  {
    hide Byte, Styled;
    var ns := [if background then 48 else 38, 2, r, g, b];
    assert (ns + rest)[5..] == rest;
  }

  lemma SmallWritten(value: string)
    requires Six(value)
    ensures Smalls(value) == Byte(Pair(value, 0)) + Byte(Pair(value, 2)) + Byte(Pair(value, 4))
  {
    PairWritten(value, 0);
    PairWritten(value, 2);
    PairWritten(value, 4);
    hide Byte, Pair, Six, Small;
  }

  /** A terminal reads back the colour that was meant, whatever comes after it. */
  lemma ColourSelected(pen: Pen, value: string, background: bool, rest: seq<nat>)
    requires if background then pen.bg == "default" else pen.fg == "default"
    ensures Selected(pen, Codes(value, background) + rest) ==
      Selected(if background then pen.(bg := Decoded(value)) else pen.(fg := Decoded(value)), rest)
  {
    hide Selected, Index, Unbright, Bright, Pair, Smalls;
    var index := Index(Unbright(value), 0);
    assert COLOURS[0..] == COLOURS;
    if value == "default" {
      assert [] + rest == rest;
    } else if index.Some? {
      NamedSelected(pen, value, background, index.value, rest);
    } else if Six(value) {
      PairsSelected(pen, value, background, rest);
    } else {
      assert [] + rest == rest;
    }
  }

  /** The colour read back is the colour there was exactly where there is a way to say it. */
  lemma ColourKept(value: string)
    ensures Canonical(Decoded(value))
    ensures Decoded(value) == value <==> Canonical(value)
  {
    var d := Decoded(value);
    if value != "default" && Unbright(value) !in COLOURS && Six(value) {
      assert forall i | 0 <= i < 6 :: d[i] == Small(value[i]) && value[i] in value;
      assert forall i | 0 <= i < 6 :: IsHex(d[i]) && !('A' <= d[i] <= 'F');
      if exists c :: c in value && 'A' <= c <= 'F' {
        var i :| 0 <= i < 6 && 'A' <= value[i] <= 'F';
        assert d[i] != value[i];
      } else {
        assert d == value;
      }
    }
  }

  // ------------------------------------------------------------- cells

  /** The parameters of what selects a cell's colours and attributes. */
  function Sgr(pen: Pen): (sgr: seq<string>)
    ensures sgr != []
  {
    ["0"] + (Said(Colour(pen.fg, false)) + (Said(Colour(pen.bg, true)) +
    ((if pen.bold then ["1"] else []) + ((if pen.italics then ["3"] else []) +
    ((if pen.underscore then ["4"] else []) + ((if pen.reverse then ["7"] else []) +
    (if pen.strikethrough then ["9"] else [])))))))
  }

  function Said(code: Option<string>): seq<string> {
    if code.Some? then [code.value] else []
  }

  function Joined(parts: seq<string>): string
    requires parts != []
  {
    if |parts| == 1 then parts[0] else parts[0] + [';'] + Joined(parts[1..])
  }

  /** What comes of the numbers of each part. */
  function Each(parts: seq<string>): seq<nat> {
    if parts == [] then [] else Numbers(0, parts[0]) + Each(parts[1..])
  }

  lemma {:induction false} JoinedNumbers(parts: seq<string>)
    requires parts != []
    ensures Numbers(0, Joined(parts)) == Each(parts)
    decreases |parts|
  {
    hide Numbers;
    if |parts| > 1 {
      NumbersThen(0, parts[0], Joined(parts[1..]));
      JoinedNumbers(parts[1..]);
    } else {
      assert Each(parts[1..]) == [];
    }
  }

  lemma {:induction false} EachThen(a: seq<string>, b: seq<string>)
    ensures Each(a + b) == Each(a) + Each(b)
    decreases |a|
  {
    hide Numbers;
    if a == [] {
      assert a + b == b;
    } else {
      assert (a + b)[1..] == a[1..] + b;
      EachThen(a[1..], b);
    }
  }

  lemma EachSaid(value: string, background: bool)
    ensures Each(Said(Colour(value, background))) == Codes(value, background)
  {
    ColourSays(value, background);
    hide Numbers, Codes, Colour;
    var said := Said(Colour(value, background));
    if said != [] {
      assert said[1..] == [];
    }
  }

  function If(on: bool, n: nat): seq<nat> {
    if on then [n] else []
  }

  function Attributes(pen: Pen): seq<nat> {
    If(pen.bold, 1) + (If(pen.italics, 3) + (If(pen.underscore, 4) + (If(pen.reverse, 7) + If(pen.strikethrough, 9))))
  }

  lemma EachIf(on: bool, code: string, n: nat)
    requires n < 10 && code == [Decimal.Digit(n)]
    ensures Each(if on then [code] else []) == If(on, n)
  {
    assert ([code])[1..] == [];
    assert Decimal.Digits(n) == code;
    OneNumber(n);
  }

  /** Everything said of a pen, as numbers. */
  lemma SgrNumbers(pen: Pen)
    ensures Each(Sgr(pen)) == [0] + (Codes(pen.fg, false) + (Codes(pen.bg, true) + Attributes(pen)))
  {
    var fg, bg := Said(Colour(pen.fg, false)), Said(Colour(pen.bg, true));
    var a1, a2, a3 := if pen.bold then ["1"] else [], if pen.italics then ["3"] else [], if pen.underscore then ["4"] else [];
    var a4, a5 := if pen.reverse then ["7"] else [], if pen.strikethrough then ["9"] else [];
    EachSaid(pen.fg, false);
    EachSaid(pen.bg, true);
    EachIf(pen.bold, "1", 1);
    EachIf(pen.italics, "3", 3);
    EachIf(pen.underscore, "4", 4);
    EachIf(pen.reverse, "7", 7);
    EachIf(pen.strikethrough, "9", 9);
    EachIf(true, "0", 0);
    hide Each, Colour, Codes, Said, If;
    assert Sgr(pen) == ["0"] + (fg + (bg + (a1 + (a2 + (a3 + (a4 + a5))))));
    EachThen(["0"], fg + (bg + (a1 + (a2 + (a3 + (a4 + a5))))));
    EachThen(fg, bg + (a1 + (a2 + (a3 + (a4 + a5)))));
    EachThen(bg, a1 + (a2 + (a3 + (a4 + a5))));
    EachThen(a1, a2 + (a3 + (a4 + a5)));
    EachThen(a2, a3 + (a4 + a5));
    EachThen(a3, a4 + a5);
    EachThen(a4, a5);
    IfTrue(0);
  }

  lemma IfTrue(n: nat)
    ensures If(true, n) == [n]
  {
  }

  lemma OneSelected(pen: Pen, on: bool, n: nat, rest: seq<nat>)
    requires n != 38 && n != 48
    ensures Selected(pen, If(on, n) + rest) == Selected(if on then Styled(pen, n) else pen, rest)
  {
    hide Styled;
    if on {
      assert ([n] + rest)[1..] == rest;
    } else {
      assert [] + rest == rest;
    }
  }

  lemma NoneSelected(pen: Pen)
    ensures Selected(pen, []) == pen
  {
  }

  /** A pen as a terminal reads it back. */
  function Kept(pen: Pen): Pen {
    pen.(fg := Decoded(pen.fg), bg := Decoded(pen.bg))
  }

  /** Whatever was selected before, what is said of a pen selects it. */
  lemma PenSelected(before: Pen, pen: Pen)
    ensures Selected(before, Numbers(0, Joined(Sgr(pen)))) == Kept(pen)
  {
    var a5 := If(pen.strikethrough, 9);
    var a4 := If(pen.reverse, 7) + a5;
    var a3 := If(pen.underscore, 4) + a4;
    var a2 := If(pen.italics, 3) + a3;
    var p1 := PLAIN.(fg := Decoded(pen.fg));
    var p2 := p1.(bg := Decoded(pen.bg));
    var p3 := p2.(bold := pen.bold);
    var p4 := p3.(italics := pen.italics);
    var p5 := p4.(underscore := pen.underscore);
    var p6 := p5.(reverse := pen.reverse);
    JoinedNumbers(Sgr(pen));
    SgrNumbers(pen);
    IfTrue(0);
    hide Selected, Numbers, Joined, Sgr, Each, Codes, If, Decoded;
    var rest := Codes(pen.fg, false) + (Codes(pen.bg, true) + Attributes(pen));
    OneSelected(before, true, 0, rest);
    ColourSelected(PLAIN, pen.fg, false, Codes(pen.bg, true) + Attributes(pen));
    ColourSelected(p1, pen.bg, true, Attributes(pen));
    OneSelected(p2, pen.bold, 1, a2);
    OneSelected(p3, pen.italics, 3, a3);
    OneSelected(p4, pen.underscore, 4, a4);
    OneSelected(p5, pen.reverse, 7, a5);
    assert a5 == a5 + [];
    OneSelected(p6, pen.strikethrough, 9, []);
    NoneSelected(Kept(pen));
  }

  // ------------------------------------------------------------- the redraw

  /** The screen's copy: its cells, where the cursor is, and the modes a redraw sets. The cursor
      stands past the last column where the next character is to go on the next line. */
  datatype Screen = Screen(cells: seq<seq<Cell>>, x: nat, y: nat, visible: bool, alt: bool)
  {
    predicate Sized(rows: nat, cols: nat) {
      && |cells| == rows && (forall i | 0 <= i < rows :: |cells[i]| == cols)
      && y < rows && x <= cols && 0 < cols
    }
  }

  function MoveTo(y: nat, x: nat): string {
    Sequence(Decimal.Digits(y + 1) + [';'] + Decimal.Digits(x + 1), 'H')
  }

  /** What selects a cell's pen, where the cell drawn before it did not. */
  function Selection(sgr: seq<string>, last: seq<string>): string
    requires sgr != []
  {
    if sgr != last then Sequence(Joined(sgr), 'm') else ""
  }

  /** A row from a column on, with what was last selected on it, or nothing. */
  function RowText(row: seq<Cell>, x: nat, last: seq<string>): string
    decreases |row| - x
  {
    if x >= |row| then ""
    else if row[x].data == "" then RowText(row, x + 1, last)
    else Selection(Sgr(row[x].pen), last) + row[x].data + RowText(row, x + 1, Sgr(row[x].pen))
  }

  function RowsText(cells: seq<seq<Cell>>, y: nat): string
    decreases |cells| - y
  {
    if y >= |cells| then "" else MoveTo(y, 0) + RowText(cells[y], 0, []) + RowsText(cells, y + 1)
  }

  function Begins(s: Screen): string {
    (if s.alt then Sequence("?1049", 'h') else "") + Sequence("0", 'm') + Sequence("2", 'J') + Sequence("", 'H')
  }

  function Ends(s: Screen): string {
    Sequence("0", 'm') + MoveTo(s.y, s.x) + Sequence("?25", if s.visible then 'h' else 'l')
  }

  function Repainted(s: Screen): string {
    Begins(s) + RowsText(s.cells, 0) + Ends(s)
  }

  /** The redraw, put together a cell at a time. */
  method Repaint(s: Screen, rows: nat, cols: nat) returns (out: string)
    requires s.Sized(rows, cols)
    ensures out == Repainted(s)
  {
    hide Sequence, Sgr, Joined, MoveTo, Ends, Selection;
    out := (if s.alt then Sequence("?1049", 'h') else "") + Sequence("0", 'm') + Sequence("2", 'J') + Sequence("", 'H');
    for y := 0 to rows
      invariant out + RowsText(s.cells, y) == Begins(s) + RowsText(s.cells, 0)
    {
      var line := s.cells[y];
      ghost var before, rest := out, RowsText(s.cells, y + 1);
      out := out + MoveTo(y, 0);
      var last: seq<string> := [];
      Around(before, MoveTo(y, 0), RowText(line, 0, []), rest);
      for x := 0 to cols
        invariant out + RowText(line, x, last) == before + MoveTo(y, 0) + RowText(line, 0, [])
      {
        var cell := line[x];
        if cell.data == "" {
          continue;
        }
        var sgr := Sgr(cell.pen);
        Around(out, Selection(sgr, last), cell.data, RowText(line, x + 1, sgr));
        SelectionIs(sgr, last);
        assert out + "" == out;
        if sgr != last {
          out := out + Sequence(Joined(sgr), 'm');
          last := sgr;
        }
        out := out + cell.data;
      }
      assert out == out + RowText(line, cols, last);
    }
    assert out == out + RowsText(s.cells, rows);
    out := out + Sequence("0", 'm') + MoveTo(s.y, s.x) + (if s.visible then Sequence("?25", 'h') else Sequence("?25", 'l'));
    EndsWith(s, Begins(s) + RowsText(s.cells, 0));
  }

  lemma Around(a: string, b: string, c: string, d: string)
    ensures a + (b + c + d) == a + b + c + d
  {
  }

  lemma SelectionIs(sgr: seq<string>, last: seq<string>)
    requires sgr != []
    ensures Selection(sgr, last) == if sgr != last then Sequence(Joined(sgr), 'm') else ""
  {
  }

  lemma EndsWith(s: Screen, before: string)
    ensures before + Sequence("0", 'm') + MoveTo(s.y, s.x) + Sequence("?25", if s.visible then 'h' else 'l') == before + Ends(s)
  {
  }

  // ------------------------------------------------------------- one screen, as it is sent

  const LOUD := Pen("red", "00ff80", true, true, true, true, true)

  lemma HexSaid(value: string, r: nat, g: nat, b: nat)
    requires Six(value) && Index(Unbright(value), 0) == None && value != "default"
    requires Pair(value, 0) == r && Pair(value, 2) == g && Pair(value, 4) == b
    ensures Colour(value, true) == Some("48" + ";2;" + Decimal.Digits(r) + ";" + Decimal.Digits(g) + ";" + Decimal.Digits(b))
  {
    DigitsAre(48, '4', '8');
    hide Index, Unbright, Pair, Six;
  }

  lemma LoudPairs()
    ensures var value := "00ff80";
      && Six(value) && Unbright(value) == value && Pair(value, 0) == 0 && Pair(value, 2) == 255 && Pair(value, 4) == 128
  {
    var value := "00ff80";
    assert value[0] == '0' && value[1] == '0' && value[2] == 'f' && value[3] == 'f' && value[4] == '8' && value[5] == '0';
  }

  lemma LoudColours()
    ensures Colour("red", false) == Some("31") && Colour("00ff80", true) == Some("48;2;0;255;128")
  {
    hide Index, Unbright, Pair, Six, Colour, Decimal.Digits;
    SixteenNumbers();
    LoudPairs();
    NotNamed();
    HexSaid("00ff80", 0, 255, 128);
    ThreeDigits(255, '2', '5', '5');
    ThreeDigits(128, '1', '2', '8');
    ZeroDigits();
    assert "48" + ";2;" + "0" + ";" + "255" + ";" + "128" == "48;2;0;255;128";
  }

  lemma ZeroDigits()
    ensures Decimal.Digits(0) == "0"
  {
  }

  lemma NotNamed()
    ensures Index("00ff80", 0) == None && "00ff80" != "default"
  {
    var name := "00ff80";
    assert name[0] == '0' && COLOURS[0..] == COLOURS;
    assert forall i | 0 <= i < |COLOURS| :: COLOURS[i][0] != '0';
  }

  lemma ThreeDigits(n: nat, a: char, b: char, c: char)
    requires 100 <= n < 1000 && a == Decimal.Digit(n / 100) && b == Decimal.Digit(n / 10 % 10) && c == Decimal.Digit(n % 10)
    ensures Decimal.Digits(n) == [a, b, c]
  {
    DigitsAre(n / 10, a, b);
  }

  lemma LoudSaid()
    ensures Joined(Sgr(LOUD)) == "0;31;48;2;0;255;128;1;3;4;7;9" && Joined(Sgr(PLAIN)) == "0"
    ensures Sgr(LOUD) != Sgr(PLAIN)
  {
    hide Sgr, Joined;
    LoudSgr();
    LoudJoined();
    OneJoined("0");
  }

  lemma LoudSgr()
    ensures Sgr(LOUD) == ["0", "31", "48;2;0;255;128", "1", "3", "4", "7", "9"] && Sgr(PLAIN) == ["0"]
  {
    LoudColours();
    DefaultSaysNothing();
    hide Colour;
  }

  lemma OneJoined(a: string)
    ensures Joined([a]) == a
  {
  }

  lemma LoudEnd()
    ensures Joined(["3", "4", "7", "9"]) == "3;4;7;9"
  {
    hide Joined;
    OneJoined("9");
    JoinedAs(["7", "9"], "9", "7;9");
    JoinedAs(["4", "7", "9"], "7;9", "4;7;9");
    JoinedAs(["3", "4", "7", "9"], "4;7;9", "3;4;7;9");
  }

  lemma LoudMiddle()
    ensures Joined(["48;2;0;255;128", "1", "3", "4", "7", "9"]) == "48;2;0;255;128;1;3;4;7;9"
  {
    hide Joined;
    LoudEnd();
    JoinedAs(["1", "3", "4", "7", "9"], "3;4;7;9", "1;3;4;7;9");
    JoinedAs(["48;2;0;255;128", "1", "3", "4", "7", "9"], "1;3;4;7;9", "48;2;0;255;128;1;3;4;7;9");
  }

  lemma LoudGround()
    ensures Joined(["31", "48;2;0;255;128", "1", "3", "4", "7", "9"]) == "31;48;2;0;255;128;1;3;4;7;9"
  {
    hide Joined;
    LoudMiddle();
    JoinedAs(["31", "48;2;0;255;128", "1", "3", "4", "7", "9"], "48;2;0;255;128;1;3;4;7;9",
             "31;48;2;0;255;128;1;3;4;7;9");
  }

  lemma LoudJoined()
    ensures Joined(["0", "31", "48;2;0;255;128", "1", "3", "4", "7", "9"]) == "0;31;48;2;0;255;128;1;3;4;7;9"
  {
    hide Joined;
    LoudGround();
    JoinedAs(["0", "31", "48;2;0;255;128", "1", "3", "4", "7", "9"], "31;48;2;0;255;128;1;3;4;7;9",
             "0;31;48;2;0;255;128;1;3;4;7;9");
  }

  lemma JoinedAs(parts: seq<string>, said: string, whole: string)
    requires |parts| > 1 && Joined(parts[1..]) == said && whole == parts[0] + ";" + said
    ensures Joined(parts) == whole
  {
  }

  /** A line of three cells, the first two alike in every colour and attribute and the third in none,
      of a screen with its cursor hidden, as it is sent. */
  lemma OneScreen()
    ensures var s := Screen([[Cell("a", LOUD), Cell("b", LOUD), Cell("c", PLAIN)]], 1, 0, false, true);
      Repainted(s) ==
        "\U{1B}[?1049h" + "\U{1B}[0m" + "\U{1B}[2J" + "\U{1B}[H"
        + ("\U{1B}[1;1H" + ("\U{1B}[0;31;48;2;0;255;128;1;3;4;7;9m" + "a" + ("b" + ("\U{1B}[0m" + "c"))))
        + ("\U{1B}[0m" + "\U{1B}[1;2H" + "\U{1B}[?25l")
  {
    var row := [Cell("a", LOUD), Cell("b", LOUD), Cell("c", PLAIN)];
    var s := Screen([row], 1, 0, false, true);
    hide RowText, RowsText, MoveTo, Begins, Ends;
    LoudRow();
    Moves();
    RowsOfOne(row);
    LoudEnds(s);
  }

  lemma RowsOfOne(row: seq<Cell>)
    ensures RowsText([row], 0) == MoveTo(0, 0) + RowText(row, 0, [])
  {
    hide RowText, MoveTo;
    assert RowsText([row], 1) == "";
    assert RowsText([row], 0) == MoveTo(0, 0) + RowText(row, 0, []) + "";
  }

  lemma LoudEnds(s: Screen)
    requires s.x == 1 && s.y == 0 && !s.visible && s.alt
    ensures Begins(s) == "\U{1B}[?1049h" + "\U{1B}[0m" + "\U{1B}[2J" + "\U{1B}[H"
    ensures Ends(s) == "\U{1B}[0m" + "\U{1B}[1;2H" + "\U{1B}[?25l"
  {
    Moves();
    hide MoveTo;
  }

  lemma LoudRow()
    ensures RowText([Cell("a", LOUD), Cell("b", LOUD), Cell("c", PLAIN)], 0, [])
            == "\U{1B}[0;31;48;2;0;255;128;1;3;4;7;9m" + "a" + ("b" + ("\U{1B}[0m" + "c"))
  {
    LoudSaid();
    hide Sgr, Joined, Sequence;
    var row := [Cell("a", LOUD), Cell("b", LOUD), Cell("c", PLAIN)];
    var loud, plain := Sgr(LOUD), Sgr(PLAIN);
    LoudSequences();
    RowLast(row, plain);
    CellDrawn(row, 2, loud);
    CellDrawn(row, 1, loud);
    CellDrawn(row, 0, []);
    hide RowText;
    assert "" + "b" == "b" && Sequence("0", 'm') + "c" + "" == Sequence("0", 'm') + "c";
  }

  lemma LoudSequences()
    ensures Sequence("0", 'm') == "\U{1B}[0m"
    ensures Sequence("0;31;48;2;0;255;128;1;3;4;7;9", 'm') == "\U{1B}[0;31;48;2;0;255;128;1;3;4;7;9m"
  {
  }

  lemma RowLast(row: seq<Cell>, last: seq<string>)
    ensures RowText(row, |row|, last) == ""
  {
  }

  lemma CellDrawn(row: seq<Cell>, x: nat, last: seq<string>)
    requires x < |row| && row[x].data != ""
    ensures RowText(row, x, last) ==
      (if Sgr(row[x].pen) != last then Sequence(Joined(Sgr(row[x].pen)), 'm') else "")
      + row[x].data + RowText(row, x + 1, Sgr(row[x].pen))
  {
  }

  lemma Moves()
    ensures MoveTo(0, 0) == "\U{1B}[1;1H" && MoveTo(0, 1) == "\U{1B}[1;2H"
  {
    assert Decimal.Digits(1) == "1" && Decimal.Digits(2) == "2";
  }
}
