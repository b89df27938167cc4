/**
 What a terminal makes of a redraw: the screen it was drawn from, exactly where every row of that
 screen is one a terminal could have been drawn into from nothing.
 */
module Redraw {
  import Decimal
  import opened Display
  import opened Repaint

  predicate IsWide(w: char -> Width, cell: Cell) {
    cell.data != "" && w(cell.data[0]) == Wide
  }

  predicate Sayable(pen: Pen) {
    Canonical(pen.fg) && Canonical(pen.bg)
  }

  /** A cell a redraw can draw where it is: in colours there is a way to say, empty only right of
      a wide character drawn like it, and with nothing of its own right of it where it is one. */
  predicate Good(w: char -> Width, row: seq<Cell>, i: nat)
    requires i < |row|
  {
    && Sayable(row[i].pen)
    && (row[i].data == "" ==> i > 0 && IsWide(w, row[i - 1]) && row[i - 1].pen == row[i].pen)
    && (IsWide(w, row[i]) && i + 1 < |row| ==> row[i + 1].data == "")
  }

  predicate WellFormed(w: char -> Width, row: seq<Cell>) {
    forall i | 0 <= i < |row| :: Good(w, row, i)
  }

  predicate Texts(w: char -> Width, row: seq<Cell>) {
    forall i | 0 <= i < |row| :: row[i].data == "" || Text(w, row[i].data)
  }

  // ------------------------------------------------------------- what each part of it does

  /** The pen a selection leaves, whatever was there before. */
  function PenOf(sgr: seq<string>): Pen
    requires sgr != []
  {
    Selected(PLAIN, Numbers(0, Joined(sgr)))
  }

  /** A row's cells put on the screen one after another, each wherever the cursor then is. */
  function Painted(w: char -> Width, t: Terminal, row: seq<Cell>, x: nat, last: seq<string>, rows: nat,
          cols: nat): (r: Terminal)
    requires t.Sized(rows, cols)
    ensures r.Sized(rows, cols)
    decreases |row| - x
  {
    if x >= |row| then t
    else if row[x].data == "" then Painted(w, t, row, x + 1, last, rows, cols)
    else
      Painted(w, Put(w, t, row[x], last, rows, cols), row, x + 1, Sgr(row[x].pen), rows, cols)
  }

  function Put(w: char -> Width, t: Terminal, cell: Cell, last: seq<string>, rows: nat, cols: nat): (r: Terminal)
    requires t.Sized(rows, cols) && cell.data != ""
    ensures r.Sized(rows, cols)
  {
    var t1 := if Sgr(cell.pen) != last then t.(pen := PenOf(Sgr(cell.pen))) else t;
    Placed(if t1.x == cols then Wrapped(t1, rows, cols) else t1, cell.data, IsWide(w, cell), rows, cols)
  }

  function Rows(w: char -> Width, t: Terminal, cells: seq<seq<Cell>>, y: nat, rows: nat, cols: nat): (r: Terminal)
    requires t.Sized(rows, cols) && |cells| == rows
    ensures r.Sized(rows, cols)
    decreases rows - y
  {
    if y >= rows then t
    else Rows(w, Painted(w, t.(y := y, x := 0), cells[y], 0, [], rows, cols), cells, y + 1, rows, cols)
  }

  lemma ParametersJoin(a: string, b: string)
    requires Parameters(a) && Parameters(b)
    ensures Parameters(a + [';'] + b)
  {
  }

  lemma {:induction false} JoinedParameters(parts: seq<string>)
    requires parts != [] && forall p | p in parts :: Parameters(p)
    ensures Parameters(Joined(parts))
    decreases |parts|
  {
    hide Parameters;
    assert parts[0] in parts;
    if |parts| > 1 {
      JoinedParameters(parts[1..]);
      ParametersJoin(parts[0], Joined(parts[1..]));
    }
  }

  lemma DigitsParameters(n: nat)
    ensures Parameters(Decimal.Digits(n))
  {
  }

  lemma ColourParameters(value: string, background: bool)
    ensures Colour(value, background).Some? ==> Parameters(Colour(value, background).value)
  {
    hide Index, Unbright, Bright, Pair;
  }

  lemma SgrParameters(pen: Pen)
    ensures forall p | p in Sgr(pen) :: Parameters(p)
  {
    ColourParameters(pen.fg, false);
    ColourParameters(pen.bg, true);
    hide Colour;
  }

  /** A selection sent is a pen selected, and where it was not sent it already was. */
  lemma SelectionSent(w: char -> Width, t: Terminal, pen: Pen, last: seq<string>, rows: nat, cols: nat)
    requires t.Sized(rows, cols) && t.at == Ground
    ensures PenOf(Sgr(pen)) == Kept(pen)
    ensures Fed(w, t, Selection(Sgr(pen), last), rows, cols) == if Sgr(pen) != last then t.(pen := PenOf(Sgr(pen))) else t
  {
    SgrParameters(pen);
    JoinedParameters(Sgr(pen));
    PenSelected(PLAIN, pen);
    PenSelected(t.pen, pen);
    NoQuestion(Joined(Sgr(pen)), Sgr(pen));
    SequenceObeyed(w, t, Joined(Sgr(pen)), 'm', rows, cols);
    hide Sgr, Joined, Selected, Numbers, Sequence, Parameters;
  }

  lemma NoQuestion(body: string, parts: seq<string>)
    requires parts != [] && parts[0] == "0" && body == Joined(parts)
    ensures body != "" && body[0] != '?'
  {
  }

  lemma PutSent(w: char -> Width, t: Terminal, cell: Cell, last: seq<string>, rows: nat, cols: nat)
    requires t.Sized(rows, cols) && t.at == Ground && Text(w, cell.data)
    ensures Fed(w, t, Selection(Sgr(cell.pen), last) + cell.data, rows, cols) == Put(w, t, cell, last, rows, cols)
    ensures Put(w, t, cell, last, rows, cols).at == Ground
  {
    hide Selection, Sgr, PenOf, Fed, Text, Placed, Wrapped, Kept;
    SelectionSent(w, t, cell.pen, last, rows, cols);
    var t1 := if Sgr(cell.pen) != last then t.(pen := PenOf(Sgr(cell.pen))) else t;
    FedThen(w, t, Selection(Sgr(cell.pen), last), cell.data, rows, cols);
    TextPlaced(w, t1, cell.data, rows, cols);
    TextSome(w, cell.data);
    PutOutside(w, t, cell, last, rows, cols);
  }

  lemma PutOutside(w: char -> Width, t: Terminal, cell: Cell, last: seq<string>, rows: nat, cols: nat)
    requires t.Sized(rows, cols) && cell.data != ""
    ensures Put(w, t, cell, last, rows, cols).at == t.at
  {
    hide Sgr, PenOf;
  }

  lemma TextSome(w: char -> Width, data: string)
    requires Text(w, data)
    ensures data != ""
  {
  }

  /** A row's text does to a terminal what putting its cells there does. */
  lemma {:induction false} RowSent(w: char -> Width, t: Terminal, row: seq<Cell>, x: nat, last: seq<string>,
          rows: nat, cols: nat)
    requires t.Sized(rows, cols) && t.at == Ground && Texts(w, row)
    ensures Fed(w, t, RowText(row, x, last), rows, cols) == Painted(w, t, row, x, last, rows, cols)
    ensures Painted(w, t, row, x, last, rows, cols).at == Ground
    decreases |row| - x
  {
    if x < |row| {
      if row[x].data == "" {
        RowSent(w, t, row, x + 1, last, rows, cols);
      } else {
        var sgr := Sgr(row[x].pen);
        PutSent(w, t, row[x], last, rows, cols);
        hide Put, Sgr, Selection, Fed;
        FedThen(w, t, Selection(sgr, last) + row[x].data, RowText(row, x + 1, sgr), rows, cols);
        RowSent(w, Put(w, t, row[x], last, rows, cols), row, x + 1, sgr, rows, cols);
      }
    }
  }

  /** The cursor moved, to the nearest place there is. */
  lemma Moves(w: char -> Width, t: Terminal, y: nat, x: nat, rows: nat, cols: nat)
    requires t.Sized(rows, cols) && t.at == Ground && y < rows
    ensures Fed(w, t, MoveTo(y, x), rows, cols) == t.(y := y, x := if x < cols then x else cols - 1)
  {
    var a, b := Decimal.Digits(y + 1), Decimal.Digits(x + 1);
    DigitsParameters(y + 1);
    DigitsParameters(x + 1);
    ParametersJoin(a, b);
    OneNumber(y + 1);
    OneNumber(x + 1);
    NumbersThen(0, a, b);
    assert a[0] in a && a[0] != '?' && (a + [';'] + b)[0] == a[0];
    SequenceObeyed(w, t, a + [';'] + b, 'H', rows, cols);
    hide Fed, Numbers, Parameters, Sequence, Decimal.Digits;
  }

  lemma {:induction false} RowsSent(w: char -> Width, t: Terminal, cells: seq<seq<Cell>>, y: nat, rows: nat, cols: nat)
    requires t.Sized(rows, cols) && t.at == Ground && |cells| == rows && forall row | row in cells :: Texts(w, row)
    ensures Fed(w, t, RowsText(cells, y), rows, cols) == Rows(w, t, cells, y, rows, cols)
    ensures Rows(w, t, cells, y, rows, cols).at == Ground
    decreases rows - y
  {
    if y < rows {
      var t1 := t.(y := y, x := 0);
      var move, row := MoveTo(y, 0), RowText(cells[y], 0, []);
      Moves(w, t, y, 0, rows, cols);
      RowSent(w, t1, cells[y], 0, [], rows, cols);
      var t2 := Painted(w, t1, cells[y], 0, [], rows, cols);
      RowsSent(w, t2, cells, y + 1, rows, cols);
      hide Fed, MoveTo, RowText, Painted, Texts;
      FedThen(w, t, move, row, rows, cols);
      FedThen(w, t, move + row, RowsText(cells, y + 1), rows, cols);
    }
  }

  /** Cleared, with the cursor at the start of it and nothing selected. */
  function Cleared(t: Terminal, s: Screen, rows: nat, cols: nat): (r: Terminal)
    requires t.Sized(rows, cols)
    ensures r.Sized(rows, cols)
  {
    t.(cells := seq(rows, _ => Blank(cols, PLAIN)), x := 0, y := 0, pen := PLAIN, alt := t.alt || s.alt)
  }

  lemma Plain(w: char -> Width, t: Terminal, rows: nat, cols: nat)
    requires t.Sized(rows, cols) && t.at == Ground
    ensures Fed(w, t, Sequence("0", 'm'), rows, cols) == t.(pen := PLAIN)
  {
    Asked();
    SequenceObeyed(w, t, "0", 'm', rows, cols);
    hide Fed, Sequence, Numbers, Selected;
  }

  lemma Clears(w: char -> Width, t: Terminal, rows: nat, cols: nat)
    requires t.Sized(rows, cols) && t.at == Ground && t.pen == PLAIN
    ensures Fed(w, t, Sequence("2", 'J'), rows, cols) == t.(cells := seq(rows, _ => Blank(cols, PLAIN)))
  {
    Asked();
    SequenceObeyed(w, t, "2", 'J', rows, cols);
    hide Fed, Sequence, Numbers, Selected;
    assert seq(rows, _ => Blank(cols, t.pen)) == seq(rows, _ => Blank(cols, PLAIN));
  }

  lemma Homes(w: char -> Width, t: Terminal, rows: nat, cols: nat)
    requires t.Sized(rows, cols) && t.at == Ground
    ensures Fed(w, t, Sequence("", 'H'), rows, cols) == t.(x := 0, y := 0)
  {
    Asked();
    SequenceObeyed(w, t, "", 'H', rows, cols);
    hide Fed, Sequence, Numbers, Selected;
  }

  lemma Alternates(w: char -> Width, t: Terminal, on: bool, rows: nat, cols: nat)
    requires t.Sized(rows, cols) && t.at == Ground
    ensures Fed(w, t, if on then Sequence("?1049", 'h') else "", rows, cols) == t.(alt := t.alt || on)
  {
    Asked();
    if on {
      SequenceObeyed(w, t, "?1049", 'h', rows, cols);
      hide Fed, Sequence, Numbers, Selected;
    }
  }

  lemma BeginsSent(w: char -> Width, t: Terminal, s: Screen, rows: nat, cols: nat)
    requires t.Sized(rows, cols) && t.at == Ground
    ensures Fed(w, t, Begins(s), rows, cols) == Cleared(t, s, rows, cols)
  {
    var t1 := t.(alt := t.alt || s.alt);
    var t2 := t1.(pen := PLAIN);
    var t3 := t2.(cells := seq(rows, _ => Blank(cols, PLAIN)));
    Alternates(w, t, s.alt, rows, cols);
    Plain(w, t1, rows, cols);
    Clears(w, t2, rows, cols);
    Homes(w, t3, rows, cols);
    hide Fed, Sequence, Numbers, Selected, Blank;
    var begin := if s.alt then Sequence("?1049", 'h') else "";
    FedThen(w, t, begin, Sequence("0", 'm'), rows, cols);
    FedThen(w, t, begin + Sequence("0", 'm'), Sequence("2", 'J'), rows, cols);
    FedThen(w, t, begin + Sequence("0", 'm') + Sequence("2", 'J'), Sequence("", 'H'), rows, cols);
  }

  /** The sequences that say the same each time. */
  lemma Asked()
    ensures Numbers(0, "?1049"[1..]) == [1049] && Numbers(0, "?25"[1..]) == [25]
    ensures Numbers(0, "0") == [0] && Numbers(0, "2") == [2] && Numbers(0, "") == [0]
    ensures forall pen :: Selected(pen, [0]) == PLAIN
  {
    assert "?1049"[1..] == Decimal.Digits(1049) by {
      assert Decimal.Digits(10) == "10";
      assert Decimal.Digits(104) == "104";
    }
    assert "?25"[1..] == Decimal.Digits(25) && Decimal.Digits(0) == "0" && Decimal.Digits(2) == "2";
    OneNumber(1049);
    OneNumber(25);
    OneNumber(0);
    OneNumber(2);
    forall pen ensures Selected(pen, [0]) == PLAIN {
      assert ([0])[1..] == [];
    }
  }

  lemma EndsSent(w: char -> Width, t: Terminal, s: Screen, rows: nat, cols: nat)
    requires t.Sized(rows, cols) && s.Sized(rows, cols) && t.at == Ground
    ensures Fed(w, t, Ends(s), rows, cols) ==
      t.(pen := PLAIN, y := s.y, x := if s.x < cols then s.x else cols - 1, visible := s.visible)
  {
    var t1 := t.(pen := PLAIN);
    var t2 := t1.(y := s.y, x := if s.x < cols then s.x else cols - 1);
    Plain(w, t, rows, cols);
    Moves(w, t1, s.y, s.x, rows, cols);
    Asked();
    SequenceObeyed(w, t2, "?25", if s.visible then 'h' else 'l', rows, cols);
    hide Fed, Sequence, Numbers, Selected, MoveTo;
    FedThen(w, t, Sequence("0", 'm'), MoveTo(s.y, s.x), rows, cols);
    FedThen(w, t, Sequence("0", 'm') + MoveTo(s.y, s.x), Sequence("?25", if s.visible then 'h' else 'l'), rows, cols);
  }

  // ------------------------------------------------------------- well-formed rows come back

  lemma KeptWhereSayable(pen: Pen)
    ensures Sayable(Kept(pen)) && (Kept(pen) == pen <==> Sayable(pen))
    ensures PenOf(Sgr(pen)) == Kept(pen)
  {
    ColourKept(pen.fg);
    ColourKept(pen.bg);
    PenSelected(PLAIN, pen);
  }

  /** A well-formed row drawn from the start of a cell of it on: that much of it is on the screen
      as it is, and nothing else is touched. */
  lemma {:induction false} RowDrawn(w: char -> Width, t: Terminal, row: seq<Cell>, x: nat, last: seq<string>,
          rows: nat, cols: nat)
    requires t.Sized(rows, cols) && |row| == cols && t.x == x && WellFormed(w, row)
    requires x < cols ==> row[x].data != ""
    requires last != [] ==> t.pen == PenOf(last)
    ensures var r := Painted(w, t, row, x, last, rows, cols);
      r.cells == t.cells[t.y := t.cells[t.y][..x] + row[x..]] && r.y == t.y
    decreases cols - x
  {
    hide Sgr, PenOf, Put, WellFormed;
    if x < cols {
      var sgr, r := Sgr(row[x].pen), Put(w, t, row[x], last, rows, cols);
      PutDrawn(w, t, row, last, rows, cols);
      if r.x == x + 1 {
        RowDrawn(w, r, row, x + 1, sgr, rows, cols);
      } else {
        RowDrawn(w, r, row, x + 2, sgr, rows, cols);
        assert Painted(w, r, row, x + 1, sgr, rows, cols) == Painted(w, r, row, x + 2, sgr, rows, cols);
      }
      OverlaidOn(t.cells[t.y], row, x, r.x);
    } else {
      assert t.cells[t.y][..x] + row[x..] == t.cells[t.y];
    }
  }

  lemma OverlaidOn<T>(under: seq<T>, row: seq<T>, x: nat, y: nat)
    requires |under| == |row| && x <= y <= |row|
    ensures (under[..x] + row[x..y] + under[y..])[..y] + row[y..] == under[..x] + row[x..]
  {
  }

  /** A character of a row drawn where it is on the row, with the right half of it if any. */
  predicate Overlaid(t: Terminal, r: Terminal, row: seq<Cell>, rows: nat, cols: nat)
    requires t.Sized(rows, cols) && r.Sized(rows, cols) && |row| == cols && t.x < cols
  {
    && r.y == t.y
    && (r.x == t.x + 1 || (r.x == t.x + 2 <= cols && row[t.x + 1].data == ""))
    && (r.x < cols ==> row[r.x].data != "")
    && r.cells == t.cells[t.y := t.cells[t.y][..t.x] + row[t.x..r.x] + t.cells[t.y][r.x..]]
  }

  /** A well-formed row's next character put in its place, with the right half of it if any. */
  lemma PutDrawn(w: char -> Width, t: Terminal, row: seq<Cell>, last: seq<string>, rows: nat, cols: nat)
    requires t.Sized(rows, cols) && |row| == cols && t.x < cols && WellFormed(w, row) && row[t.x].data != ""
    requires last != [] ==> t.pen == PenOf(last)
    ensures Overlaid(t, Put(w, t, row[t.x], last, rows, cols), row, rows, cols)
    ensures Put(w, t, row[t.x], last, rows, cols).pen == PenOf(Sgr(row[t.x].pen))
  {
    hide Sgr, PenOf, Kept, Sayable, WellFormed, IsWide, Placed, Put;
    var x := t.x;
    var t1 := t.(pen := PenOf(Sgr(row[x].pen)));
    PutPlaced(w, t, row[x], last, rows, cols);
    NextDrawn(w, row, x);
    KeptWhereSayable(row[x].pen);
    PlacedOver(t1, row[x].data, IsWide(w, row[x]), rows, cols);
    assert Cell(row[x].data, t1.pen) == row[x];
  }

  lemma PutPlaced(w: char -> Width, t: Terminal, cell: Cell, last: seq<string>, rows: nat, cols: nat)
    requires t.Sized(rows, cols) && t.x < cols && cell.data != ""
    requires last != [] ==> t.pen == PenOf(last)
    ensures Put(w, t, cell, last, rows, cols) == Placed(t.(pen := PenOf(Sgr(cell.pen))), cell.data, IsWide(w, cell), rows, cols)
  {
    hide Sgr, PenOf, Placed, IsWide;
    assert Sgr(cell.pen) == last ==> t.(pen := PenOf(last)) == t;
  }

  lemma NextDrawn(w: char -> Width, row: seq<Cell>, x: nat)
    requires WellFormed(w, row) && x < |row| && row[x].data != ""
    ensures var put := [row[x]] + if IsWide(w, row[x]) && x + 1 < |row| then [Cell("", row[x].pen)] else [];
      && Sayable(row[x].pen) && x + |put| <= |row|
      && put == row[x..x + |put|] && (x + |put| < |row| ==> row[x + |put|].data != "")
  {
    assert Good(w, row, x) && (x + 1 < |row| ==> Good(w, row, x + 1)) && (x + 2 < |row| ==> Good(w, row, x + 2));
  }

  lemma PlacedOver(t: Terminal, data: string, wide: bool, rows: nat, cols: nat)
    requires t.Sized(rows, cols) && t.x < cols
    ensures var r := Placed(t, data, wide, rows, cols);
      var put := [Cell(data, t.pen)] + if wide && t.x + 1 < cols then [Cell("", t.pen)] else [];
      && r == t.(cells := r.cells, x := t.x + |put|) && r.x <= cols
      && r.cells == t.cells[t.y := t.cells[t.y][..t.x] + put + t.cells[t.y][r.x..]]
  {
    var r := Placed(t, data, wide, rows, cols);
    var put := [Cell(data, t.pen)] + if wide && t.x + 1 < cols then [Cell("", t.pen)] else [];
    assert r.cells[t.y] == t.cells[t.y][..t.x] + put + t.cells[t.y][r.x..];
  }

  // ------------------------------------------------------------- and no others do

  /** Nothing on a row but what has been drawn on it so far, from its start. */
  predicate Tidy(w: char -> Width, t: Terminal)
    requires t.y < |t.cells|
  {
    && WellFormed(w, t.cells[t.y])
    && forall i | t.x <= i < |t.cells[t.y]| :: t.cells[t.y][i] == BLANK
  }

  predicate Spaced(w: char -> Width) {
    w(' ') == Narrow
  }

  lemma PutTidy(w: char -> Width, t: Terminal, data: string, wide: bool, rows: nat, cols: nat)
    requires t.Sized(rows, cols) && t.x < cols && Tidy(w, t) && Sayable(t.pen) && data != ""
    requires wide == (w(data[0]) == Wide)
    requires Spaced(w)
    ensures Tidy(w, Placed(t, data, wide, rows, cols))
  {
    hide Sayable, Canonical;
    var r := Placed(t, data, wide, rows, cols);
    var row, row' := t.cells[t.y], r.cells[t.y];
    assert r.y == t.y;
    PlainSayable();
    forall i | 0 <= i < cols ensures Good(w, row', i) {
      assert Good(w, row, i) && Good(w, row, t.x) && (i > 0 ==> Good(w, row, i - 1));
    }
  }

  lemma PlainSayable()
    ensures Sayable(PLAIN)
  {
  }

  lemma BlankTidy(w: char -> Width, t: Terminal, cols: nat)
    requires t.y < |t.cells| && t.cells[t.y] == Blank(cols, PLAIN) && Spaced(w)
    ensures Tidy(w, t)
  {
    PlainSayable();
    hide Sayable;
  }

  /** A row above the last, drawn with the cursor having gone on to the next row or not: nothing
      above it changes, and it is itself left well-formed where nothing was on it. */
  lemma {:induction false} RowBounded(w: char -> Width, t: Terminal, row: seq<Cell>, x: nat, last: seq<string>,
          y: nat, rows: nat, cols: nat)
    requires t.Sized(rows, cols) && |row| == cols && y + 1 < rows && Spaced(w)
    requires (t.y == y && t.x <= 2 * x) || (t.y == y + 1 && cols + t.x <= 2 * x)
    requires last != [] ==> Sayable(t.pen)
    requires x <= cols
    ensures var r := Painted(w, t, row, x, last, rows, cols);
      && (forall i | 0 <= i < y :: r.cells[i] == t.cells[i])
      && (t.y == y && Tidy(w, t) ==> WellFormed(w, r.cells[y]))
      && (t.y == y + 1 ==> r.cells[y] == t.cells[y])
    decreases cols - x
  {
    hide Sgr, Put, Tidy, WellFormed, Sayable;
    if t.y == y && Tidy(w, t) {
      TidyFormed(w, t);
    }
    if x < cols {
      if row[x].data == "" {
        RowBounded(w, t, row, x + 1, last, y, rows, cols);
      } else {
        var sgr, r := Sgr(row[x].pen), Put(w, t, row[x], last, rows, cols);
        PutBounded(w, t, row[x], last, y, rows, cols);
        RowBounded(w, r, row, x + 1, sgr, y, rows, cols);
      }
    }
  }

  lemma PutBounded(w: char -> Width, t: Terminal, cell: Cell, last: seq<string>, y: nat, rows: nat, cols: nat)
    requires t.Sized(rows, cols) && y + 1 < rows && cell.data != "" && Spaced(w)
    requires t.y == y || (t.y == y + 1 && t.x < cols)
    requires last != [] ==> Sayable(t.pen)
    ensures var r := Put(w, t, cell, last, rows, cols);
      && Sayable(r.pen)
      && (forall i | 0 <= i < y :: r.cells[i] == t.cells[i])
      && (if t.y == y && t.x < cols then r.y == y && r.x <= t.x + 2 else r.y == y + 1 && r.x <= (if t.y == y then 2 else t.x + 2))
      && (t.y == y && t.x < cols && Tidy(w, t) ==> Tidy(w, r))
      && (r.y == y + 1 ==> r.cells[y] == t.cells[y])
  {
    KeptWhereSayable(cell.pen);
    hide Sgr, PenOf, Kept, Tidy, Sayable;
    var t1 := if Sgr(cell.pen) != last then t.(pen := PenOf(Sgr(cell.pen))) else t;
    if t.y == y && t.x < cols && Tidy(w, t) {
      TidyWhatever(w, t, t1);
      PutTidy(w, t1, cell.data, IsWide(w, cell), rows, cols);
    }
  }

  lemma TidyFormed(w: char -> Width, t: Terminal)
    requires t.y < |t.cells| && Tidy(w, t)
    ensures WellFormed(w, t.cells[t.y])
  {
  }

  lemma TidyWhatever(w: char -> Width, t: Terminal, t': Terminal)
    requires t.y < |t.cells| && Tidy(w, t) && t' == t.(pen := t'.pen)
    ensures Tidy(w, t')
  {
  }

  /** The last row: either nothing above it changes, or everything goes up and what is on it at
      the end was drawn on a new row. */
  lemma {:induction false} LastBounded(w: char -> Width, t: Terminal, row: seq<Cell>, x: nat, last: seq<string>,
          rows: nat, cols: nat)
    requires t.Sized(rows, cols) && |row| == cols && t.y + 1 == rows && Spaced(w)
    requires last != [] ==> Sayable(t.pen)
    ensures var r := Painted(w, t, row, x, last, rows, cols);
      && r.y == t.y
      && (Tidy(w, t) ==> Tidy(w, r))
      && ((forall i | 0 <= i < t.y :: r.cells[i] == t.cells[i]) || Tidy(w, r))
    decreases cols - x
  {
    hide Sgr, Put, Tidy, Sayable;
    if x < cols {
      if row[x].data == "" {
        LastBounded(w, t, row, x + 1, last, rows, cols);
      } else {
        var sgr, r := Sgr(row[x].pen), Put(w, t, row[x], last, rows, cols);
        PutLast(w, t, row[x], last, rows, cols);
        LastBounded(w, r, row, x + 1, sgr, rows, cols);
      }
    }
  }

  lemma PutLast(w: char -> Width, t: Terminal, cell: Cell, last: seq<string>, rows: nat, cols: nat)
    requires t.Sized(rows, cols) && t.y + 1 == rows && cell.data != "" && Spaced(w)
    requires last != [] ==> Sayable(t.pen)
    ensures var r := Put(w, t, cell, last, rows, cols);
      && Sayable(r.pen) && r.y == t.y
      && (Tidy(w, t) ==> Tidy(w, r))
      && ((forall i | 0 <= i < t.y :: r.cells[i] == t.cells[i]) || Tidy(w, r))
  {
    KeptWhereSayable(cell.pen);
    hide Sgr, PenOf, Kept, Tidy, Sayable;
    var t1 := if Sgr(cell.pen) != last then t.(pen := PenOf(Sgr(cell.pen))) else t;
    if t.x == cols {
      BlankTidy(w, Wrapped(t1, rows, cols), cols);
      PutTidy(w, Wrapped(t1, rows, cols), cell.data, IsWide(w, cell), rows, cols);
    } else if Tidy(w, t) {
      TidyWhatever(w, t, t1);
      PutTidy(w, t1, cell.data, IsWide(w, cell), rows, cols);
    }
  }

  /** A row drawn is not touched by those below it, unless the last of them goes on past the
      end, and then the last row is not as it was. */
  lemma {:induction false} RowStays(w: char -> Width, t: Terminal, cells: seq<seq<Cell>>, y: nat, k: nat,
          rows: nat, cols: nat)
    requires t.Sized(rows, cols) && |cells| == rows && (forall i | 0 <= i < rows :: |cells[i]| == cols) && k < y
    requires Spaced(w)
    ensures var r := Rows(w, t, cells, y, rows, cols);
      k < rows ==> r.cells[k] == t.cells[k] || (WellFormed(w, r.cells[rows - 1]) && !WellFormed(w, cells[rows - 1]))
    decreases rows - y
  {
    hide Painted, WellFormed, Rows, Tidy;
    if y >= rows {
      RowsNone(w, t, cells, y, rows, cols);
    } else {
      var t1 := t.(y := y, x := 0);
      var t2 := Painted(w, t1, cells[y], 0, [], rows, cols);
      RowsFrom(w, t, cells, y, rows, cols);
      if y + 1 < rows {
        RowBelow(w, t1, cells[y], rows, cols);
        assert t2.cells[k] == t.cells[k];
        RowStays(w, t2, cells, y + 1, k, rows, cols);
      } else {
        RowsNone(w, t2, cells, y + 1, rows, cols);
        LastRow(w, t1, cells[y], rows, cols);
      }
    }
  }

  lemma RowBelow(w: char -> Width, t: Terminal, row: seq<Cell>, rows: nat, cols: nat)
    requires t.Sized(rows, cols) && |row| == cols && t.y + 1 < rows && t.x == 0 && Spaced(w)
    ensures forall i | 0 <= i < t.y :: Painted(w, t, row, 0, [], rows, cols).cells[i] == t.cells[i]
  {
    RowBounded(w, t, row, 0, [], t.y, rows, cols);
  }

  lemma LastRow(w: char -> Width, t: Terminal, row: seq<Cell>, rows: nat, cols: nat)
    requires t.Sized(rows, cols) && |row| == cols && t.y + 1 == rows && t.x == 0 && Spaced(w)
    ensures var r := Painted(w, t, row, 0, [], rows, cols);
      (forall i | 0 <= i < rows - 1 :: r.cells[i] == t.cells[i]) || (WellFormed(w, r.cells[rows - 1]) && !WellFormed(w, row))
    ensures Tidy(w, t) ==> WellFormed(w, Painted(w, t, row, 0, [], rows, cols).cells[rows - 1])
  {
    hide Painted, WellFormed, Tidy;
    LastBounded(w, t, row, 0, [], rows, cols);
    var r := Painted(w, t, row, 0, [], rows, cols);
    if Tidy(w, r) {
      TidyFormed(w, r);
    }
    if WellFormed(w, row) {
      WholeRowDrawn(w, t, row, rows, cols);
    }
  }

  /** Rows drawn on an empty screen come out as they were exactly where each is well-formed. */
  lemma {:induction false} RowsDrawn(w: char -> Width, t: Terminal, cells: seq<seq<Cell>>, y: nat, rows: nat, cols: nat)
    requires t.Sized(rows, cols) && |cells| == rows && (forall i | 0 <= i < rows :: |cells[i]| == cols) && Spaced(w)
    requires y <= rows && forall i | 0 <= i < y :: t.cells[i] == cells[i]
    requires forall i | y <= i < rows :: t.cells[i] == Blank(cols, PLAIN)
    ensures Rows(w, t, cells, y, rows, cols).cells == cells <==> forall i | y <= i < rows :: WellFormed(w, cells[i])
    decreases rows - y
  {
    hide Painted, WellFormed, Rows, Tidy, Blank;
    if y >= rows {
      RowsNone(w, t, cells, y, rows, cols);
      assert t.cells == cells;
    } else {
      var t1 := t.(y := y, x := 0);
      var t2 := Painted(w, t1, cells[y], 0, [], rows, cols);
      RowsFrom(w, t, cells, y, rows, cols);
      if WellFormed(w, cells[y]) {
        WholeRowDrawn(w, t1, cells[y], rows, cols);
        RowsDrawn(w, t2, cells, y + 1, rows, cols);
      } else {
        BlankTidy(w, t1, cols);
        if y + 1 < rows {
          RowBounded(w, t1, cells[y], 0, [], y, rows, cols);
          RowStays(w, t2, cells, y + 1, y, rows, cols);
        } else {
          LastRow(w, t1, cells[y], rows, cols);
          RowsNone(w, t2, cells, y + 1, rows, cols);
        }
      }
    }
  }

  lemma WholeRowDrawn(w: char -> Width, t: Terminal, row: seq<Cell>, rows: nat, cols: nat)
    requires t.Sized(rows, cols) && |row| == cols && t.x == 0 && WellFormed(w, row)
    ensures var r := Painted(w, t, row, 0, [], rows, cols);
      r.cells == t.cells[t.y := row] && r.y == t.y
  {
    assert Good(w, row, 0);
    hide Painted, WellFormed, PenOf, IsWide, Sayable;
    RowDrawn(w, t, row, 0, [], rows, cols);
    assert t.cells[t.y][..0] + row[0..] == row;
  }

  lemma RowsNone(w: char -> Width, t: Terminal, cells: seq<seq<Cell>>, y: nat, rows: nat, cols: nat)
    requires t.Sized(rows, cols) && |cells| == rows && y >= rows
    ensures Rows(w, t, cells, y, rows, cols) == t
  {
  }

  lemma RowsFrom(w: char -> Width, t: Terminal, cells: seq<seq<Cell>>, y: nat, rows: nat, cols: nat)
    requires t.Sized(rows, cols) && |cells| == rows && y < rows
    ensures Rows(w, t, cells, y, rows, cols) ==
      Rows(w, Painted(w, t.(y := y, x := 0), cells[y], 0, [], rows, cols), cells, y + 1, rows, cols)
  {
  }

  /** A redraw is what its rows come to on a screen cleared for them. */
  lemma RedrawnRows(w: char -> Width, t: Terminal, s: Screen, rows: nat, cols: nat)
    requires t.Sized(rows, cols) && t.at == Ground && s.Sized(rows, cols)
    requires forall row | row in s.cells :: Texts(w, row)
    ensures var r := Fed(w, t, Repainted(s), rows, cols);
      && r.cells == Rows(w, Cleared(t, s, rows, cols), s.cells, 0, rows, cols).cells
      && r.y == s.y && (r.x == s.x <==> s.x < cols) && r.visible == s.visible
      && r.alt == (t.alt || s.alt) && r.pen == PLAIN && r.at == Ground
  {
    var t1 := Cleared(t, s, rows, cols);
    var t2 := Rows(w, t1, s.cells, 0, rows, cols);
    BeginsSent(w, t, s, rows, cols);
    RowsSent(w, t1, s.cells, 0, rows, cols);
    RowsKeep(w, t1, s.cells, 0, rows, cols);
    EndsSent(w, t2, s, rows, cols);
    hide Fed, Begins, Ends, RowsText, Rows, WellFormed, Texts;
    FedThen(w, t, Begins(s), RowsText(s.cells, 0), rows, cols);
    FedThen(w, t, Begins(s) + RowsText(s.cells, 0), Ends(s), rows, cols);
  }

  /** Whatever was on a terminal, a redraw leaves the screen it was drawn from -- every cell's
      text, colours and attributes -- exactly where each of its rows is well-formed, with the
      cursor where it was exactly where it was not past the last column, shown or not as it was,
      and the terminal outside every escape sequence with nothing selected. */
  lemma RedrawnAs(w: char -> Width, t: Terminal, s: Screen, rows: nat, cols: nat)
    requires Spaced(w) && t.Sized(rows, cols) && t.at == Ground && s.Sized(rows, cols)
    requires forall row | row in s.cells :: Texts(w, row)
    ensures var r := Fed(w, t, Repainted(s), rows, cols);
      && (r.cells == s.cells <==> forall row | row in s.cells :: WellFormed(w, row))
      && r.y == s.y && (r.x == s.x <==> s.x < cols) && r.visible == s.visible
      && r.alt == (t.alt || s.alt) && r.pen == PLAIN && r.at == Ground
  {
    RedrawnRows(w, t, s, rows, cols);
    RowsDrawn(w, Cleared(t, s, rows, cols), s.cells, 0, rows, cols);
    hide Fed, Repainted, Rows, WellFormed, Texts;
  }

  /** No row changes a mode. */
  lemma {:induction false} RowsKeep(w: char -> Width, t: Terminal, cells: seq<seq<Cell>>, y: nat, rows: nat, cols: nat)
    requires t.Sized(rows, cols) && |cells| == rows
    ensures Rows(w, t, cells, y, rows, cols).alt == t.alt
    decreases rows - y
  {
    hide Painted;
    if y < rows {
      RowKeeps(w, t.(y := y, x := 0), cells[y], 0, [], rows, cols);
      RowsKeep(w, Painted(w, t.(y := y, x := 0), cells[y], 0, [], rows, cols), cells, y + 1, rows, cols);
    }
  }

  lemma {:induction false} RowKeeps(w: char -> Width, t: Terminal, row: seq<Cell>, x: nat, last: seq<string>,
          rows: nat, cols: nat)
    requires t.Sized(rows, cols)
    ensures Painted(w, t, row, x, last, rows, cols).alt == t.alt
    decreases |row| - x
  {
    if x < |row| {
      if row[x].data == "" {
        RowKeeps(w, t, row, x + 1, last, rows, cols);
      } else {
        hide Sgr, PenOf;
        RowKeeps(w, Put(w, t, row[x], last, rows, cols), row, x + 1, Sgr(row[x].pen), rows, cols);
      }
    }
  }

  lemma PutPlain(w: char -> Width, t: Terminal, data: string, last: seq<string>, rows: nat, cols: nat)
    requires t.Sized(rows, cols) && t.x < cols && t.pen == PLAIN && t.at == Ground && data != "" && w(data[0]) == Narrow
    ensures Put(w, t, Cell(data, PLAIN), last, rows, cols) == Placed(t, data, false, rows, cols)
  {
    hide Placed;
    SelectionSent(w, t, PLAIN, last, rows, cols);
    ColourKept("default");
    hide PenOf, Sgr;
  }

  const HALF := [Cell("a", PLAIN), Cell("", PLAIN), Cell("b", PLAIN)]

  lemma HalfPlaced(t: Terminal)
    requires t.Sized(1, 3) && t.cells == [[BLANK, BLANK, BLANK]] && t.x == 0 && t.pen == PLAIN
    ensures var t1 := Placed(t, "a", false, 1, 3);
      var t2 := Placed(t1, "b", false, 1, 3);
      && t1.x == 1 && t1.pen == t2.pen == PLAIN && t1.at == t2.at == t.at
      && t2.cells == [[Cell("a", PLAIN), Cell("b", PLAIN), BLANK]]
  {
    assert [BLANK, BLANK, BLANK][0 := Cell("a", PLAIN)] == [Cell("a", PLAIN), BLANK, BLANK];
    assert [Cell("a", PLAIN), BLANK, BLANK][1 := Cell("b", PLAIN)] == [Cell("a", PLAIN), Cell("b", PLAIN), BLANK];
  }

  lemma HalfPainted(w: char -> Width, t: Terminal)
    requires w('a') == Narrow && w('b') == Narrow && t.Sized(1, 3) && t.cells == [[BLANK, BLANK, BLANK]]
    requires t.x == 0 && t.pen == PLAIN && t.at == Ground
    ensures Painted(w, t, HALF, 0, [], 1, 3).cells == [[Cell("a", PLAIN), Cell("b", PLAIN), BLANK]]
  {
    HalfPlaced(t);
    hide Placed, Put, Sgr;
    var t1 := Placed(t, "a", false, 1, 3);
    var t2 := Placed(t1, "b", false, 1, 3);
    PutPlain(w, t, "a", [], 1, 3);
    PutPlain(w, t1, "b", Sgr(PLAIN), 1, 3);
    assert Painted(w, t2, HALF, 3, Sgr(PLAIN), 1, 3) == t2;
    assert Painted(w, t1, HALF, 2, Sgr(PLAIN), 1, 3) == t2;
    assert Painted(w, t1, HALF, 1, Sgr(PLAIN), 1, 3) == t2;
  }

  lemma OneRow(w: char -> Width, t: Terminal, row: seq<Cell>)
    requires t.Sized(1, 3) && t.x == 0 && t.y == 0
    ensures Rows(w, t, [row], 0, 1, 3) == Painted(w, t, row, 0, [], 1, 3)
  {
    hide Painted;
    assert t.(y := 0, x := 0) == t;
  }

  /** The right half of a wide character left behind where the left half was drawn over: there is
      nothing to draw for it, so what follows it on its row is drawn a column early. */
  lemma HalfLeftBehind(w: char -> Width, t: Terminal)
    requires Spaced(w) && w('a') == Narrow && w('b') == Narrow && t.Sized(1, 3) && t.at == Ground
    ensures var s := Screen([[Cell("a", PLAIN), Cell("", PLAIN), Cell("b", PLAIN)]], 0, 0, true, false);
      Fed(w, t, Repainted(s), 1, 3).cells == [[Cell("a", PLAIN), Cell("b", PLAIN), BLANK]] != s.cells
  {
    hide Fed, Repainted, Painted, Rows, WellFormed, Text;
    var s := Screen([HALF], 0, 0, true, false);
    HalfTexts(w);
    RedrawnRows(w, t, s, 1, 3);
    var t1 := Cleared(t, s, 1, 3);
    assert t1.cells == [Blank(3, PLAIN)] && Blank(3, PLAIN) == [BLANK, BLANK, BLANK];
    OneRow(w, t1, HALF);
    HalfPainted(w, t1);
    assert HALF[1] != Cell("b", PLAIN);
  }

  lemma HalfTexts(w: char -> Width)
    requires w('a') == Narrow && w('b') == Narrow
    ensures Texts(w, HALF)
  {
  }
}
