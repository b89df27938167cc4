/**
 A terminal's screen, and what the text a screen is redrawn with does to it: characters of one
 column or two and marks of none, the cursor moved, the screen cleared, colours and attributes
 selected, and the two private modes a redraw sets.
 */
module Display {
  import Decimal

  /** What a character is drawn with. */
  datatype Pen = Pen(
    fg: string, bg: string, bold: bool, italics: bool, underscore: bool, reverse: bool, strikethrough: bool)

  const PLAIN := Pen("default", "default", false, false, false, false, false)

  /** One column of one line: what is in it, nothing where the character before it is two wide. */
  datatype Cell = Cell(data: string, pen: Pen)

  /** How many columns a character takes: a mark joins the character before it. */
  datatype Width = Mark | Narrow | Wide

  /** How far the terminal is into an escape sequence. */
  datatype Parser = Ground | Escaped | Control(body: string)

  datatype Terminal = Terminal(
    cells: seq<seq<Cell>>, x: nat, y: nat, pen: Pen, visible: bool, alt: bool, at: Parser)
  {
    /** As many rows and columns as it has; the cursor may stand past the last column. */
    predicate Sized(rows: nat, cols: nat) {
      && |cells| == rows && (forall i | 0 <= i < rows :: |cells[i]| == cols)
      && y < rows && x <= cols && 0 < cols
    }
  }

  const ESC: char := '\U{1B}'

  const BLANK := Cell(" ", PLAIN)

  function Blank(cols: nat, pen: Pen): seq<Cell> {
    seq(cols, _ => Cell(" ", pen))
  }

  /** On to the next line; past the last one, everything goes up by one. */
  function Wrapped(t: Terminal, rows: nat, cols: nat): (r: Terminal)
    requires t.Sized(rows, cols)
    ensures r.Sized(rows, cols)
  {
    if t.y + 1 < rows then t.(x := 0, y := t.y + 1)
    else t.(x := 0, cells := t.cells[1..] + [Blank(cols, PLAIN)])
  }

  /** Some text put at the cursor, with what is right of it where it is two wide and there is
      anything there. */
  function Placed(t: Terminal, data: string, wide: bool, rows: nat, cols: nat): (r: Terminal)
    requires t.Sized(rows, cols) && t.x < cols
    ensures r.Sized(rows, cols)
  {
    var row := t.cells[t.y][t.x := Cell(data, t.pen)];
    if !wide then t.(cells := t.cells[t.y := row], x := t.x + 1)
    else if t.x + 1 == cols then t.(cells := t.cells[t.y := row], x := cols)
    else t.(cells := t.cells[t.y := row[t.x + 1 := Cell("", t.pen)]], x := t.x + 2)
  }

  /** A mark joins the character left of the cursor, the whole of it where it is two wide. */
  function Marked(t: Terminal, c: char, rows: nat, cols: nat): (r: Terminal)
    requires t.Sized(rows, cols)
    ensures r.Sized(rows, cols)
  {
    if t.x == 0 then t
    else
      var row := t.cells[t.y];
      var i := if row[t.x - 1].data == "" && t.x > 1 then t.x - 2 else t.x - 1;
      t.(cells := t.cells[t.y := row[i := row[i].(data := row[i].data + [c])]])
  }

  function Drawn(t: Terminal, c: char, width: Width, rows: nat, cols: nat): (r: Terminal)
    requires t.Sized(rows, cols)
    ensures r.Sized(rows, cols)
  {
    if width == Mark then Marked(t, c, rows, cols)
    else Placed(if t.x == cols then Wrapped(t, rows, cols) else t, [c], width == Wide, rows, cols)
  }

  /** The numbers of a control sequence, read from its parameters with `n` of one read. */
  function Numbers(n: nat, s: string): (ns: seq<nat>)
    ensures ns != []
    decreases |s|
  {
    if s == "" then [n]
    else if s[0] == ';' then [n] + Numbers(0, s[1..])
    else Numbers(if Decimal.IsDigit(s[0]) then n * 10 + Decimal.Worth(s[0]) else n, s[1..])
  }

  function Hex(n: nat): char
    requires n < 16
  {
    if n < 10 then Decimal.Digit(n) else ('a' as int + (n - 10)) as char
  }

  function Byte(n: nat): string {
    [Hex(n / 16 % 16), Hex(n % 16)]
  }

  /** The eight colours as a terminal numbers them (ECMA-48, section 8.3.117), the one the standard
      calls yellow by the name the screen's copy has for it. */
  function Hue(n: nat): string
    requires n < 8
  {
    if n == 0 then "black"
    else if n == 1 then "red"
    else if n == 2 then "green"
    else if n == 3 then "brown"
    else if n == 4 then "blue"
    else if n == 5 then "magenta"
    else if n == 6 then "cyan"
    else "white"
  }

  /** One number of a selection of colours and attributes. */
  function Styled(pen: Pen, n: nat): Pen {
    if n == 0 then PLAIN
    else if n == 1 then pen.(bold := true)
    else if n == 3 then pen.(italics := true)
    else if n == 4 then pen.(underscore := true)
    else if n == 7 then pen.(reverse := true)
    else if n == 9 then pen.(strikethrough := true)
    else if 30 <= n < 38 then pen.(fg := Hue(n - 30))
    else if n == 39 then pen.(fg := "default")
    else if 40 <= n < 48 then pen.(bg := Hue(n - 40))
    else if n == 49 then pen.(bg := "default")
    else if 90 <= n < 98 then pen.(fg := "bright" + Hue(n - 90))
    else if 100 <= n < 108 then pen.(bg := "bright" + Hue(n - 100))
    else pen
  }

  /** All of them in order, a colour of three numbers taken whole whatever the three are. */
  function Selected(pen: Pen, ns: seq<nat>): Pen
    decreases |ns|
  {
    if ns == [] then pen
    else if ns[0] == 38 && |ns| >= 5 && ns[1] == 2
    then Selected(pen.(fg := Byte(ns[2]) + Byte(ns[3]) + Byte(ns[4])), ns[5..])
    else if ns[0] == 48 && |ns| >= 5 && ns[1] == 2
    then Selected(pen.(bg := Byte(ns[2]) + Byte(ns[3]) + Byte(ns[4])), ns[5..])
    else Selected(Styled(pen, ns[0]), ns[1..])
  }

  /** A position counted from one, and kept on the screen. */
  function At(ns: seq<nat>, i: nat, size: nat): (p: nat)
    requires 0 < size
    ensures p < size
  {
    var n := if i < |ns| && ns[i] > 0 then ns[i] - 1 else 0;
    if n < size then n else size - 1
  }

  function Obeyed(t: Terminal, body: string, final: char, rows: nat, cols: nat): (r: Terminal)
    requires t.Sized(rows, cols)
    ensures r.Sized(rows, cols)
  {
    if body != "" && body[0] == '?' then
      var ns := Numbers(0, body[1..]);
      if final != 'h' && final != 'l' then t
      else if ns == [25] then t.(visible := final == 'h')
      else if ns == [1049] then t.(alt := final == 'h')
      else t
    else
      var ns := Numbers(0, body);
      match final
      case 'H' => t.(y := At(ns, 0, rows), x := At(ns, 1, cols))
      case 'J' => if ns[0] == 2 then t.(cells := seq(rows, _ => Blank(cols, t.pen))) else t
      case 'm' => t.(pen := Selected(t.pen, ns))
      case _ => t
  }

  /** One character sent to the terminal; other control characters, which no redraw sends, do
      nothing here. */
  function Sent(w: char -> Width, t: Terminal, c: char, rows: nat, cols: nat): (r: Terminal)
    requires t.Sized(rows, cols)
    ensures r.Sized(rows, cols)
  {
    match t.at
    case Ground =>
      if c == ESC then t.(at := Escaped)
      else if Unseen(c) then t
      else Drawn(t, c, w(c), rows, cols)
    case Escaped => t.(at := if c == '[' then Control("") else if c == ESC then Escaped else Ground)
    case Control(body) =>
      if c == ESC then t.(at := Escaped)
      else if '@' <= c <= '~' then Obeyed(t.(at := Ground), body, c, rows, cols)
      else t.(at := Control(body + [c]))
  }

  predicate Unseen(c: char) {
    c < ' ' || c == '\U{7F}'
  }

  function Fed(w: char -> Width, t: Terminal, s: string, rows: nat, cols: nat): (r: Terminal)
    requires t.Sized(rows, cols)
    ensures r.Sized(rows, cols)
    decreases |s|
  {
    if s == "" then t else Fed(w, Sent(w, t, s[0], rows, cols), s[1..], rows, cols)
  }

  lemma {:induction false} FedThen(w: char -> Width, t: Terminal, a: string, b: string, rows: nat, cols: nat)
    requires t.Sized(rows, cols)
    ensures Fed(w, t, a + b, rows, cols) == Fed(w, Fed(w, t, a, rows, cols), b, rows, cols)
    decreases |a|
  {
    hide Sent;
    if a == "" {
      assert a + b == b;
    } else {
      assert (a + b)[0] == a[0] && (a + b)[1..] == a[1..] + b;
      FedThen(w, Sent(w, t, a[0], rows, cols), a[1..], b, rows, cols);
    }
  }

  /** A control sequence: its parameters between its introducer and its last character. */
  function Sequence(body: string, final: char): string {
    [ESC, '['] + body + [final]
  }

  predicate Parameters(body: string) {
    forall c | c in body :: Decimal.IsDigit(c) || c == ';' || c == '?'
  }

  lemma {:induction false} Collected(w: char -> Width, t: Terminal, got: string, body: string, rows: nat, cols: nat)
    requires t.Sized(rows, cols) && t.at == Control(got) && Parameters(body)
    ensures Fed(w, t, body, rows, cols) == t.(at := Control(got + body))
    decreases |body|
  {
    hide Obeyed, Drawn;
    if body == "" {
      assert got + body == got;
    } else {
      var t' := t.(at := Control(got + [body[0]]));
      assert Sent(w, t, body[0], rows, cols) == t' by {
        assert body[0] in body;
      }
      Collected(w, t', got + [body[0]], body[1..], rows, cols);
      assert got + [body[0]] + body[1..] == got + body;
    }
  }

  /** A control sequence sent is a control sequence obeyed. */
  lemma SequenceObeyed(w: char -> Width, t: Terminal, body: string, final: char, rows: nat, cols: nat)
    requires t.Sized(rows, cols) && t.at == Ground && Parameters(body) && '@' <= final <= '~'
    ensures Fed(w, t, Sequence(body, final), rows, cols) == Obeyed(t, body, final, rows, cols)
  {
    hide Obeyed, Drawn;
    var t1, t2 := t.(at := Escaped), t.(at := Control(""));
    assert Sent(w, t, ESC, rows, cols) == t1 && Sent(w, t1, '[', rows, cols) == t2;
    assert ([ESC, '['])[1..] == ['['] && (['['])[1..] == [];
    assert Fed(w, t, [ESC, '['], rows, cols) == t2 by {
      assert Fed(w, t1, ['['], rows, cols) == Fed(w, t2, [], rows, cols);
    }
    Collected(w, t2, "", body, rows, cols);
    assert "" + body == body;
    FedThen(w, t, [ESC, '['], body, rows, cols);
    FedThen(w, t, [ESC, '['] + body, [final], rows, cols);
    OneSent(w, t.(at := Control(body)), final, rows, cols);
    assert t.(at := Control(body)).(at := Ground) == t;
  }

  lemma OneSent(w: char -> Width, t: Terminal, c: char, rows: nat, cols: nat)
    requires t.Sized(rows, cols)
    ensures Fed(w, t, [c], rows, cols) == Sent(w, t, c, rows, cols)
  {
    hide Sent;
    assert ([c])[1..] == [];
    assert Fed(w, t, [c], rows, cols) == Fed(w, Sent(w, t, c, rows, cols), [], rows, cols);
  }

  /** Text that takes up one place: a character of one column or two and any marks it has. */
  predicate Text(w: char -> Width, data: string) {
    && data != "" && w(data[0]) != Mark
    && (forall c | c in data :: !Unseen(c) && c != ESC) && (forall c | c in data[1..] :: w(c) == Mark)
  }

  lemma MarkJoins(t: Terminal, data: string, wide: bool, c: char, rows: nat, cols: nat)
    requires t.Sized(rows, cols) && t.x < cols && data != ""
    ensures Marked(Placed(t, data, wide, rows, cols), c, rows, cols) == Placed(t, data + [c], wide, rows, cols)
  {
    var r, r' := Placed(t, data, wide, rows, cols), Placed(t, data + [c], wide, rows, cols);
    var m := Marked(r, c, rows, cols);
    assert m.cells[t.y] == r'.cells[t.y];
    assert m.cells == r'.cells;
  }

  lemma {:induction false} MarksJoin(w: char -> Width, t: Terminal, data: string, wide: bool, more: string,
          rows: nat, cols: nat)
    requires t.Sized(rows, cols) && t.at == Ground && t.x < cols && data != ""
    requires forall c | c in more :: w(c) == Mark && !Unseen(c) && c != ESC
    ensures Fed(w, Placed(t, data, wide, rows, cols), more, rows, cols) == Placed(t, data + more, wide, rows, cols)
    decreases |more|
  {
    if more == "" {
      assert data + more == data;
    } else {
      MarkJoins(t, data, wide, more[0], rows, cols);
      var r := Placed(t, data, wide, rows, cols);
      assert more[0] in more && r.at == Ground;
      assert Sent(w, r, more[0], rows, cols) == Marked(r, more[0], rows, cols);
      MarksJoin(w, t, data + [more[0]], wide, more[1..], rows, cols);
      assert data + [more[0]] + more[1..] == data + more;
    }
  }

  /** Such text is drawn whole in its place. */
  lemma TextPlaced(w: char -> Width, t: Terminal, data: string, rows: nat, cols: nat)
    requires t.Sized(rows, cols) && t.at == Ground && Text(w, data)
    ensures Fed(w, t, data, rows, cols) ==
      Placed(if t.x == cols then Wrapped(t, rows, cols) else t, data, w(data[0]) == Wide, rows, cols)
  {
    var t' := if t.x == cols then Wrapped(t, rows, cols) else t;
    assert data[0] in data;
    assert Sent(w, t, data[0], rows, cols) == Placed(t', [data[0]], w(data[0]) == Wide, rows, cols);
    MarksJoin(w, t', [data[0]], w(data[0]) == Wide, data[1..], rows, cols);
    assert [data[0]] + data[1..] == data;
  }

  // ------------------------------------------------------------- numbers

  lemma {:induction false} NumbersThen(n: nat, a: string, b: string)
    ensures Numbers(n, a + [';'] + b) == Numbers(n, a) + Numbers(0, b)
    decreases |a|
  {
    var s := a + [';'] + b;
    if a == "" {
      assert s[0] == ';' && s[1..] == b;
    } else {
      assert s[0] == a[0] && s[1..] == a[1..] + [';'] + b;
      if a[0] == ';' {
        NumbersThen(0, a[1..], b);
        assert [n] + (Numbers(0, a[1..]) + Numbers(0, b)) == ([n] + Numbers(0, a[1..])) + Numbers(0, b);
      } else {
        NumbersThen(if Decimal.IsDigit(a[0]) then n * 10 + Decimal.Worth(a[0]) else n, a[1..], b);
      }
    }
  }

  lemma {:induction false} NumberRead(n: nat, s: string)
    requires forall c | c in s :: Decimal.IsDigit(c)
    ensures Numbers(n, s) == [Decimal.Read(n, s)]
    decreases |s|
  {
    if s != "" {
      assert s[0] in s && s[0] != ';';
      NumberRead(n * 10 + Decimal.Worth(s[0]), s[1..]);
    }
  }

  lemma OneNumber(n: nat)
    ensures Numbers(0, Decimal.Digits(n)) == [n]
  {
    Decimal.DigitsRead(n);
    NumberRead(0, Decimal.Digits(n));
  }
}
