/**
 * The text of a board: each row is its three cell characters separated by `|` and
 * followed by a newline, and a line of five dashes stands between consecutive rows.
 */
module Rendering {
  import opened PositionStates
  import opened Grids

  /**
   * The text the rendering loop has produced for row `y` after `n` of its cells:
   * each cell's character, followed by `|` unless it is the row's last cell.
   */
  function RowText(g: Grid, y: nat, n: nat): (t: string)
    requires y < 3 && n <= 3
  {
    if n == 0 then ""
    else RowText(g, y, n - 1) + Str(g[3 * y + n - 1]) + (if n - 1 < 2 then "|" else "")
  }

  /**
   * The text the rendering loop has produced after `n` whole rows: each row is
   * followed by a newline, and every row but the last by a line of five dashes.
   */
  function RowsText(g: Grid, n: nat): (t: string)
    requires n <= 3
  {
    if n == 0 then ""
    else RowsText(g, n - 1) + RowText(g, n - 1, 3) + "\n" + (if n - 1 != 2 then "-----\n" else "")
  }

  /** The text of the whole board. */
  function Render(g: Grid): (t: string) {
    RowsText(g, 3)
  }

  /** One row as it appears on screen. */
  lemma RowLayout(g: Grid, y: nat)
    requires y < 3
    ensures RowText(g, y, 3) ==
      Str(g[3 * y]) + "|" + Str(g[3 * y + 1]) + "|" + Str(g[3 * y + 2])
  {
    assert RowText(g, y, 1) == Str(g[3 * y]) + "|";
    assert RowText(g, y, 2) == Str(g[3 * y]) + "|" + Str(g[3 * y + 1]) + "|";
  }

  /** The whole board as it appears on screen: three rows, with dashes between them. */
  lemma RenderLayout(g: Grid)
    ensures Render(g) ==
      RowText(g, 0, 3) + "\n-----\n" + RowText(g, 1, 3) + "\n-----\n" + RowText(g, 2, 3) + "\n"
  {
    var r0, r1, r2 := RowText(g, 0, 3), RowText(g, 1, 3), RowText(g, 2, 3);
    assert RowsText(g, 1) == r0 + "\n-----\n";
    assert RowsText(g, 2) == r0 + "\n-----\n" + r1 + "\n-----\n";
  }

  /** The text of a new board, character for character. */
  lemma EmptyRender()
    ensures Render(EmptyGrid) == " | | \n-----\n | | \n-----\n | | \n"
  {
    BlankRender(EmptyGrid);
  }

  /** A board without marks renders as three blank rows. */
  lemma BlankRender(g: Grid)
    requires forall i :: 0 <= i < 9 ==> g[i] == Empty
    ensures Render(g) == " | | \n-----\n | | \n-----\n | | \n"
  {
    BlankRow(g, 0);
    BlankRow(g, 1);
    BlankRow(g, 2);
    RenderLayout(g);
    BlankText(RowText(g, 0, 3));
  }

  /** A row without marks is a space, a bar, a space, a bar and a space. */
  lemma BlankRow(g: Grid, y: nat)
    requires y < 3
    requires forall i :: 0 <= i < 9 ==> g[i] == Empty
    ensures RowText(g, y, 3) == " | | "
  {
    RowLayout(g, y);
  }

  /** Three blank rows joined as the rendering joins them. */
  lemma BlankText(r: string)
    requires r == " | | "
    ensures r + "\n-----\n" + r + "\n-----\n" + r + "\n" == " | | \n-----\n | | \n-----\n | | \n"
  {
    var rs := r + "\n-----\n";
    assert rs == " | | \n-----\n";
    assert rs + rs == " | | \n-----\n | | \n-----\n";
  }

  /** Within a row's text, the character of column x stands at index 2 * x. */
  lemma RowCharAt(g: Grid, y: nat, x: nat)
    requires y < 3 && x < 3
    ensures |RowText(g, y, 3)| == 5
    ensures RowText(g, y, 3)[2 * x] == Str(g[3 * y + x])[0]
  {
    RowLayout(g, y);
    var a, b, c := Str(g[3 * y]), Str(g[3 * y + 1]), Str(g[3 * y + 2]);
    assert RowText(g, y, 3) == [a[0], '|', b[0], '|', c[0]];
  }

  /**
   * The text is 30 characters long, and the character of row y, column x stands at
   * index 12 * y + 2 * x.
   */
  lemma RenderCellAt(g: Grid, y: nat, x: nat)
    requires y < 3 && x < 3
    ensures |Render(g)| == 30
    ensures Render(g)[12 * y + 2 * x] == Str(g[3 * y + x])[0]
  {
    RenderRows(g);
    RowCharAt(g, y, x);
    var t := Render(g);
    if y == 0 {
      assert t[2 * x] == t[0 .. 5][2 * x];
    } else if y == 1 {
      assert t[12 + 2 * x] == t[12 .. 17][2 * x];
    } else {
      assert t[24 + 2 * x] == t[24 .. 29][2 * x];
    }
  }

  /** Row y's text occupies indices 12 * y to 12 * y + 5 of the board's 30 characters. */
  lemma RenderRows(g: Grid)
    ensures |Render(g)| == 30
    ensures Render(g)[0 .. 5] == RowText(g, 0, 3)
    ensures Render(g)[12 .. 17] == RowText(g, 1, 3)
    ensures Render(g)[24 .. 29] == RowText(g, 2, 3)
  {
    RenderLayout(g);
    RowCharAt(g, 0, 0);
    RowCharAt(g, 1, 0);
    RowCharAt(g, 2, 0);
    var r0, r1, r2 := RowText(g, 0, 3), RowText(g, 1, 3), RowText(g, 2, 3);
    var sep := "\n-----\n";
    var a := r0 + sep;
    var b := a + r1 + sep;
    assert Render(g) == a + r1 + sep + r2 + "\n";
    assert (a + r1 + sep + r2 + "\n")[..5] == r0;
    assert Render(g) == b + r2 + "\n";
    assert |b| == 24;
    assert (a + r1 + sep + r2 + "\n")[12 .. 17] == r1;
  }

  /** Two boards with the same text have the same cells. */
  lemma RenderInjective(g: Grid, h: Grid)
    requires Render(g) == Render(h)
    ensures g == h
  {
    forall i | 0 <= i < 9
      ensures g[i] == h[i]
    {
      RenderCellAt(g, i / 3, i % 3);
      RenderCellAt(h, i / 3, i % 3);
      assert Str(g[i]) == Str(h[i]);
      StrInjective(g[i], h[i]);
    }
  }
}
