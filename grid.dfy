/** checkGrid of Main.cpp: the cell, numbered 0..8 column by column, of a 3 x 3 grid over
    the window that contains a point; points outside the window go to the nearest cell. */
module Grid {
  import opened Geometry

  /** GAMEWIDTH / 3 and GAMEHEIGHT / 3 (integer division; both are exact). */
  const X_UNIT: int := 960
  const Y_UNIT: int := 600

  /** The two clamping tests of checkGrid: at least 3 becomes 2, then at most 0 becomes 0. */
  function Clamp(n: int): (c: int)
    ensures 0 <= c <= 2
    ensures 0 <= n <= 2 ==> c == n
    ensures n < 0 ==> c == 0
    ensures n > 2 ==> c == 2
  {
    var capped := if n >= 3 then 2 else n;
    if capped <= 0 then 0 else capped
  }

  function Column(p: Vec): int { Clamp(TruncToInt(p.x / X_UNIT as real)) }

  function Row(p: Vec): int { Clamp(TruncToInt(p.y / Y_UNIT as real)) }

  /** (row + 1) + col * 3 - 1. */
  function CheckGrid(p: Vec): (cell: int)
    ensures 0 <= cell <= 8
    ensures cell % 3 == Row(p) && cell / 3 == Column(p)
  {
    var col := Column(p);
    var row := Row(p);
    (row + 1) + col * 3 - 1
  }

  /** Two points share a cell exactly when they share the clamped row and column. */
  lemma CellsAreDistinct(p: Vec, q: Vec)
    ensures CheckGrid(p) == CheckGrid(q) <==> Row(p) == Row(q) && Column(p) == Column(q)
  {
  }

  /** For a point inside the window, the cell's rectangle contains the point. */
  lemma CellContainsPoint(p: Vec)
    requires 0.0 <= p.x < GAME_WIDTH && 0.0 <= p.y < GAME_HEIGHT
    ensures var cell := CheckGrid(p);
      (cell / 3 * X_UNIT) as real <= p.x < ((cell / 3 + 1) * X_UNIT) as real
      && (cell % 3 * Y_UNIT) as real <= p.y < ((cell % 3 + 1) * Y_UNIT) as real
  {
    var cx := TruncToInt(p.x / 960.0);
    var cy := TruncToInt(p.y / 600.0);
    assert 0 <= cx <= 2 && 0 <= cy <= 2;
    assert Column(p) == cx && Row(p) == cy;
  }

  /** Points beyond an edge land in the border cell of that side. */
  lemma OutsidePointsClamp(p: Vec)
    ensures p.x < 0.0 ==> CheckGrid(p) / 3 == 0
    ensures p.x >= GAME_WIDTH ==> CheckGrid(p) / 3 == 2
    ensures p.y < 0.0 ==> CheckGrid(p) % 3 == 0
    ensures p.y >= GAME_HEIGHT ==> CheckGrid(p) % 3 == 2
  {
  }
}
