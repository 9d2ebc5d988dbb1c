/** The maze of the dungeon game (maze.py): a grid of optional cell contents
    and the hero's position, with bounds-guarded accessors and mutators. */
module MazeGrid {
  import opened GameModel

  /** What a cell can hold. A monster keeps the name the layout gives it. */
  datatype Occupant = Monster(name: string) | TreasureChest | HealingPotion | Shopkeeper

  /** A grid as rows of cells; `None` is an empty cell. */
  type Cells = seq<seq<Option<Occupant>>>

  /** The layout every maze starts with: five rows of five cells. */
  const InitialLayout: Cells := [
    [None, Some(Occupant.Monster("Goblin")), None, Some(Occupant.TreasureChest), None],
    [Some(Occupant.HealingPotion), None, Some(Occupant.Monster("Orc")), None, None],
    [None, Some(Occupant.TreasureChest), None, Some(Occupant.Monster("Troll")), None],
    [Some(Occupant.Monster("Skeleton")), None, Some(Occupant.HealingPotion), None, Some(Occupant.Shopkeeper)],
    [None, None, Some(Occupant.Monster("Dragon")), Some(Occupant.TreasureChest), None]
  ]

  /** The side length of the grid literal. */
  const Side: int := 5

  /** Every row of `g` has `cols` cells, and there are `rows` rows. */
  predicate Shaped(g: Cells, rows: int, cols: int)
  {
    |g| == rows && forall i :: 0 <= i < |g| ==> |g[i]| == cols
  }

  /** The content of cell (r, c), or `None` outside the grid. */
  function At(g: Cells, r: int, c: int): Option<Occupant>
  {
    if 0 <= r < |g| && 0 <= c < |g[r]| then g[r][c] else None
  }

  /** The grid with cell (r, c) set to `x`; unchanged when (r, c) is outside it. */
  function Put(g: Cells, r: int, c: int, x: Option<Occupant>): (h: Cells)
    ensures |h| == |g| && forall i :: 0 <= i < |g| ==> |h[i]| == |g[i]|
    ensures 0 <= r < |g| && 0 <= c < |g[r]| ==> At(h, r, c) == x
    ensures forall i, j :: (i != r || j != c) ==> At(h, i, j) == At(g, i, j)
  {
    if 0 <= r < |g| && 0 <= c < |g[r]| then g[r := g[r][c := x]] else g
  }

  /** Writing the same value twice is writing it once; in particular clearing a
      cell twice is clearing it once. */
  lemma PutIdempotent(g: Cells, r: int, c: int, x: Option<Occupant>)
    ensures Put(Put(g, r, c, x), r, c, x) == Put(g, r, c, x)
  {
    if 0 <= r < |g| && 0 <= c < |g[r]| {
      var h := Put(g, r, c, x);
      assert h[r] == g[r][c := x];
      assert h[r][c := x] == h[r];
      assert h[r := h[r]] == h;
    }
  }

  /** Two grids of one shape are equal when they agree on every cell. */
  lemma SameCells(g: Cells, h: Cells, rows: int, cols: int)
    requires Shaped(g, rows, cols) && Shaped(h, rows, cols)
    requires forall i, j :: At(g, i, j) == At(h, i, j)
    ensures g == h
  {
    forall i | 0 <= i < rows
      ensures g[i] == h[i]
    {
      forall j | 0 <= j < cols
        ensures g[i][j] == h[i][j]
      {
        assert At(g, i, j) == At(h, i, j);
      }
    }
  }

  class Maze {
    const rows: int
    const cols: int
    /** The grid literal, which is five by five whatever `rows` and `cols` say. */
    const grid: array2<Option<Occupant>>
    var heroPosition: (int, int)

    /** The bounds guard every accessor and mutator applies. */
    predicate InBounds(row: int, col: int)
      reads this
    {
      0 <= row < rows && 0 <= col < cols
    }

    /** The maze's invariant: the guard never admits a cell the literal lacks,
        and the hero stands inside the guarded area. */
    ghost predicate Valid()
      reads this
    {
      grid.Length0 == Side && grid.Length1 == Side &&
      1 <= rows <= Side && 1 <= cols <= Side &&
      InBounds(heroPosition.0, heroPosition.1)
    }

    /** The grid's contents as a value. */
    ghost function Cells(): (g: Cells)
      reads grid
      ensures Shaped(g, grid.Length0, grid.Length1)
      ensures forall i, j :: 0 <= i < grid.Length0 && 0 <= j < grid.Length1 ==> g[i][j] == grid[i, j]
    {
      seq(grid.Length0, i requires 0 <= i < grid.Length0 reads grid =>
        seq(grid.Length1, j requires 0 <= j < grid.Length1 reads grid => grid[i, j]))
    }

    constructor (rows: int := 5, cols: int := 5)
      requires 1 <= rows <= Side && 1 <= cols <= Side
      ensures Valid() && fresh(grid)
      ensures this.rows == rows && this.cols == cols
      ensures Cells() == InitialLayout
      ensures heroPosition == (0, 0)
    {
      this.rows := rows;
      this.cols := cols;
      grid := new Option<Occupant>[Side, Side]((i, j) requires 0 <= i < Side && 0 <= j < Side =>
        InitialLayout[i][j]);
      heroPosition := (0, 0);
      new;
      SameCells(Cells(), InitialLayout, Side, Side);
    }

    /** `place_object`: inside the guard the cell now holds `obj`; outside it
        nothing changes. The hero never moves. */
    method PlaceObject(row: int, col: int, obj: Option<Occupant>)
      requires Valid()
      modifies grid
      ensures Valid()
      ensures Cells() == if InBounds(row, col) then Put(old(Cells()), row, col, obj) else old(Cells())
      ensures InBounds(row, col) ==> GetObject(row, col) == obj
      ensures heroPosition == old(heroPosition)
    {
      if InBounds(row, col) {
        ghost var before := Cells();
        grid[row, col] := obj;
        SameCells(Cells(), Put(before, row, col, obj), Side, Side);
      }
    }

    /** `get_object`: the content of a guarded cell, `None` outside the guard. */
    function GetObject(row: int, col: int): (o: Option<Occupant>)
      requires Valid()
      reads this, grid
      ensures o == if InBounds(row, col) then At(Cells(), row, col) else None
    {
      if InBounds(row, col) then grid[row, col] else None
    }

    /** `remove_object`: inside the guard the cell is now empty; outside it
        nothing changes. The hero never moves. */
    method RemoveObject(row: int, col: int)
      requires Valid()
      modifies grid
      ensures Valid()
      ensures Cells() == if InBounds(row, col) then Put(old(Cells()), row, col, None) else old(Cells())
      ensures GetObject(row, col) == None
      ensures heroPosition == old(heroPosition)
    {
      if InBounds(row, col) {
        ghost var before := Cells();
        grid[row, col] := None;
        SameCells(Cells(), Put(before, row, col, None), Side, Side);
      }
    }

    /** `update_hero_position`: the hero moves to a guarded cell and stays put
        otherwise. No cell changes. */
    method UpdateHeroPosition(newRow: int, newCol: int)
      requires Valid()
      modifies this
      ensures Valid()
      ensures heroPosition == if InBounds(newRow, newCol) then (newRow, newCol) else old(heroPosition)
      ensures Cells() == old(Cells())
    {
      if InBounds(newRow, newCol) {
        heroPosition := (newRow, newCol);
      }
    }
  }

  /** Asking a new maze to move the hero one row up from the start corner
      leaves the hero where it was. */
  method UpFromStart(rows: int, cols: int) returns (position: (int, int))
    requires 1 <= rows <= Side && 1 <= cols <= Side
    ensures position == (0, 0)
  {
    var maze := new Maze(rows, cols);
    maze.UpdateHeroPosition(-1, 0);
    position := maze.heroPosition;
  }
}
