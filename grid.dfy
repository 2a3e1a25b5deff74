/** Integer grid cells. Unity's Vector3 / Vector3Int positions are modelled by
    their x and y components; the z component never changes in the modelled code. */
module Grid {
  datatype Cell = Cell(x: int, y: int)

  /** The cell reached from `c` by moving `d.x` columns and `d.y` rows. */
  function Shift(c: Cell, d: Cell): Cell {
    Cell(c.x + d.x, c.y + d.y)
  }
}
