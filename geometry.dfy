/** Screen geometry and colour constants of the EGA playfield. */
module Geometry {
  const ScreenWidth: int := 640
  const ScreenHeight: int := 350

  /** Every building stands on the row `ScreenHeight - 5`. */
  const Ground: int := ScreenHeight - 5

  /** A gorilla's footprint is a 30 by 30 square (the hit box is inclusive, 31 cells wide). */
  const GorillaSize: int := 30

  /** The sun is a disc of radius 12 centred at (320, 40). */
  const SunX: int := ScreenWidth / 2
  const SunY: int := 40
  const SunRadius: int := 12

  /** Radius of the hole a banana punches into the city. */
  const BlastRadius: int := 14

  /** Window colours: lit (yellow) and dark (dark grey). */
  const WindowLit: int := 14
  const WindowDark: int := 8

  function Max(a: int, b: int): int { if a < b then b else a }
  function Min(a: int, b: int): int { if a < b then a else b }
  function Abs(a: int): nat { if a < 0 then -a else a }

  /** A cell of the 640 x 350 raster. */
  predicate InField(x: int, y: int) {
    0 <= x < ScreenWidth && 0 <= y < ScreenHeight
  }
}
