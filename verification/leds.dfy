/** Colour packing and frame emission for the 5x5 WS2812 matrix (src/Leds.c):
    RGBMatrix packs a colour into the 32-bit GRB word the strip expects, and
    Draw produces the 25 words of one frame, last cell first. */
module Leds {
  import opened General

  /** Cells in the matrix. */
  const NumPixels: nat := 25

  /** Byte `k` (0 the lowest) of a word. */
  function ByteOf(w: bv32, k: nat): bv8
    requires k < 4
  {
    var shifted := if k == 3 then w >> 24 else if k == 2 then w >> 16 else if k == 1 then w >> 8 else w;
    (shifted & 0xFF) as bv8
  }

  /** RGBMatrix: the green byte in bits 31..24, red in bits 23..16, blue in
      bits 15..8, and bits 7..0 always clear. */
  function RGBMatrix(c: RGB): (w: bv32)
    ensures ByteOf(w, 3) == c.green
    ensures ByteOf(w, 2) == c.red
    ensures ByteOf(w, 1) == c.blue
    ensures ByteOf(w, 0) == 0
  {
    var r, g, b := c.red as bv32, c.green as bv32, c.blue as bv32;
    (g << 24) | (r << 16) | (b << 8)
  }

  /** Reads a packed word back into a colour. */
  function Unpack(w: bv32): RGB
  {
    RGB(ByteOf(w, 2), ByteOf(w, 3), ByteOf(w, 1))
  }

  /** Packing loses nothing: the colour is recovered from its word. */
  lemma UnpackPack(c: RGB)
    ensures Unpack(RGBMatrix(c)) == c
  {
  }

  /** Every word with a clear low byte is the packing of exactly one colour. */
  lemma PackUnpack(w: bv32)
    requires ByteOf(w, 0) == 0
    ensures RGBMatrix(Unpack(w)) == w
  {
  }

  /** The colour used for dark cells packs to the all-zero word. */
  const Black := RGB(0, 0, 0)

  lemma BlackIsZero()
    ensures RGBMatrix(Black) == 0
  {
  }

  /** The word a cell stands for: slot values 1, 2 and 3 take palette entries
      0, 1 and 2; anything else is dark. */
  function SlotWord(cell: nat, palette: seq<RGB>): bv32
    requires |palette| >= 3
  {
    if 1 <= cell <= 3 then RGBMatrix(palette[cell - 1]) else 0
  }

  /** The colour Draw picks for a cell: slots 1, 2 and 3 take palette
      entries 0, 1 and 2; any other value leaves the LED dark. */
  function CellColour(cell: nat, palette: seq<RGB>): RGB
    requires |palette| >= 3
  {
    if cell == 1 then palette[0]
    else if cell == 2 then palette[1]
    else if cell == 3 then palette[2]
    else Black
  }

  /** The words Draw emits for cells i, i-1, ..., 0, in that order: the k-th
      word comes from cell i-k. */
  function Emit(grid: seq<nat>, palette: seq<RGB>, i: int): (words: seq<bv32>)
    requires -1 <= i < |grid|
    requires |palette| >= 3
    ensures |words| == i + 1
    ensures forall k :: 0 <= k <= i ==> words[k] == SlotWord(grid[i - k], palette)
    decreases i + 1
  {
    if i < 0 then []
    else
      BlackIsZero();
      [RGBMatrix(CellColour(grid[i], palette))] + Emit(grid, palette, i - 1)
  }

  /** Draw: one word per cell, emitted from the last cell down to cell 0, so
      the k-th word comes from cell NumPixels-1-k. */
  function Draw(grid: seq<nat>, palette: seq<RGB>): (words: seq<bv32>)
    requires |grid| >= NumPixels
    requires |palette| >= 3
    ensures |words| == NumPixels
    ensures forall k :: 0 <= k < NumPixels ==> words[k] == SlotWord(grid[NumPixels - 1 - k], palette)
  {
    Emit(grid, palette, NumPixels - 1)
  }
}
