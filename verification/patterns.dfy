/** The static pattern table of src/Leds.c (Drawing): fifteen 5x5 pictograms,
    each cell a palette slot 0..3 (0 dark), keyed by an integer code. */
module Patterns {
  import opened General
  import opened Leds

  /** A pictogram: one palette slot per matrix cell, row by row. */
  type Grid = seq<nat>

  /** A grid the matrix can show: one cell per pixel, each a slot 0..3. */
  ghost predicate WellFormed(g: Grid)
  {
    |g| == NumPixels && forall k :: 0 <= k < |g| ==> g[k] <= 3
  }

  /** The lit (non-zero) cells of a grid. */
  function LitCells(g: Grid): set<nat>
  {
    set k | 0 <= k < |g| && g[k] != 0
  }

  const Drawing000: Grid := [
    0, 0, 0, 0, 0,
    0, 0, 0, 0, 0,
    0, 0, 0, 0, 0,
    0, 0, 0, 0, 0,
    0, 0, 0, 0, 0]

  const Drawing100: Grid := [
    0, 0, 0, 0, 0,
    0, 0, 0, 0, 0,
    0, 0, 0, 0, 0,
    0, 0, 0, 0, 0,
    1, 0, 0, 0, 0]

  const Drawing200: Grid := [
    0, 0, 0, 0, 0,
    0, 0, 0, 0, 0,
    0, 0, 0, 0, 0,
    0, 0, 0, 0, 1,
    1, 0, 0, 0, 0]

  const Drawing300: Grid := [
    0, 0, 0, 0, 0,
    0, 0, 0, 0, 0,
    1, 0, 0, 0, 0,
    0, 0, 0, 0, 1,
    1, 0, 0, 0, 0]

  const Drawing400: Grid := [
    0, 0, 0, 0, 0,
    0, 0, 0, 0, 1,
    1, 0, 0, 0, 0,
    0, 0, 0, 0, 1,
    1, 0, 0, 0, 0]

  const Drawing500: Grid := [
    1, 0, 0, 0, 0,
    0, 0, 0, 0, 1,
    1, 0, 0, 0, 0,
    0, 0, 0, 0, 1,
    1, 0, 0, 0, 0]

  const Drawing510: Grid := [
    1, 0, 0, 0, 0,
    0, 0, 0, 0, 1,
    1, 0, 0, 0, 0,
    0, 0, 0, 0, 1,
    1, 0, 2, 0, 0]

  const Drawing520: Grid := [
    1, 0, 0, 0, 0,
    0, 0, 0, 0, 1,
    1, 0, 0, 0, 0,
    0, 0, 2, 0, 1,
    1, 0, 2, 0, 0]

  const Drawing530: Grid := [
    1, 0, 0, 0, 0,
    0, 0, 0, 0, 1,
    1, 0, 2, 0, 0,
    0, 0, 2, 0, 1,
    1, 0, 2, 0, 0]

  const Drawing540: Grid := [
    1, 0, 0, 0, 0,
    0, 0, 2, 0, 1,
    1, 0, 2, 0, 0,
    0, 0, 2, 0, 1,
    1, 0, 2, 0, 0]

  const Drawing550: Grid := [
    1, 0, 2, 0, 0,
    0, 0, 2, 0, 1,
    1, 0, 2, 0, 0,
    0, 0, 2, 0, 1,
    1, 0, 2, 0, 0]

  const Drawing551: Grid := [
    1, 0, 2, 0, 0,
    0, 0, 2, 0, 1,
    1, 0, 2, 0, 0,
    0, 0, 2, 0, 1,
    1, 0, 2, 0, 3]

  const Drawing552: Grid := [
    1, 0, 2, 0, 0,
    0, 0, 2, 0, 1,
    1, 0, 2, 0, 0,
    3, 0, 2, 0, 1,
    1, 0, 2, 0, 3]

  const Drawing553: Grid := [
    1, 0, 2, 0, 0,
    0, 0, 2, 0, 1,
    1, 0, 2, 0, 3,
    3, 0, 2, 0, 1,
    1, 0, 2, 0, 3]

  const Drawing554: Grid := [
    1, 0, 2, 0, 0,
    3, 0, 2, 0, 1,
    1, 0, 2, 0, 3,
    3, 0, 2, 0, 1,
    1, 0, 2, 0, 3]

  const Drawing555: Grid := [
    1, 0, 2, 0, 3,
    3, 0, 2, 0, 1,
    1, 0, 2, 0, 3,
    3, 0, 2, 0, 1,
    1, 0, 2, 0, 3]

  /** The codes the table defines, in the order the pictograms fill up. */
  const FillOrder: seq<int> := [100, 200, 300, 400, 500, 510, 520, 530, 540, 550, 551, 552, 553, 554, 555]

  /** Drawing: the pictogram of a code, or the all-dark grid for any other
      code. */
  function Drawing(code: int): Grid
  {
    match code
    case 100 => Drawing100
    case 200 => Drawing200
    case 300 => Drawing300
    case 400 => Drawing400
    case 500 => Drawing500
    case 510 => Drawing510
    case 520 => Drawing520
    case 530 => Drawing530
    case 540 => Drawing540
    case 550 => Drawing550
    case 551 => Drawing551
    case 552 => Drawing552
    case 553 => Drawing553
    case 554 => Drawing554
    case 555 => Drawing555
    case _ => Drawing000
  }

  /** The cell each step of the fill lights. */
  const FillCells: seq<nat> := [20, 19, 10, 9, 0, 22, 17, 12, 7, 2, 24, 15, 14, 5, 4]

  /** The slot step `i` lights its cell with: the first five steps (100 to
      500) use slot 1, the next five (510 to 550) slot 2, the last five (551
      to 555) slot 3. */
  function FillSlot(i: nat): nat
  {
    if i < 5 then 1 else if i < 10 then 2 else 3
  }

  /** The pictogram before step `i` of the fill: all dark before the first. */
  function BeforeStep(i: nat): Grid
    requires i < |FillOrder|
  {
    if i == 0 then Drawing000 else Drawing(FillOrder[i - 1])
  }

  /** Fill steps 0 to 4 (codes 100 to 500) light their cell with slot 1. */
  lemma FillLayer1(i: nat)
    requires 0 <= i < 5
    ensures FillCells[i] < NumPixels
    ensures BeforeStep(i)[FillCells[i]] == 0
    ensures Drawing(FillOrder[i]) == BeforeStep(i)[FillCells[i] := 1]
  {
  }

  /** Fill steps 5 to 9 (codes 510 to 550) light their cell with slot 2. */
  lemma FillLayer2(i: nat)
    requires 5 <= i < 10
    ensures FillCells[i] < NumPixels
    ensures BeforeStep(i)[FillCells[i]] == 0
    ensures Drawing(FillOrder[i]) == BeforeStep(i)[FillCells[i] := 2]
  {
  }

  /** Fill steps 10 to 14 (codes 551 to 555) light their cell with slot 3. */
  lemma FillLayer3(i: nat)
    requires 10 <= i < 15
    ensures FillCells[i] < NumPixels
    ensures BeforeStep(i)[FillCells[i]] == 0
    ensures Drawing(FillOrder[i]) == BeforeStep(i)[FillCells[i] := 3]
  {
  }

  /** Progressive fill: each pictogram is its predecessor with exactly one
      previously dark cell lit, in the slot of its layer. */
  lemma FillStep(i: nat)
    requires i < |FillOrder|
    ensures FillCells[i] < NumPixels
    ensures BeforeStep(i)[FillCells[i]] == 0
    ensures Drawing(FillOrder[i]) == BeforeStep(i)[FillCells[i] := FillSlot(i)]
  {
    if i < 5 {
      FillLayer1(i);
    } else if i < 10 {
      FillLayer2(i);
    } else {
      FillLayer3(i);
    }
  }

  /** Lighting a dark cell with a palette slot keeps a grid showable. */
  lemma LightKeepsWellFormed(g: Grid, k: nat, v: nat)
    requires WellFormed(g) && k < |g| && v <= 3
    ensures WellFormed(g[k := v])
  {
  }

  /** Every grid of the fill can be shown: it is the dark grid with cells lit
      one slot at a time. */
  lemma {:induction false} FillWellFormed(i: nat)
    requires i < |FillOrder|
    ensures WellFormed(Drawing(FillOrder[i]))
    decreases i
  {
    FillStep(i);
    if i > 0 {
      FillWellFormed(i - 1);
    }
    LightKeepsWellFormed(BeforeStep(i), FillCells[i], FillSlot(i));
  }

  /** Drawing is total and always yields a grid the matrix can show; every
      code outside the table yields the all-dark grid. */
  lemma DrawingTotal(code: int)
    ensures WellFormed(Drawing(code))
    ensures code !in FillOrder ==> forall k :: 0 <= k < NumPixels ==> Drawing(code)[k] == 0
  {
    if code in FillOrder {
      var i :| 0 <= i < |FillOrder| && FillOrder[i] == code;
      FillWellFormed(i);
    }
  }

  /** Lighting one dark cell adds exactly that cell to the lit cells. */
  lemma LightAddsCell(g: Grid, k: nat, v: nat)
    requires k < |g| && g[k] == 0 && v != 0
    ensures k !in LitCells(g)
    ensures LitCells(g[k := v]) == LitCells(g) + {k}
    ensures |LitCells(g[k := v])| == |LitCells(g)| + 1
  {
    assert LitCells(g[k := v]) == LitCells(g) + {k};
  }

  /** The i-th pictogram of the fill lights exactly i + 1 cells: pattern 100
      lights one and pattern 555 fifteen. */
  lemma {:induction false} FillLitCount(i: nat)
    requires i < |FillOrder|
    ensures |LitCells(Drawing(FillOrder[i]))| == i + 1
    decreases i
  {
    var before := BeforeStep(i);
    FillStep(i);
    if i == 0 {
      assert LitCells(before) == {};
    } else {
      FillLitCount(i - 1);
    }
    LightAddsCell(before, FillCells[i], FillSlot(i));
  }

  /** A frame for a code outside the table is 25 zero words, whatever the
      palette: the matrix goes fully dark. */
  lemma DarkCodeFrame(code: int, palette: seq<RGB>)
    requires code !in FillOrder
    requires |palette| >= 3
    ensures |Drawing(code)| == NumPixels && Draw(Drawing(code), palette) == seq(NumPixels, k => 0)
  {
    DrawingTotal(code);
    var words := Draw(Drawing(code), palette);
    assert forall k :: 0 <= k < NumPixels ==> words[k] == 0;
  }
}
