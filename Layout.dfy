/** The vertical layout of the splash window: an app-info header, an optional filler
    and a status footer, each an image crop shown at a declared size. Pixels are not
    modelled; a region is its crop box and its display size. */
module Layout {
  import opened PyValues  // for Option only

  /** Height of the header and footer when the window is tall enough for a filler. */
  const AppInfoHeight: nat := 80

  /** A crop box `(left, top, right, bottom)`, right and bottom exclusive. */
  datatype Crop = Crop(left: int, top: int, right: int, bottom: int)

  /** A crop and the size its image is displayed at. */
  datatype Region = Region(crop: Crop, displayWidth: int, displayHeight: int)

  datatype Regions = Regions(header: Region, filler: Option<Region>, footer: Region)

  function Height(r: Region): int {
    r.crop.bottom - r.crop.top
  }

  /** The crop and the displayed image have the same size, and the crop spans the
      whole window width. */
  predicate FullWidthAndConsistent(r: Region, width: nat) {
    r.crop.left == 0 && r.crop.right == width &&
    r.displayWidth == width && r.displayHeight == Height(r)
  }

  /** The header height: 80 above a window height of 160, half the height otherwise. */
  function HeaderHeight(windowHeight: nat): (a: nat)
    ensures windowHeight > 2 * AppInfoHeight ==> a == AppInfoHeight
    ensures windowHeight <= 2 * AppInfoHeight ==> 2 * a <= windowHeight <= 2 * a + 1
  {
    if windowHeight > 2 * AppInfoHeight then AppInfoHeight else windowHeight / 2
  }

  /** The crops of `_create_widgets`, for a window of the given size. */
  function CreateLayout(width: nat, height: nat): (l: Regions)
    ensures l.filler.Some? <==> height > 2 * AppInfoHeight
    ensures l.header.crop.top == 0 && l.footer.crop.bottom == height
    ensures Height(l.header) == Height(l.footer)
  {
    var a := HeaderHeight(height);
    Regions(
      Region(Crop(0, 0, width, a), width, a),
      if height > 2 * AppInfoHeight
      then Some(Region(Crop(0, a, width, height - a), width, height - 2 * a))
      else None,
      Region(Crop(0, height - a, width, height), width, a))
  }

  function CoveredBy(r: Region, y: int): nat {
    if r.crop.top <= y < r.crop.bottom then 1 else 0
  }

  /** How many of the layout's crops contain row `y`. */
  function CoverCount(l: Regions, y: int): nat {
    CoveredBy(l.header, y) + (if l.filler.Some? then CoveredBy(l.filler.value, y) else 0) + CoveredBy(l.footer, y)
  }

  /** The crops tile rows `[0, height)`: every row is in exactly one crop, no other row in any. */
  ghost predicate Tiles(l: Regions, height: nat) {
    forall y :: CoverCount(l, y) == (if 0 <= y < height then 1 else 0)
  }

  /** The crops never overlap. */
  ghost predicate Disjoint(l: Regions) {
    forall y :: CoverCount(l, y) <= 1
  }

  /** Every region's crop spans the window width and matches the size it is shown at. */
  lemma RegionsConsistent(width: nat, height: nat)
    ensures var l := CreateLayout(width, height);
      FullWidthAndConsistent(l.header, width) && FullWidthAndConsistent(l.footer, width) &&
      (l.filler.Some? ==> FullWidthAndConsistent(l.filler.value, width))
  {
  }

  /** Above 160 rows: header `[0,80)`, filler `[80,H-80)`, footer `[H-80,H)` tile the
      window, and the filler is shown at its declared height `H - 160`. */
  lemma TallLayoutTiles(width: nat, height: nat)
    requires height > 2 * AppInfoHeight
    ensures var l := CreateLayout(width, height);
      l.filler.Some? &&
      l.header.crop == Crop(0, 0, width, 80) &&
      l.filler.value.crop == Crop(0, 80, width, height - 80) &&
      l.footer.crop == Crop(0, height - 80, width, height) &&
      l.filler.value.displayHeight == height - 2 * AppInfoHeight == Height(l.filler.value) &&
      Tiles(l, height)
  {
  }

  /** At most 160 rows: two crops of height `H/2`, which never overlap and tile the
      window exactly when the height is even. */
  lemma ShortLayoutHalves(width: nat, height: nat)
    requires height <= 2 * AppInfoHeight
    ensures var l := CreateLayout(width, height);
      l.filler.None? &&
      l.header.crop == Crop(0, 0, width, height / 2) &&
      l.footer.crop == Crop(0, height - height / 2, width, height) &&
      Disjoint(l) &&
      (Tiles(l, height) <==> height % 2 == 0)
  {
    if height % 2 == 1 {
      OddShortHeightMissesMiddleRow(width, height);
    }
  }

  /** With an odd height of at most 160, the middle row `H/2` is in neither crop. */
  lemma OddShortHeightMissesMiddleRow(width: nat, height: nat)
    requires height <= 2 * AppInfoHeight && height % 2 == 1
    ensures CoverCount(CreateLayout(width, height), height / 2) == 0
    ensures 0 <= height / 2 < height
  {
  }
}
