/** The PIL images the services open, draw on, crop and resize, kept as a
    description of how each was made; the pixels themselves and the PNG
    encoder are not modelled. */
module Imaging {
  import opened Common
  import opened Geometry

  datatype Picture =
    | Loaded(path: string, w: nat, h: nat)              // Image.open(path).convert("RGB")
    | Drawn(base: Picture, box: Corners, caption: string) // rectangle and label drawn on a copy
    | Cropped(base: Picture, window: Corners)           // base.crop((x1, y1, x2, y2))
    | Resized(base: Picture, w: nat, h: nat)            // base.resize((w, h))

  /** The bytes of a picture saved in PNG format. */
  datatype Png = Png(picture: Picture)

  function Width(p: Picture): int
  {
    match p
    case Loaded(_, w, _) => w
    case Drawn(base, _, _) => Width(base)
    case Cropped(_, win) => win.x2 - win.x1
    case Resized(_, w, _) => w
  }

  function Height(p: Picture): int
  {
    match p
    case Loaded(_, _, h) => h
    case Drawn(base, _, _) => Height(base)
    case Cropped(_, win) => win.y2 - win.y1
    case Resized(_, _, h) => h
  }

  // ---------------------------------------------------------------------------
  // the boxes Pillow refuses

  /** The messages of the `ValueError`s below. */
  const RectangleXError: string := "x1 must be greater than or equal to x0"
  const RectangleYError: string := "y1 must be greater than or equal to y0"
  const CropRightError: string := "Coordinate 'right' is less than 'left'"
  const CropLowerError: string := "Coordinate 'lower' is less than 'upper'"

  /** The error `ImageDraw.rectangle` raises for a box whose corners are out of
      order, checked horizontally first. */
  function RectangleError(box: Corners): (e: Option<string>)
    ensures e.None? <==> Ordered(box)
    ensures e.Some? ==> e.value in {RectangleXError, RectangleYError}
  {
    if box.x2 < box.x1 then Some(RectangleXError)
    else if box.y2 < box.y1 then Some(RectangleYError)
    else None
  }

  /** The error `Image.crop` raises for a window whose right edge is left of
      its left edge or whose lower edge is above its upper edge. */
  function CropError(window: Corners): (e: Option<string>)
    ensures e.None? <==> Ordered(window)
    ensures e.Some? ==> e.value in {CropRightError, CropLowerError}
  {
    if window.x2 < window.x1 then Some(CropRightError)
    else if window.y2 < window.y1 then Some(CropLowerError)
    else None
  }
}
