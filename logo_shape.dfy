/**
 * The logo shaper: an uploaded image is drawn, stretched, onto a canvas whose
 * size and clip region depend on the chosen shape. The pixels themselves are
 * not modelled; a shaped logo is described by its source file and the
 * geometry it was drawn with.
 */
module LogoShape {
  import opened Browser

  /** The base canvas size, which matches the rendered QR code. */
  const BaseSize: nat := 300

  /** An axis-aligned rectangle with its top-left corner at (x, y). */
  datatype Rect = Rect(x: int, y: int, width: int, height: int)

  /** The clip path: a disc, or a rectangle. */
  datatype ClipRegion = Disc(cx: int, cy: int, radius: int) | Box(rect: Rect)

  /**
   * The PNG that `canvas.toDataURL("image/png")` yields, described by the
   * image drawn, the canvas size, the clip region and the rectangle the image
   * was stretched over.
   */
  datatype ShapedLogo = ShapedLogo(source: File, width: nat, height: nat, clip: ClipRegion, drawn: Rect)

  /**
   * Canvas width and height for a shape: `size * 1.4` (exactly 420 in
   * floating point) wide for "rectangle", `size` wide otherwise, always
   * `size` high.
   */
  function CanvasDims(shape: string): (dims: (nat, nat))
    ensures dims.1 == 300
    ensures dims.0 == (if shape == "rectangle" then 420 else 300)
  {
    (if shape == "rectangle" then BaseSize * 14 / 10 else BaseSize, BaseSize)
  }

  /** The clip path: a disc of radius `size / 2` at the canvas centre for "circle", the whole canvas otherwise. */
  function ClipFor(shape: string): ClipRegion
  {
    var (w, h) := CanvasDims(shape);
    if shape == "circle" then Disc(w / 2, h / 2, BaseSize / 2) else Box(Rect(0, 0, w, h))
  }

  /** What `processLogo(file, shape)` resolves to: the file stretched over the whole clipped canvas. */
  function Shaped(file: File, shape: string): ShapedLogo
  {
    var (w, h) := CanvasDims(shape);
    ShapedLogo(file, w, h, ClipFor(shape), Rect(0, 0, w, h))
  }

  /** Whether the point (x, y) lies in the region. */
  predicate InRegion(c: ClipRegion, x: int, y: int)
  {
    match c
    case Disc(cx, cy, r) => (x - cx) * (x - cx) + (y - cy) * (y - cy) <= r * r
    case Box(b) => b.x <= x <= b.x + b.width && b.y <= y <= b.y + b.height
  }

  /** Whether the point (x, y) lies on the canvas of the given size. */
  predicate OnCanvas(w: nat, h: nat, x: int, y: int)
  {
    0 <= x <= w && 0 <= y <= h
  }

  /**
   * `processLogo(file, shape)` once the image has loaded: a fresh canvas is
   * sized for the shape, clipped and drawn on, and its contents are returned.
   */
  method ProcessLogo(file: File, shape: string) returns (png: ShapedLogo)
    ensures png == Shaped(file, shape)
  {
    var canvas := new Canvas();
    var size := BaseSize;
    canvas.width := if shape == "rectangle" then size * 14 / 10 else size;
    canvas.height := size;
    var clip;
    if shape == "circle" {
      clip := Disc(canvas.width / 2, canvas.height / 2, size / 2);
    } else {
      clip := Box(Rect(0, 0, canvas.width, canvas.height));
    }
    png := ShapedLogo(file, canvas.width, canvas.height, clip, Rect(0, 0, canvas.width, canvas.height));
  }

  /**
   * The clip region of every shape lies on its canvas; in particular the
   * circle's disc, whose radius is taken from the base size, fits because a
   * circle canvas is square.
   */
  lemma ClipWithinCanvas(shape: string, x: int, y: int)
    ensures InRegion(ClipFor(shape), x, y) ==> OnCanvas(CanvasDims(shape).0, CanvasDims(shape).1, x, y)
  {
  }

  /**
   * For "circle" the clip is the disc of radius 150 centred on the 300 x 300
   * canvas, which keeps the centre and cuts the corners; for every other shape
   * it is exactly the canvas.
   */
  lemma ClipByShape(shape: string, x: int, y: int)
    ensures shape == "circle" ==>
      ClipFor(shape) == Disc(150, 150, 150) &&
      InRegion(ClipFor(shape), 150, 150) && !InRegion(ClipFor(shape), 0, 0)
    ensures shape != "circle" ==>
      (InRegion(ClipFor(shape), x, y) <==> OnCanvas(CanvasDims(shape).0, CanvasDims(shape).1, x, y))
  {
  }

  /**
   * The shaped logo draws the given file over exactly the whole canvas, and
   * two shapes give the same logo exactly when they agree on being
   * "rectangle" and on being "circle": "square" and any unknown shape look alike.
   */
  lemma ShapedIff(file: File, s1: string, s2: string)
    ensures Shaped(file, s1).source == file
    ensures Shaped(file, s1).drawn == Rect(0, 0, Shaped(file, s1).width, Shaped(file, s1).height)
    ensures Shaped(file, s1) == Shaped(file, s2) <==>
      (s1 == "rectangle") == (s2 == "rectangle") && (s1 == "circle") == (s2 == "circle")
  {
  }
}
