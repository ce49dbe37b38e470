/**
 * The image-fitting computation `getDimmensions` of script.js: it scales an
 * image of a given size to the canvas, keeping the image's aspect ratio, and
 * centres it along the axis that has room left over.
 *
 * Dimensions are modelled as `real`; every dimension must be positive (zero or
 * negative sizes give degenerate placements, and NaN for a 0 by 0 image).
 */
module Fit {

  /** Where and how large the image is drawn: its size and its top-left corner. */
  datatype Placement = Placement(width: real, height: real, startX: real, startY: real)

  /** All four dimensions are positive. */
  predicate PositiveSizes(canvasWidth: real, canvasHeight: real, imageWidth: real, imageHeight: real)
  {
    canvasWidth > 0.0 && canvasHeight > 0.0 && imageWidth > 0.0 && imageHeight > 0.0
  }

  /** The placed rectangle lies entirely inside the canvas. */
  predicate Inside(canvasWidth: real, canvasHeight: real, p: Placement)
  {
    0.0 <= p.startX && p.startX + p.width <= canvasWidth &&
    0.0 <= p.startY && p.startY + p.height <= canvasHeight
  }

  /**
   * getDimmensions as written: the only test is whether the image itself is
   * taller than wide (aspect ratio below 1); a square image takes the wide branch.
   * The result keeps the image's aspect ratio, touches the canvas on the binding
   * edge and splits the slack evenly on the other axis.
   */
  function GetDimensions(canvasWidth: real, canvasHeight: real, imageWidth: real, imageHeight: real): (p: Placement)
    requires PositiveSizes(canvasWidth, canvasHeight, imageWidth, imageHeight)
    ensures p.width > 0.0 && p.height > 0.0
    ensures p.width / p.height == imageWidth / imageHeight
    ensures imageWidth < imageHeight ==> p.height == canvasHeight && p.startY == 0.0
    ensures imageWidth >= imageHeight ==> p.width == canvasWidth && p.startX == 0.0
    ensures 2.0 * p.startX + p.width == canvasWidth
    ensures 2.0 * p.startY + p.height == canvasHeight
  {
    var aspectRatio := imageWidth / imageHeight;
    RatioBelowOne(imageWidth, imageHeight);
    if aspectRatio < 1.0 then
      var width := canvasHeight * aspectRatio;
      Placement(width, canvasHeight, (canvasWidth - width) / 2.0, 0.0)
    else
      var height := canvasWidth / aspectRatio;
      Placement(canvasWidth, height, 0.0, (canvasHeight - height) / 2.0)
  }

  /** An aspect ratio below 1 means the image is taller than wide. */
  lemma RatioBelowOne(imageWidth: real, imageHeight: real)
    requires imageHeight > 0.0
    ensures imageWidth / imageHeight < 1.0 <==> imageWidth < imageHeight
  {
  }

  /**
   * The properties stated by GetDimensions determine the placement: any placement
   * with the image's aspect ratio, the same binding edge and even slack is the one
   * GetDimensions returns.
   */
  lemma PlacementDetermined(canvasWidth: real, canvasHeight: real, imageWidth: real, imageHeight: real, q: Placement)
    requires PositiveSizes(canvasWidth, canvasHeight, imageWidth, imageHeight)
    requires q.height > 0.0 && q.width / q.height == imageWidth / imageHeight
    requires imageWidth < imageHeight ==> q.height == canvasHeight && q.startY == 0.0
    requires imageWidth >= imageHeight ==> q.width == canvasWidth && q.startX == 0.0
    requires 2.0 * q.startX + q.width == canvasWidth && 2.0 * q.startY + q.height == canvasHeight
    ensures q == GetDimensions(canvasWidth, canvasHeight, imageWidth, imageHeight)
  {
  }

  /**
   * The placement fits inside the canvas exactly when the canvas is at least as
   * wide (for a tall image) or at least as tall (for a wide or square image) as the
   * scaled image needs.
   */
  lemma InsideIff(canvasWidth: real, canvasHeight: real, imageWidth: real, imageHeight: real)
    requires PositiveSizes(canvasWidth, canvasHeight, imageWidth, imageHeight)
    ensures Inside(canvasWidth, canvasHeight, GetDimensions(canvasWidth, canvasHeight, imageWidth, imageHeight))
        <==> (if imageWidth < imageHeight then canvasHeight * imageWidth <= canvasWidth * imageHeight
              else canvasWidth * imageHeight <= canvasHeight * imageWidth)
  {
  }

  /** On a square canvas (script.js draws on 400 by 400) the image always fits inside. */
  lemma SquareCanvasInside(side: real, imageWidth: real, imageHeight: real)
    requires PositiveSizes(side, side, imageWidth, imageHeight)
    ensures Inside(side, side, GetDimensions(side, side, imageWidth, imageHeight))
  {
  }

  /** A canvas 400 wide and 100 tall with a square 400 by 400 image: the image is drawn 400 tall. */
  lemma NonSquareCanvasOverflows()
    ensures GetDimensions(400.0, 100.0, 400.0, 400.0) == Placement(400.0, 400.0, 0.0, -150.0)
    ensures !Inside(400.0, 100.0, GetDimensions(400.0, 100.0, 400.0, 400.0))
  {
  }

  /** The three worked placements on the 400 by 400 canvas. */
  lemma SquareCanvasExamples()
    ensures GetDimensions(400.0, 400.0, 800.0, 400.0) == Placement(400.0, 200.0, 0.0, 100.0)
    ensures GetDimensions(400.0, 400.0, 400.0, 800.0) == Placement(200.0, 400.0, 100.0, 0.0)
    ensures GetDimensions(400.0, 400.0, 400.0, 400.0) == Placement(400.0, 400.0, 0.0, 0.0)
  {
  }

  /**
   * The fit the documentation of getDimmensions promises: the image is compared with
   * the canvas's own aspect ratio, so the binding edge is the one that keeps the
   * image inside whatever the canvas's shape.
   */
  function FitContain(canvasWidth: real, canvasHeight: real, imageWidth: real, imageHeight: real): (p: Placement)
    requires PositiveSizes(canvasWidth, canvasHeight, imageWidth, imageHeight)
    ensures p.width > 0.0 && p.height > 0.0
    ensures p.width / p.height == imageWidth / imageHeight
    ensures p.width == canvasWidth || p.height == canvasHeight
    ensures 2.0 * p.startX + p.width == canvasWidth
    ensures 2.0 * p.startY + p.height == canvasHeight
    ensures Inside(canvasWidth, canvasHeight, p)
  {
    var aspectRatio := imageWidth / imageHeight;
    if imageWidth * canvasHeight < canvasWidth * imageHeight then
      var width := canvasHeight * aspectRatio;
      assert width * imageHeight == canvasHeight * imageWidth;
      Placement(width, canvasHeight, (canvasWidth - width) / 2.0, 0.0)
    else
      var height := canvasWidth / aspectRatio;
      assert height * imageWidth == canvasWidth * imageHeight;
      Placement(canvasWidth, height, 0.0, (canvasHeight - height) / 2.0)
  }

  /** No uniformly scaled copy of the image that fits the canvas is wider than FitContain's. */
  lemma FitContainIsLargest(canvasWidth: real, canvasHeight: real, imageWidth: real, imageHeight: real, scale: real)
    requires PositiveSizes(canvasWidth, canvasHeight, imageWidth, imageHeight)
    requires scale > 0.0 && imageWidth * scale <= canvasWidth && imageHeight * scale <= canvasHeight
    ensures imageWidth * scale <= FitContain(canvasWidth, canvasHeight, imageWidth, imageHeight).width
  {
  }

  /** On a square canvas the corrected fit and getDimmensions agree. */
  lemma FitContainOnSquareCanvas(side: real, imageWidth: real, imageHeight: real)
    requires PositiveSizes(side, side, imageWidth, imageHeight)
    ensures FitContain(side, side, imageWidth, imageHeight) == GetDimensions(side, side, imageWidth, imageHeight)
  {
  }
}
