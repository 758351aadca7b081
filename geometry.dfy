/** Where the two pictures go: the background photo is scaled like CSS `object-fit: cover`,
    and the logo is a small square centred near the top. */
module Geometry {
  import opened Canvas

  /** The rectangle the background photo is drawn into on a `canvasWidth` by `canvasHeight`
      canvas. The canvas is as wide as the photo's aspect ratio allows or as tall; the
      photo is fitted to the other axis and centred on the one that overflows. */
  function CoverFit(imageWidth: real, imageHeight: real, canvasWidth: real, canvasHeight: real): (r: Rect)
    requires imageWidth > 0.0 && imageHeight > 0.0 && canvasWidth > 0.0 && canvasHeight > 0.0
    ensures r.height > 0.0 && r.width / r.height == imageWidth / imageHeight
    ensures r.width >= canvasWidth && r.height >= canvasHeight
    ensures r.width == canvasWidth || r.height == canvasHeight
    ensures r.x == (canvasWidth - r.width) / 2.0 <= 0.0
    ensures r.y == (canvasHeight - r.height) / 2.0 <= 0.0
  {
    var imageAspect := imageWidth / imageHeight;
    var canvasAspect := canvasWidth / canvasHeight;
    if imageAspect > canvasAspect then
      var drawHeight := canvasHeight;
      var drawWidth := drawHeight * imageAspect;
      WiderThanCanvas(imageAspect, canvasWidth, canvasHeight);
      Rect((canvasWidth - drawWidth) / 2.0, 0.0, drawWidth, drawHeight)
    else
      var drawWidth := canvasWidth;
      var drawHeight := drawWidth / imageAspect;
      TallerThanCanvas(imageAspect, canvasWidth, canvasHeight);
      Rect(0.0, (canvasHeight - drawHeight) / 2.0, drawWidth, drawHeight)
  }

  /** A photo wider than the canvas, drawn at the canvas height, overflows it sideways. */
  lemma WiderThanCanvas(aspect: real, canvasWidth: real, canvasHeight: real)
    requires canvasHeight > 0.0 && aspect > canvasWidth / canvasHeight
    ensures var drawWidth := canvasHeight * aspect;
      && drawWidth > canvasWidth
      && drawWidth / canvasHeight == aspect
      && (canvasWidth - drawWidth) / 2.0 <= 0.0
  {
    assert canvasHeight * (canvasWidth / canvasHeight) == canvasWidth;
    assert canvasHeight * aspect / canvasHeight == aspect;
  }

  /** A photo no wider than the canvas, drawn at the canvas width, overflows it vertically. */
  lemma TallerThanCanvas(aspect: real, canvasWidth: real, canvasHeight: real)
    requires canvasWidth > 0.0 && canvasHeight > 0.0 && 0.0 < aspect <= canvasWidth / canvasHeight
    ensures var drawHeight := canvasWidth / aspect;
      && drawHeight >= canvasHeight
      && drawHeight > 0.0
      && canvasWidth / drawHeight == aspect
      && (canvasHeight - drawHeight) / 2.0 <= 0.0
  {
    assert canvasWidth / aspect * aspect == canvasWidth;
    assert canvasHeight * aspect <= canvasWidth;
  }

  /** A rectangle (of positive height) that keeps the photo's aspect ratio and reaches
      every edge of the canvas. */
  ghost predicate CoversCanvas(r: Rect, imageWidth: real, imageHeight: real, canvasWidth: real, canvasHeight: real)
    requires imageHeight > 0.0
  {
    r.height > 0.0 && r.width / r.height == imageWidth / imageHeight
    && r.width >= canvasWidth && r.height >= canvasHeight
  }

  /** The cover fit is the smallest covering rectangle: any other one that keeps the aspect
      ratio and reaches every edge is at least as wide and at least as tall. */
  lemma CoverFitIsSmallest(imageWidth: real, imageHeight: real, canvasWidth: real, canvasHeight: real, other: Rect)
    requires imageWidth > 0.0 && imageHeight > 0.0 && canvasWidth > 0.0 && canvasHeight > 0.0
    requires CoversCanvas(other, imageWidth, imageHeight, canvasWidth, canvasHeight)
    ensures var r := CoverFit(imageWidth, imageHeight, canvasWidth, canvasHeight);
      other.width >= r.width && other.height >= r.height
  {
    var r := CoverFit(imageWidth, imageHeight, canvasWidth, canvasHeight);
    var aspect := imageWidth / imageHeight;
    assert other.width == aspect * other.height by {
      assert other.width / other.height * other.height == other.width;
    }
    assert r.width == aspect * r.height by {
      assert r.width / r.height * r.height == r.width;
    }
    if r.width == canvasWidth {
      assert other.width >= r.width;
      assert aspect > 0.0;
    } else {
      assert other.height >= r.height;
      assert aspect > 0.0;
    }
  }

  /** The cover fit scales the photo uniformly by the larger of the two axis ratios. */
  lemma CoverFitScale(imageWidth: real, imageHeight: real, canvasWidth: real, canvasHeight: real)
    requires imageWidth > 0.0 && imageHeight > 0.0 && canvasWidth > 0.0 && canvasHeight > 0.0
    ensures var r := CoverFit(imageWidth, imageHeight, canvasWidth, canvasHeight);
      var s := Max(canvasWidth / imageWidth, canvasHeight / imageHeight);
      r.width == imageWidth * s && r.height == imageHeight * s
  {
    var r := CoverFit(imageWidth, imageHeight, canvasWidth, canvasHeight);
    assert r.width == imageWidth / imageHeight * r.height by {
      assert r.width / r.height * r.height == r.width;
    }
    if r.width == canvasWidth {
      assert r.height == imageHeight * (canvasWidth / imageWidth);
      assert canvasWidth / imageWidth >= canvasHeight / imageHeight;
    } else {
      assert r.height == canvasHeight;
      assert canvasHeight / imageHeight >= canvasWidth / imageWidth;
    }
  }

  /** How far down the logo starts: a 15% top margin plus another 3% of the height. */
  function LogoY(height: real): (y: real)
    ensures height >= 0.0 ==> 0.0 <= y <= height
    ensures y == 0.18 * height
  {
    height * 0.15 + height * 0.03
  }

  /** The logo's side: 8% of the shorter canvas side. */
  function LogoSize(width: real, height: real): (size: real)
    ensures size == 0.08 * width || size == 0.08 * height
    ensures size <= 0.08 * width && size <= 0.08 * height
  {
    Min(width, height) * 0.08
  }

  /** The square the logo is drawn into, centred horizontally, its top edge at `logoY`. */
  function LogoRect(width: real, height: real, logoY: real): (r: Rect)
    ensures r.width == r.height == LogoSize(width, height)
    ensures r.x + r.width / 2.0 == width / 2.0
    ensures r.y == logoY
  {
    var logoSize := LogoSize(width, height);
    Rect((width - logoSize) / 2.0, logoY, logoSize, logoSize)
  }

  /** On a canvas of positive size, the logo at its usual height lies inside the canvas,
      entirely in its upper 26%. */
  lemma LogoInsideCanvas(width: real, height: real)
    requires width > 0.0 && height > 0.0
    ensures var r := LogoRect(width, height, LogoY(height));
      && 0.0 < r.x && r.x + r.width < width
      && 0.0 < r.y && r.y + r.height <= 0.26 * height
  {
  }
}
