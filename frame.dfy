/** The still frame of a portrait video (video.py, lines 18-39): the source image is scaled
    uniformly to fit a 1080x1920 canvas, centred, and copied onto a black canvas. */
module Frame {

  const TargetWidth: int := 1080
  const TargetHeight: int := 1920
  const Channels: int := 3

  newtype uint8 = x: int | 0 <= x < 256

  /** A resized image as the resampler hands it back: rows of pixels, each pixel a channel vector. */
  type Grid = seq<seq<seq<uint8>>>

  /** `g` has `height` rows of `width` pixels of `Channels` channels each (a numpy array of that shape). */
  ghost predicate Shaped(g: Grid, height: int, width: int) {
    && |g| == height
    && (forall y :: 0 <= y < |g| ==> |g[y]| == width)
    && (forall y, x :: 0 <= y < |g| && 0 <= x < |g[y]| ==> |g[y][x]| == Channels)
  }

  /** Where the resized image goes on the canvas. */
  datatype Placement = Placement(newWidth: int, newHeight: int, startX: int, startY: int)

  /** `s` scales a `width` x `height` image into the canvas without cropping. */
  ghost predicate FitsCanvas(width: int, height: int, s: real) {
    (width as real) * s <= TargetWidth as real && (height as real) * s <= TargetHeight as real
  }

  /** The uniform scale factor, the smaller of the two per-axis ratios. */
  function Scale(width: int, height: int): (s: real)
    requires width > 0 && height > 0
    ensures s > 0.0
    ensures s <= TargetWidth as real / width as real && s <= TargetHeight as real / height as real
    ensures s == TargetWidth as real / width as real || s == TargetHeight as real / height as real
  {
    var sx := TargetWidth as real / width as real;
    var sy := TargetHeight as real / height as real;
    if sy < sx then sy else sx
  }

  /** The scaled size, truncated to whole pixels, and the centring offsets by floor division. */
  function Place(width: int, height: int): (p: Placement)
    requires width > 0 && height > 0
    ensures p.newWidth as real <= (width as real) * Scale(width, height) < p.newWidth as real + 1.0
    ensures p.newHeight as real <= (height as real) * Scale(width, height) < p.newHeight as real + 1.0
    ensures 2 * p.startX <= TargetWidth - p.newWidth <= 2 * p.startX + 1
    ensures 2 * p.startY <= TargetHeight - p.newHeight <= 2 * p.startY + 1
  {
    var s := Scale(width, height);
    var newWidth := ((width as real) * s).Floor;
    var newHeight := ((height as real) * s).Floor;
    Placement(newWidth, newHeight, (TargetWidth - newWidth) / 2, (TargetHeight - newHeight) / 2)
  }

  /** The scale is the largest uniform scale that fits: it fits, and every scale that fits is no larger. */
  lemma ScaleIsLargestFit(width: int, height: int, s: real)
    requires width > 0 && height > 0
    ensures FitsCanvas(width, height, Scale(width, height))
    ensures FitsCanvas(width, height, s) ==> s <= Scale(width, height)
  {}

  /** The scaled image never exceeds the canvas and is never negative in size. */
  lemma PlaceFits(width: int, height: int)
    requires width > 0 && height > 0
    ensures 0 <= Place(width, height).newWidth <= TargetWidth
    ensures 0 <= Place(width, height).newHeight <= TargetHeight
  {
    ScaledWithin(width as real, Scale(width, height), TargetWidth);
    ScaledWithin(height as real, Scale(width, height), TargetHeight);
  }

  /** Truncating `a * s` stays within `0..n` when `s` is a positive scale no larger than `n / a`. */
  lemma ScaledWithin(a: real, s: real, n: int)
    requires a > 0.0 && s > 0.0 && n >= 0 && s <= n as real / a
    ensures 0 <= (a * s).Floor <= n
  {
    assert a * s <= a * (n as real / a);
  }

  /** Aspect fit: the axis with the smaller ratio is filled exactly (in exact arithmetic). */
  lemma PlaceFillsConstrainedAxis(width: int, height: int)
    requires width > 0 && height > 0
    ensures TargetWidth as real / width as real <= TargetHeight as real / height as real
            ==> Place(width, height).newWidth == TargetWidth
    ensures TargetWidth as real / width as real > TargetHeight as real / height as real
            ==> Place(width, height).newHeight == TargetHeight
  {}

  /** The placed block lies inside the canvas, and the two margins on each axis differ by at most one. */
  lemma PlaceCentred(width: int, height: int)
    requires width > 0 && height > 0
    ensures var p := Place(width, height);
      && 0 <= p.startX && p.startX + p.newWidth <= TargetWidth
      && 0 <= p.startY && p.startY + p.newHeight <= TargetHeight
      && 0 <= (TargetWidth - p.startX - p.newWidth) - p.startX <= 1
      && 0 <= (TargetHeight - p.startY - p.newHeight) - p.startY <= 1
  {
    PlaceFits(width, height);
  }

  /** A square image fills the width and sits between equal black bars above and below. */
  lemma SquarePlacement(side: int)
    requires side > 0
    ensures Place(side, side) == Placement(1080, 1080, 0, 420)
  {}

  /** Row `y`, column `x` of the canvas lies in the block that `p` copies the resized image to. */
  ghost predicate InBlock(p: Placement, y: int, x: int) {
    p.startY <= y < p.startY + p.newHeight && p.startX <= x < p.startX + p.newWidth
  }

  /** A black canvas of the portrait size (numpy zeros of shape 1920x1080x3). */
  method BlackCanvas() returns (canvas: array3<uint8>)
    ensures fresh(canvas)
    ensures canvas.Length0 == TargetHeight && canvas.Length1 == TargetWidth && canvas.Length2 == Channels
    ensures forall y, x, k :: 0 <= y < canvas.Length0 && 0 <= x < canvas.Length1 && 0 <= k < canvas.Length2
              ==> canvas[y, x, k] == 0
  {
    canvas := new uint8[TargetHeight, TargetWidth, Channels]((y, x, k) => 0);
  }

  /** Slice assignment `canvas[sy:sy+h, sx:sx+w] = resized`: the block takes the resized pixels and
      every other canvas value is left as it was. */
  method Blit(canvas: array3<uint8>, resized: Grid, p: Placement)
    requires canvas.Length2 == Channels
    requires p.newWidth >= 0 && p.newHeight >= 0
    requires Shaped(resized, p.newHeight, p.newWidth)
    requires 0 <= p.startY && p.startY + p.newHeight <= canvas.Length0
    requires 0 <= p.startX && p.startX + p.newWidth <= canvas.Length1
    modifies canvas
    ensures forall y, x, k :: 0 <= y < canvas.Length0 && 0 <= x < canvas.Length1 && 0 <= k < canvas.Length2
              ==> canvas[y, x, k] == if InBlock(p, y, x) then resized[y - p.startY][x - p.startX][k]
                                    else old(canvas[y, x, k])
  {
    var sy, sx := p.startY, p.startX;
    for i := 0 to p.newHeight
      invariant forall y, x, k :: 0 <= y < canvas.Length0 && 0 <= x < canvas.Length1 && 0 <= k < canvas.Length2
                  ==> canvas[y, x, k] == if sy <= y < sy + i && sx <= x < sx + p.newWidth
                                        then resized[y - sy][x - sx][k] else old(canvas[y, x, k])
    {
      for j := 0 to p.newWidth
        invariant forall y, x, k :: 0 <= y < canvas.Length0 && 0 <= x < canvas.Length1 && 0 <= k < canvas.Length2
                    ==> canvas[y, x, k] == if (sy <= y < sy + i && sx <= x < sx + p.newWidth)
                                              || (y == sy + i && sx <= x < sx + j)
                                          then resized[y - sy][x - sx][k] else old(canvas[y, x, k])
      {
        for k := 0 to Channels
          invariant forall y, x, c :: 0 <= y < canvas.Length0 && 0 <= x < canvas.Length1 && 0 <= c < canvas.Length2
                      ==> canvas[y, x, c] == if (sy <= y < sy + i && sx <= x < sx + p.newWidth)
                                                || (y == sy + i && sx <= x < sx + j)
                                                || (y == sy + i && x == sx + j && c < k)
                                            then resized[y - sy][x - sx][c] else old(canvas[y, x, c])
        {
          canvas[sy + i, sx + j, k] := resized[i][j][k];
        }
      }
    }
  }

  /** The frame: a black 1920x1080x3 canvas with `resized` copied in at the centred placement of a
      `width` x `height` source; outside that block every value is 0. */
  method RenderFrame(width: int, height: int, resized: Grid) returns (canvas: array3<uint8>)
    requires width > 0 && height > 0
    requires Shaped(resized, Place(width, height).newHeight, Place(width, height).newWidth)
    ensures fresh(canvas)
    ensures canvas.Length0 == TargetHeight && canvas.Length1 == TargetWidth && canvas.Length2 == Channels
    ensures forall y, x, k :: 0 <= y < canvas.Length0 && 0 <= x < canvas.Length1 && 0 <= k < canvas.Length2
              ==> canvas[y, x, k] == if InBlock(Place(width, height), y, x)
                                    then resized[y - Place(width, height).startY][x - Place(width, height).startX][k]
                                    else 0
  {
    var p := Place(width, height);
    PlaceCentred(width, height);
    canvas := BlackCanvas();
    Blit(canvas, resized, p);
  }
}
