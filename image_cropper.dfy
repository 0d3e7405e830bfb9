/**
 * Logic of the receipt crop dialog: the power-of-two sample size used to
 * decode the photo, the crop rectangle (fractions of the shown image) as a
 * small state machine driven by drag gestures, the choice of the handle a
 * drag grabs, and the conversion of the rectangle to bitmap pixels.
 *
 * Kotlin `Float` coordinates are modelled as `real`; the image frame on the
 * canvas (its size and offset) is a parameter of the gesture handlers.
 */
module ImageCropper {
  import opened Wrappers
  import opened Ints

  /** Largest side of the bitmap kept for cropping. */
  const MaxCropSize: int := 2000
  /** Smallest side of the crop rectangle, as a fraction of the image (`0.1f`). */
  const MinCropSize: real := 0.1
  /** A drag that starts further than this from every corner moves the whole rectangle. */
  const HandleThreshold: real := 60.0

  // ---------------------------------------------------------------------
  // Sample size
  // ---------------------------------------------------------------------

  /**
   * `calculateInSampleSize`: doubles the sample size, starting from 1, while
   * the larger side divided by it still exceeds `maxSize`. The loader only
   * calls it on positive Kotlin `Int` sides and with `MaxCropSize`.
   */
  method CalculateInSampleSize(width: int, height: int, maxSize: int) returns (s: int)
    requires 0 < width < IntLimit && 0 < height < IntLimit && maxSize >= 1
    ensures IsPowerOfTwo(s)
    ensures Max(width, height) / s <= maxSize
    ensures forall p :: 1 <= p < s && IsPowerOfTwo(p) ==> Max(width, height) / p > maxSize
    ensures s <= Max(width, height)
  {
    s := 1;
    var maxDimension := Max(width, height);
    while maxDimension / s > maxSize
      invariant IsPowerOfTwo(s) && 1 <= s <= maxDimension
      invariant forall p :: 1 <= p < s && IsPowerOfTwo(p) ==> maxDimension / p > maxSize
      decreases maxDimension - s
    {
      QuotientAtLeastTwo(maxDimension, s, maxSize);
      forall p | 1 <= p < 2 * s && IsPowerOfTwo(p)
        ensures maxDimension / p > maxSize
      {
        if p >= s {
          PowerOfTwoGap(s, p);
        }
      }
      assert IsPowerOfTwo(2 * s) by { assert (2 * s) / 2 == s; }
      s := s * 2;
    }
  }

  // ---------------------------------------------------------------------
  // The crop rectangle
  // ---------------------------------------------------------------------

  datatype CropHandle = TopLeft | TopRight | BottomLeft | BottomRight | Center

  /** The crop rectangle as fractions (0 to 1) of the shown image. */
  datatype Rect = Rect(left: real, top: real, right: real, bottom: real)

  /** The invariant the drag handler keeps. */
  predicate WellFormed(r: Rect) {
    0.0 <= r.left && r.left + MinCropSize <= r.right <= 1.0
    && 0.0 <= r.top && r.top + MinCropSize <= r.bottom <= 1.0
  }

  function Abs(x: real): real {
    if x < 0.0 then -x else x
  }

  /** Kotlin `coerceIn`, which throws when `lo > hi`. */
  function CoerceIn(v: real, lo: real, hi: real): (r: real)
    requires lo <= hi
    ensures lo <= r <= hi
    ensures lo <= v <= hi ==> r == v
  {
    if v < lo then lo else if v > hi then hi else v
  }

  /** `coerceIn` gives the point of `[lo, hi]` nearest to `v`. */
  lemma CoerceInIsNearest(v: real, lo: real, hi: real, w: real)
    requires lo <= hi && lo <= w <= hi
    ensures Abs(CoerceIn(v, lo, hi) - v) <= Abs(w - v)
  {
  }

  function Width(r: Rect): real { r.right - r.left }
  function Height(r: Rect): real { r.bottom - r.top }

  /**
   * One drag step of `deltaX`, `deltaY` (fractions of the image) with the
   * handle grabbed at the start of the gesture.
   */
  function DragRect(r: Rect, handle: Option<CropHandle>, deltaX: real, deltaY: real): (n: Rect)
    requires WellFormed(r)
    ensures WellFormed(n)
    ensures handle == None ==> n == r
    ensures handle == Some(Center) ==> Width(n) == Width(r) && Height(n) == Height(r)
    ensures handle == Some(TopLeft) ==> n.right == r.right && n.bottom == r.bottom
    ensures handle == Some(TopRight) ==> n.left == r.left && n.bottom == r.bottom
    ensures handle == Some(BottomLeft) ==> n.right == r.right && n.top == r.top
    ensures handle == Some(BottomRight) ==> n.left == r.left && n.top == r.top
  {
    match handle
    case None => r
    case Some(TopLeft) =>
      r.(left := CoerceIn(r.left + deltaX, 0.0, r.right - MinCropSize),
         top := CoerceIn(r.top + deltaY, 0.0, r.bottom - MinCropSize))
    case Some(TopRight) =>
      r.(right := CoerceIn(r.right + deltaX, r.left + MinCropSize, 1.0),
         top := CoerceIn(r.top + deltaY, 0.0, r.bottom - MinCropSize))
    case Some(BottomLeft) =>
      r.(left := CoerceIn(r.left + deltaX, 0.0, r.right - MinCropSize),
         bottom := CoerceIn(r.bottom + deltaY, r.top + MinCropSize, 1.0))
    case Some(BottomRight) =>
      r.(right := CoerceIn(r.right + deltaX, r.left + MinCropSize, 1.0),
         bottom := CoerceIn(r.bottom + deltaY, r.top + MinCropSize, 1.0))
    case Some(Center) =>
      var width := Width(r);
      var height := Height(r);
      var newLeft := CoerceIn(r.left + deltaX, 0.0, 1.0 - width);
      var newTop := CoerceIn(r.top + deltaY, 0.0, 1.0 - height);
      Rect(newLeft, newTop, newLeft + width, newTop + height)
  }

  /**
   * A corner drag puts each moved edge as close to where the finger took it
   * as any position that keeps the rectangle well-formed.
   */
  lemma CornerDragFollowsFinger(r: Rect, deltaX: real, deltaY: real, l: real, t: real)
    requires WellFormed(r)
    ensures var n := DragRect(r, Some(TopLeft), deltaX, deltaY);
      WellFormed(r.(left := l)) ==> Abs(n.left - (r.left + deltaX)) <= Abs(l - (r.left + deltaX))
    ensures var n := DragRect(r, Some(TopLeft), deltaX, deltaY);
      WellFormed(r.(top := t)) ==> Abs(n.top - (r.top + deltaY)) <= Abs(t - (r.top + deltaY))
    ensures var n := DragRect(r, Some(BottomRight), deltaX, deltaY);
      WellFormed(r.(right := l)) ==> Abs(n.right - (r.right + deltaX)) <= Abs(l - (r.right + deltaX))
    ensures var n := DragRect(r, Some(BottomRight), deltaX, deltaY);
      WellFormed(r.(bottom := t)) ==> Abs(n.bottom - (r.bottom + deltaY)) <= Abs(t - (r.bottom + deltaY))
  {
    if WellFormed(r.(left := l)) {
      CoerceInIsNearest(r.left + deltaX, 0.0, r.right - MinCropSize, l);
    }
    if WellFormed(r.(top := t)) {
      CoerceInIsNearest(r.top + deltaY, 0.0, r.bottom - MinCropSize, t);
    }
    if WellFormed(r.(right := l)) {
      CoerceInIsNearest(r.right + deltaX, r.left + MinCropSize, 1.0, l);
    }
    if WellFormed(r.(bottom := t)) {
      CoerceInIsNearest(r.bottom + deltaY, r.top + MinCropSize, 1.0, t);
    }
  }

  /**
   * A center drag moves the rectangle to the well-formed translate whose
   * corner is nearest to where the finger took it.
   */
  lemma CenterDragFollowsFinger(r: Rect, deltaX: real, deltaY: real, l: real, t: real)
    requires WellFormed(r)
    ensures var n := DragRect(r, Some(Center), deltaX, deltaY);
      WellFormed(Rect(l, t, l + Width(r), t + Height(r))) ==>
        Abs(n.left - (r.left + deltaX)) <= Abs(l - (r.left + deltaX))
        && Abs(n.top - (r.top + deltaY)) <= Abs(t - (r.top + deltaY))
  {
    if WellFormed(Rect(l, t, l + Width(r), t + Height(r))) {
      CoerceInIsNearest(r.left + deltaX, 0.0, 1.0 - Width(r), l);
      CoerceInIsNearest(r.top + deltaY, 0.0, 1.0 - Height(r), t);
    }
  }

  /** A drag that stays inside the allowed range moves exactly by the finger's offset. */
  lemma FreeDragIsExact(r: Rect, handle: CropHandle, deltaX: real, deltaY: real)
    requires WellFormed(r)
    requires handle == Center ==>
      WellFormed(Rect(r.left + deltaX, r.top + deltaY, r.right + deltaX, r.bottom + deltaY))
    requires handle == TopLeft ==> WellFormed(r.(left := r.left + deltaX, top := r.top + deltaY))
    requires handle == TopRight ==> WellFormed(r.(right := r.right + deltaX, top := r.top + deltaY))
    requires handle == BottomLeft ==> WellFormed(r.(left := r.left + deltaX, bottom := r.bottom + deltaY))
    requires handle == BottomRight ==> WellFormed(r.(right := r.right + deltaX, bottom := r.bottom + deltaY))
    ensures var n := DragRect(r, Some(handle), deltaX, deltaY);
      (handle == Center || handle == TopLeft || handle == BottomLeft ==> n.left == r.left + deltaX)
      && (handle == Center || handle == TopLeft || handle == TopRight ==> n.top == r.top + deltaY)
      && (handle == TopRight || handle == BottomRight ==> n.right == r.right + deltaX)
      && (handle == BottomLeft || handle == BottomRight ==> n.bottom == r.bottom + deltaY)
  {
  }

  // ---------------------------------------------------------------------
  // Choosing the handle
  // ---------------------------------------------------------------------

  datatype Point = Point(x: real, y: real)

  /** Where the shown image sits on the canvas, in canvas pixels. */
  datatype Frame = Frame(width: real, height: real, offsetX: real, offsetY: real)

  /** Canvas position of a corner handle of `r`. */
  function CornerPoint(r: Rect, f: Frame, h: CropHandle): Point {
    var left := f.offsetX + r.left * f.width;
    var top := f.offsetY + r.top * f.height;
    var right := f.offsetX + r.right * f.width;
    var bottom := f.offsetY + r.bottom * f.height;
    match h
    case TopLeft => Point(left, top)
    case TopRight => Point(right, top)
    case BottomLeft => Point(left, bottom)
    case BottomRight => Point(right, bottom)
    case Center => Point(left, top)
  }

  /** The corners in the order the dialog lists them. */
  const Corners: seq<CropHandle> := [TopLeft, TopRight, BottomLeft, BottomRight]

  /**
   * Square of the Euclidean distance. `getDistance()` is its square root;
   * since the root is monotone, comparing squares against `60²` picks the
   * same handle.
   */
  function SquaredDistance(p: Point, q: Point): (d: real)
    ensures d >= 0.0
  {
    (p.x - q.x) * (p.x - q.x) + (p.y - q.y) * (p.y - q.y)
  }

  /** `minByOrNull`: the index of the first smallest key. */
  function FirstMinIndex(keys: seq<real>): (i: nat)
    requires |keys| > 0
    ensures i < |keys|
    ensures forall j :: 0 <= j < |keys| ==> keys[i] <= keys[j]
    ensures forall j :: 0 <= j < i ==> keys[j] > keys[i]
  {
    if |keys| == 1 then 0
    else
      var k := FirstMinIndex(keys[1..]) + 1;
      assert keys[k] == keys[1..][k - 1];
      if keys[0] <= keys[k] then 0 else k
  }

  function CornerDistances(touch: Point, r: Rect, f: Frame): (ds: seq<real>)
    ensures |ds| == |Corners|
    ensures forall i :: 0 <= i < |Corners| ==> ds[i] == SquaredDistance(touch, CornerPoint(r, f, Corners[i]))
  {
    seq(|Corners|, i requires 0 <= i < |Corners| => SquaredDistance(touch, CornerPoint(r, f, Corners[i])))
  }

  /**
   * `findNearestHandle`: the first nearest corner when it lies closer than
   * the threshold to the touch point, otherwise the whole rectangle.
   */
  function FindNearestHandle(touch: Point, r: Rect, f: Frame): (h: CropHandle)
    ensures h != Center ==>
      h in Corners && SquaredDistance(touch, CornerPoint(r, f, h)) < HandleThreshold * HandleThreshold
    ensures h != Center ==> forall i :: 0 <= i < |Corners| ==>
      SquaredDistance(touch, CornerPoint(r, f, h)) <= SquaredDistance(touch, CornerPoint(r, f, Corners[i]))
    ensures h == Center <==> forall i :: 0 <= i < |Corners| ==>
      SquaredDistance(touch, CornerPoint(r, f, Corners[i])) >= HandleThreshold * HandleThreshold
  {
    var ds := CornerDistances(touch, r, f);
    var i := FirstMinIndex(ds);
    if ds[i] < HandleThreshold * HandleThreshold then Corners[i] else Center
  }

  /** Among equally near corners the first listed one wins. */
  lemma NearestHandleTieBreak(touch: Point, r: Rect, f: Frame, i: nat, j: nat)
    requires j < i < |Corners| && FindNearestHandle(touch, r, f) == Corners[i]
    ensures SquaredDistance(touch, CornerPoint(r, f, Corners[j]))
          > SquaredDistance(touch, CornerPoint(r, f, Corners[i]))
  {
    var ds := CornerDistances(touch, r, f);
    var k := FirstMinIndex(ds);
    assert Corners[k] == Corners[i];
    assert k == i;
  }

  // ---------------------------------------------------------------------
  // Pixel rectangle
  // ---------------------------------------------------------------------

  datatype PixelRect = PixelRect(x: int, y: int, width: int, height: int)

  /** Kotlin `Float.toInt()` on the values reached here (well inside `Int`): rounds toward zero. */
  function ToInt(v: real): (n: int)
    ensures v >= 0.0 ==> 0 <= n && n as real <= v < n as real + 1.0
    ensures v < 0.0 ==> n <= 0 && n as real - 1.0 < v <= n as real
  {
    if v >= 0.0 then v.Floor else -((-v).Floor)
  }

  function CoerceInt(v: int, lo: int, hi: int): (r: int)
    requires lo <= hi
    ensures lo <= r <= hi
    ensures lo <= v <= hi ==> r == v
  {
    if v < lo then lo else if v > hi then hi else v
  }

  /** First pixel of one axis of the crop, from its start fraction. */
  function PixelStart(lo: real, size: int): (start: int)
    requires size >= 1
    ensures 0 <= start <= size - 1
  {
    CoerceInt(ToInt(lo * size as real), 0, size - 1)
  }

  /** Pixel length of one axis of the crop, from its two fractions and its first pixel. */
  function PixelLength(lo: real, hi: real, start: int, size: int): (length: int)
    requires 0 <= start <= size - 1
    ensures 1 <= length <= size - start
  {
    CoerceInt(ToInt((hi - lo) * size as real), 1, size - start)
  }

  /**
   * One axis of the pixel rectangle: the clamped start pixel and the clamped
   * length, from the two crop fractions of that axis.
   */
  function PixelSpan(lo: real, hi: real, size: int): (span: (int, int))
    requires size >= 1
    ensures 0 <= span.0 <= size - 1 && 1 <= span.1 <= size - span.0
  {
    var safeLo := CoerceIn(lo, 0.0, 1.0);
    var safeHi := CoerceIn(hi, 0.0, 1.0);
    var start := PixelStart(safeLo, size);
    (start, PixelLength(safeLo, safeHi, start, size))
  }

  /**
   * The pixel rectangle `cropAndProcessSafely` cuts out of a bitmap of
   * `bitmapWidth` by `bitmapHeight` pixels (Android bitmaps are at least
   * one pixel on each side); any fractions are accepted.
   */
  function PixelRectOf(r: Rect, bitmapWidth: int, bitmapHeight: int): (p: PixelRect)
    requires bitmapWidth >= 1 && bitmapHeight >= 1
    ensures 0 <= p.x <= bitmapWidth - 1 && 0 <= p.y <= bitmapHeight - 1
    ensures 1 <= p.width <= bitmapWidth - p.x && 1 <= p.height <= bitmapHeight - p.y
  {
    var horizontal := PixelSpan(r.left, r.right, bitmapWidth);
    var vertical := PixelSpan(r.top, r.bottom, bitmapHeight);
    PixelRect(horizontal.0, vertical.0, horizontal.1, vertical.1)
  }

  /**
   * The crop step: `None` when the guard against an empty pixel rectangle
   * fires, otherwise the rectangle handed to `Bitmap.createBitmap`.
   */
  function CropRegion(r: Rect, bitmapWidth: int, bitmapHeight: int): Option<PixelRect>
    requires bitmapWidth >= 1 && bitmapHeight >= 1
  {
    var p := PixelRectOf(r, bitmapWidth, bitmapHeight);
    if p.width <= 0 || p.height <= 0 then None else Some(p)
  }

  /** The guard against an empty rectangle never fires: the clamps already exclude it. */
  lemma CropGuardNeverFires(r: Rect, bitmapWidth: int, bitmapHeight: int)
    requires bitmapWidth >= 1 && bitmapHeight >= 1
    ensures CropRegion(r, bitmapWidth, bitmapHeight) == Some(PixelRectOf(r, bitmapWidth, bitmapHeight))
  {
  }

  /**
   * For one axis of a well-formed rectangle (`PixelRectOf` applies this to
   * left/right and to top/bottom) on a bitmap side of at least ten pixels,
   * no clamp changes anything: start and length are the truncated products
   * of fractions and size.
   */
  lemma ExactSpan(lo: real, hi: real, size: int)
    requires 0.0 <= lo && lo + MinCropSize <= hi <= 1.0 && size >= 10
    ensures PixelSpan(lo, hi, size) == ((lo * size as real).Floor, ((hi - lo) * size as real).Floor)
  {
    var exactStart := lo * size as real;
    var length := (hi - lo) * size as real;
    SpanBounds(lo, hi, size as real, exactStart, length);
    SpanInRange(lo, hi, size);
    StartExact(lo, size, exactStart);
    LengthExact(lo, hi, exactStart.Floor, size, exactStart, length);
  }

  /** Fractions already inside `[0, 1]` reach the pixel arithmetic unclamped. */
  lemma SpanInRange(lo: real, hi: real, size: int)
    requires 0.0 <= lo <= 1.0 && 0.0 <= hi <= 1.0 && size >= 1
    ensures PixelSpan(lo, hi, size) == (PixelStart(lo, size), PixelLength(lo, hi, PixelStart(lo, size), size))
  {
  }

  lemma StartExact(lo: real, size: int, exactStart: real)
    requires size >= 1 && exactStart == lo * size as real
    requires 0.0 <= exactStart < size as real
    ensures PixelStart(lo, size) == exactStart.Floor
    ensures 0 <= exactStart.Floor <= size - 1 && exactStart.Floor as real <= exactStart
  {
    FloorInRange(exactStart, size);
  }

  lemma LengthExact(lo: real, hi: real, start: int, size: int, exactStart: real, length: real)
    requires 0 <= start <= size - 1
    requires length == (hi - lo) * size as real
    requires start as real <= exactStart
    requires 1.0 <= length <= size as real - exactStart
    ensures PixelLength(lo, hi, start, size) == length.Floor
  {
    LengthFloor(length, exactStart, size, start);
  }

  /** A length of at least one pixel that fits after the exact start also fits after the truncated one. */
  lemma LengthFloor(length: real, exactStart: real, size: int, start: int)
    requires 1.0 <= length <= size as real - exactStart && start as real <= exactStart
    ensures ToInt(length) == length.Floor && 1 <= length.Floor <= size - start
  {
    assert length <= (size - start) as real;
    FloorInRange(length, size - start);
  }

  lemma FloorInRange(v: real, n: int)
    requires 0.0 <= v <= n as real
    ensures ToInt(v) == v.Floor && 0 <= v.Floor <= n
  {
  }

  /** The real-number facts behind `ExactSpan`. */
  lemma SpanBounds(lo: real, hi: real, s: real, exactStart: real, length: real)
    requires 0.0 <= lo && lo + MinCropSize <= hi <= 1.0 && s >= 10.0
    requires exactStart == lo * s && length == (hi - lo) * s
    ensures 0.0 <= exactStart < s
    ensures 1.0 <= length <= s - exactStart
  {
    ScaleMonotone(lo, 0.9, s);
    ScaleMonotone(0.1, hi - lo, s);
    ScaleMonotone(hi, 1.0, s);
    ScaleMonotone(0.0, lo, s);
    assert 0.0 <= lo * s <= 0.9 * s < s;
    assert 1.0 <= 0.1 * s <= (hi - lo) * s;
    assert (hi - lo) * s == hi * s - lo * s && hi * s <= s;
  }

  lemma ScaleMonotone(a: real, b: real, s: real)
    requires a <= b && s >= 0.0
    ensures a * s <= b * s
  {
    assert b * s - a * s == (b - a) * s;
  }

  // ---------------------------------------------------------------------
  // Dialog state
  // ---------------------------------------------------------------------

  /** The crop rectangle and the handle of the gesture in progress. */
  class CropState {
    var left: real
    var top: real
    var right: real
    var bottom: real
    var activeHandle: Option<CropHandle>

    function Bounds(): Rect
      reads this
    {
      Rect(left, top, right, bottom)
    }

    predicate Valid()
      reads this
    {
      WellFormed(Bounds())
    }

    /** Opens with a 10% margin on every side and no gesture. */
    constructor()
      ensures Valid()
      ensures Bounds() == Rect(0.1, 0.1, 0.9, 0.9) && activeHandle == None
    {
      left, top, right, bottom := 0.1, 0.1, 0.9, 0.9;
      activeHandle := None;
    }

    /** `onDragStart`: grabs the nearest handle when the image has a size. */
    method DragStart(touch: Point, f: Frame)
      modifies this
      ensures Bounds() == old(Bounds())
      ensures activeHandle ==
        if f.width > 0.0 && f.height > 0.0 then Some(FindNearestHandle(touch, Bounds(), f))
        else old(activeHandle)
    {
      if f.width > 0.0 && f.height > 0.0 {
        activeHandle := Some(FindNearestHandle(touch, Bounds(), f));
      }
    }

    /** `onDrag`: converts the drag to fractions of the image and moves the grabbed handle. */
    method Drag(dragX: real, dragY: real, f: Frame)
      requires Valid()
      modifies this
      ensures Valid()
      ensures activeHandle == old(activeHandle)
      ensures Bounds() ==
        if f.width > 0.0 && f.height > 0.0
        then DragRect(old(Bounds()), activeHandle, dragX / f.width, dragY / f.height)
        else old(Bounds())
    {
      if f.width > 0.0 && f.height > 0.0 {
        var deltaX := dragX / f.width;
        var deltaY := dragY / f.height;
        match activeHandle {
          case Some(TopLeft) =>
            left := CoerceIn(left + deltaX, 0.0, right - MinCropSize);
            top := CoerceIn(top + deltaY, 0.0, bottom - MinCropSize);
          case Some(TopRight) =>
            right := CoerceIn(right + deltaX, left + MinCropSize, 1.0);
            top := CoerceIn(top + deltaY, 0.0, bottom - MinCropSize);
          case Some(BottomLeft) =>
            left := CoerceIn(left + deltaX, 0.0, right - MinCropSize);
            bottom := CoerceIn(bottom + deltaY, top + MinCropSize, 1.0);
          case Some(BottomRight) =>
            right := CoerceIn(right + deltaX, left + MinCropSize, 1.0);
            bottom := CoerceIn(bottom + deltaY, top + MinCropSize, 1.0);
          case Some(Center) =>
            var width := right - left;
            var height := bottom - top;
            var newLeft := CoerceIn(left + deltaX, 0.0, 1.0 - width);
            var newTop := CoerceIn(top + deltaY, 0.0, 1.0 - height);
            left := newLeft;
            top := newTop;
            right := newLeft + width;
            bottom := newTop + height;
          case None =>
        }
      }
    }

    /** `onDragEnd`: releases the handle. */
    method DragEnd()
      modifies this
      ensures Bounds() == old(Bounds()) && activeHandle == None
    {
      activeHandle := None;
    }
  }
}
