/** Screen geometry: the eight display orientations acting on sizes and
    coordinates, and the window size that fits the content. */
module Screen {
  import opened Common

  datatype Size = Size(width: u16, height: u16)

  datatype Point = Point(x: int, y: int)

  // ----- Orientations -----

  /** Bit 2: horizontal flip; bits 1 and 0: clockwise quarter turns. */
  type Orientation = o: int | 0 <= o < 8

  predicate IsFlip(o: Orientation) {
    o >= 4
  }

  function Turns(o: Orientation): (r: int)
    ensures 0 <= r < 4
  {
    if o >= 4 then o - 4 else o
  }

  predicate IsSwap(o: Orientation) {
    o == 1 || o == 3 || o == 5 || o == 7
  }

  /** A number of quarter turns, modulo a full turn. */
  function Mod4(n: int): (r: int)
    requires 0 <= n < 12
    ensures r == n % 4
  {
    if n >= 8 then n - 8 else if n >= 4 then n - 4 else n
  }

  /** The orientation obtained by transforming an already oriented screen: turning
      before a flip counts the other way round. */
  function Apply(src: Orientation, transform: Orientation): Orientation {
    var srcTurns := Turns(src) + (if IsSwap(src) && IsFlip(transform) then 2 else 0);
    var hflip := if IsFlip(src) != IsFlip(transform) then 4 else 0;
    hflip + Mod4(Turns(transform) + srcTurns)
  }

  function OrientedSize(s: Size, o: Orientation): Size {
    if IsSwap(o) then Size(s.height, s.width) else s
  }

  /** A point of the oriented content, of size `w` by `h`, in frame coordinates. */
  function ToFrame(p: Point, w: int, h: int, o: Orientation): Point {
    match o
    case 0 => p
    case 1 => Point(p.y, w - p.x)
    case 2 => Point(w - p.x, h - p.y)
    case 3 => Point(h - p.y, p.x)
    case 4 => Point(w - p.x, p.y)
    case 5 => Point(h - p.y, w - p.x)
    case 6 => Point(p.x, h - p.y)
    case _ => Point(p.y, p.x)
  }

  datatype Rect = Rect(x: int, y: int, w: int, h: int)

  /** A window point in frame coordinates: scaled from the rectangle that shows
      the content, then oriented. */
  function WindowToFrame(p: Point, rect: Rect, content: Size, o: Orientation): Point
    requires rect.w > 0 && rect.h > 0
  {
    var x := Div((p.x - rect.x) * content.width as int, rect.w);
    var y := Div((p.y - rect.y) * content.height as int, rect.h);
    ToFrame(Point(x, y), content.width, content.height, o)
  }

  /** Main theorem: composing orientations is composing what they do to sizes and
      points: undo the second transformation, then the first one on the swapped
      size. */
  lemma ComposeToFrame(src: Orientation, transform: Orientation, p: Point, size: Size)
    ensures var inner := OrientedSize(size, transform);
            ToFrame(p, size.width, size.height, Apply(src, transform)) ==
            ToFrame(ToFrame(p, size.width, size.height, transform), inner.width, inner.height, src)
  {
    match transform
    case 0 =>
    case 1 =>
    case 2 =>
    case 3 =>
    case 4 =>
    case 5 =>
    case 6 =>
    case _ =>
  }

  /** The content shown for a frame: flipped first, then turned clockwise. A quarter
      turn of a picture exchanges its sides. */
  ghost function Flipped(p: Point, width: int): Point {
    Point(width - p.x, p.y)
  }

  ghost function Turned(p: Point, width: int, height: int, quarters: nat): Point
    decreases quarters
  {
    if quarters == 0 then p else Turned(Point(height - p.y, p.x), height, width, quarters - 1)
  }

  ghost function Shown(p: Point, frame: Size, o: Orientation): Point {
    Turned(if o >= 4 then Flipped(p, frame.width) else p, frame.width, frame.height, if o >= 4 then o - 4 else o)
  }

  lemma TurnedFew(p: Point, w: int, h: int)
    ensures Turned(p, w, h, 0) == p
    ensures Turned(p, w, h, 1) == Point(h - p.y, p.x)
    ensures Turned(p, w, h, 2) == Point(w - p.x, h - p.y)
    ensures Turned(p, w, h, 3) == Point(p.y, w - p.x)
  {
    assert Turned(Point(w - p.x, h - p.y), w, h, 1) == Turned(Point(p.y, w - p.x), h, w, 0);
    assert Turned(Point(h - p.y, p.x), h, w, 1) == Turned(Point(w - p.x, h - p.y), w, h, 0);
    assert Turned(Point(h - p.y, p.x), h, w, 2) == Turned(Point(w - p.x, h - p.y), w, h, 1);
  }

  /** Main theorem on directions: for all sizes and points, converting to frame
      coordinates undoes the flip followed by the clockwise quarter turns, and the
      content has exchanged sides after an odd number of them. */
  lemma ToFrameUndoes(p: Point, frame: Size, o: Orientation)
    ensures var content := if o == 1 || o == 3 || o == 5 || o == 7 then Size(frame.height, frame.width) else frame;
            && OrientedSize(frame, o) == content
            && ToFrame(Shown(p, frame, o), content.width, content.height, o) == p
            && Shown(ToFrame(p, content.width, content.height, o), frame, o) == p
  {
    var content := OrientedSize(frame, o);
    TurnedFew(p, frame.width, frame.height);
    TurnedFew(Flipped(p, frame.width), frame.width, frame.height);
    var q := ToFrame(p, content.width, content.height, o);
    TurnedFew(q, frame.width, frame.height);
    TurnedFew(Flipped(q, frame.width), frame.width, frame.height);
    hide Turned;
  }

  /** The corners of the rectangle that shows the content are its corners. */
  lemma CornersMatch(rect: Rect, content: Size, o: Orientation)
    requires rect.w > 0 && rect.h > 0
    ensures var w: int, h: int := content.width, content.height;
            && WindowToFrame(Point(rect.x, rect.y), rect, content, o) == ToFrame(Point(0, 0), w, h, o)
            && WindowToFrame(Point(rect.x + rect.w, rect.y), rect, content, o) == ToFrame(Point(w, 0), w, h, o)
            && WindowToFrame(Point(rect.x, rect.y + rect.h), rect, content, o) == ToFrame(Point(0, h), w, h, o)
            && WindowToFrame(Point(rect.x + rect.w, rect.y + rect.h), rect, content, o) == ToFrame(Point(w, h), w, h, o)
  {
    hide ToFrame;
    ExactDivision(content.width, rect.w);
    ExactDivision(content.height, rect.h);
  }

  lemma ExactDivision(n: nat, d: nat)
    requires d > 0
    ensures Div(d * n, d) == n && Div(0 * n, d) == 0
  {
    NotNegative(d, n);
    QuotientLargest(d * n, d, n);
    QuotientLargest(d * n, d, n + 1);
    assert (n + 1) * d == n * d + d;
  }

  /** Within the rectangle, a coordinate is scaled down to the largest one that does
      not exceed the ratio; on the other side of the edge it is its mirror image. */
  lemma ScalesExactly(p: Point, rect: Rect, content: Size, n: int)
    requires rect.w > 0 && rect.h > 0
    ensures var q := WindowToFrame(p, rect, content, 0);
            && (p.x >= rect.x ==> (n <= q.x <==> n * rect.w <= (p.x - rect.x) * content.width))
            && (p.y >= rect.y ==> (n <= q.y <==> n * rect.h <= (p.y - rect.y) * content.height))
            && WindowToFrame(Point(2 * rect.x - p.x, 2 * rect.y - p.y), rect, content, 0) == Point(-q.x, -q.y)
  {
    var cw: int, ch: int := content.width, content.height;
    var dx, dy := p.x - rect.x, p.y - rect.y;
    if dx >= 0 {
      NotNegative(dx, cw);
      QuotientLargest(dx * cw, rect.w, n);
    }
    if dy >= 0 {
      NotNegative(dy, ch);
      QuotientLargest(dy * ch, rect.h, n);
    }
    MirrorDivision(dx, cw, rect.w);
    MirrorDivision(dy, ch, rect.h);
  }

  lemma MirrorDivision(d: int, n: nat, m: nat)
    requires m > 0
    ensures Div(-d * n, m) == -Div(d * n, m)
  {
    assert -d * n == -(d * n);
  }

  lemma ComposeSizes(src: Orientation, transform: Orientation, size: Size)
    ensures OrientedSize(size, Apply(src, transform)) == OrientedSize(OrientedSize(size, src), transform)
  {
  }

  /** Window points compose the same way: scaling happens once, before. */
  lemma ComposeWindow(p: Point, rect: Rect, content: Size, src: Orientation, transform: Orientation)
    requires rect.w > 0 && rect.h > 0
    ensures var inner := OrientedSize(content, transform);
            WindowToFrame(p, rect, content, Apply(src, transform)) ==
            ToFrame(WindowToFrame(p, rect, content, transform), inner.width, inner.height, src)
  {
    hide ToFrame, Apply, Div;
    var x := Div((p.x - rect.x) * content.width as int, rect.w);
    var y := Div((p.y - rect.y) * content.height as int, rect.h);
    ComposeToFrame(src, transform, Point(x, y), content);
  }

  /** The orientation that undoes another one. */
  function Inverse(o: Orientation): Orientation {
    if o == 1 then 3 else if o == 3 then 1 else o
  }

  /** The orientations form a group, whose product is associative because
      composing what they do is. */
  lemma OrientationGroup(a: Orientation, b: Orientation, c: Orientation)
    ensures Apply(a, 0) == a && Apply(0, a) == a
    ensures Apply(a, Inverse(a)) == 0 && Apply(Inverse(a), a) == 0
    ensures Apply(Apply(a, b), c) == Apply(a, Apply(b, c))
  {
    assert Apply(a, 0) == a && Apply(0, a) == a;
    assert Apply(a, Inverse(a)) == 0 && Apply(Inverse(a), a) == 0;
    var x, y := Apply(Apply(a, b), c), Apply(a, Apply(b, c));
    forall p: Point ensures ToFrame(p, 1, 1, x) == ToFrame(p, 1, 1, y) {
      ComposeToFrame(Apply(a, b), c, p, Size(1, 1));
      ComposeToFrame(a, b, ToFrame(p, 1, 1, c), Size(1, 1));
      ComposeToFrame(a, Apply(b, c), p, Size(1, 1));
      ComposeToFrame(b, c, p, Size(1, 1));
    }
    hide Apply;
    if x != y {
      Faithful(x, y, 1, 1);
    }
  }

  /** The points of the content are exactly the points of the frame. */
  lemma FrameBounds(p: Point, content: Size, o: Orientation)
    ensures var q := ToFrame(p, content.width, content.height, o);
            var frame := OrientedSize(content, o);
            (0 <= p.x <= content.width && 0 <= p.y <= content.height) <==>
            (0 <= q.x <= frame.width && 0 <= q.y <= frame.height)
  {
  }

  /** Distinct orientations place some corner differently: the action is faithful
      on every non-empty content. */
  lemma Faithful(a: Orientation, b: Orientation, w: int, h: int)
    requires w > 0 && h > 0 && a != b
    ensures exists p: Point :: ToFrame(p, w, h, a) != ToFrame(p, w, h, b)
  {
    var origin, right := Point(0, 0), Point(3 * w + 5 * h, 0);
    assert ToFrame(origin, w, h, a) != ToFrame(origin, w, h, b) || ToFrame(right, w, h, a) != ToFrame(right, w, h, b);
  }

  // ----- The optimal window size -----

  /** A product of two 16-bit sizes in unsigned 32-bit arithmetic. */
  function Mul32(a: u16, b: u16): (r: int)
    ensures 0 <= r < U32
  {
    ((a as int) * (b as int)) % U32
  }

  lemma ProductBound(a: int, b: int)
    requires 0 <= a < 0x1_0000 && 0 <= b < 0x1_0000
    ensures 0 <= a * b <= 0xFFFF * 0xFFFF
  {
    NotNegative(a, b);
    NotNegative(0xFFFF - a, b);
    assert (0xFFFF - a) * b == 0xFFFF * b - a * b;
  }

  /** No product of sizes overflows. */
  lemma Mul32Exact(a: u16, b: u16)
    ensures Mul32(a, b) == (a as int) * (b as int)
  {
    ProductBound(a, b);
  }

  predicate IsOptimal(current: Size, content: Size)
    requires content.width != 0 && content.height != 0
  {
    || current.height == Mul32(current.width, content.height) / content.width
    || current.width == Mul32(current.height, content.width) / content.height
  }

  /** The current size cut to the display, when there are bounds. */
  function Bounded(current: Size, bounds: Option<Size>): Size {
    match bounds
    case None => current
    case Some(b) => Size(Min(current.width, b.width), Min(current.height, b.height))
  }

  /** An integer stored in a 16-bit field. */
  function Truncate(x: int): u16 {
    x % 0x1_0000
  }

  /** The largest size within the window that fits the content. */
  function Fit(window: Size, content: Size): Size
    requires content.width != 0 && content.height != 0
  {
    if IsOptimal(window, content) then window
    else if Mul32(content.width, window.height) > Mul32(content.height, window.width)
    then window.(height := Truncate(Mul32(content.height, window.width) / content.width))
    else window.(width := Truncate(Mul32(content.width, window.height) / content.height))
  }

  function OptimalSize(current: Size, content: Size, bounds: Option<Size>): Size {
    if content.width == 0 || content.height == 0 then current else Fit(Bounded(current, bounds), content)
  }

  /** A quotient is the largest factor that does not exceed the dividend. */
  lemma QuotientLargest(x: nat, d: nat, n: int)
    requires d > 0
    ensures n <= x / d <==> n * d <= x
  {
    var q := x / d;
    assert q * d <= x < q * d + d;
    if n <= q {
      MulMono(n, q, d);
    } else {
      MulMono(q + 1, n, d);
      assert (q + 1) * d == q * d + d;
    }
  }

  /** A quotient does not exceed `q` when the dividend does not exceed `q * d`. */
  lemma QuotientBound(x: nat, d: nat, q: nat)
    requires x <= q * d && d > 0
    ensures 0 <= x / d <= q
  {
    QuotientLargest(x, d, q + 1);
    assert (q + 1) * d == q * d + d;
  }

  lemma FitCorrect(window: Size, content: Size)
    requires content.width != 0 && content.height != 0
    ensures var r := Fit(window, content);
            && r.width <= window.width && r.height <= window.height
            && (r.width == window.width || r.height == window.height)
            && IsOptimal(r, content)
  {
    hide Mul32;
    var cw: int, ch: int, ww: int, wh: int := content.width, content.height, window.width, window.height;
    Mul32Symmetric(content.width, window.height);
    Mul32Symmetric(content.height, window.width);
    if !IsOptimal(window, content) {
      if Mul32(content.width, window.height) > Mul32(content.height, window.width) {
        var q := Mul32(content.height, window.width) / cw;
        QuotientBound(Mul32(content.height, window.width), cw, wh);
        assert Truncate(q) == q;
      } else {
        var q := Mul32(content.width, window.height) / ch;
        QuotientBound(Mul32(content.width, window.height), ch, ww);
        assert Truncate(q) == q;
      }
    }
  }

  /** Main theorem: for all sizes, with non-empty content, the optimal size never
      exceeds the bounded one, keeps at least one of its dimensions, passes the
      optimality test and is a fixed point. */
  lemma OptimalSizeCorrect(current: Size, content: Size, bounds: Option<Size>)
    requires content.width != 0 && content.height != 0
    ensures var window := Bounded(current, bounds);
            var r := OptimalSize(current, content, bounds);
            && r.width <= window.width <= current.width && r.height <= window.height <= current.height
            && (r.width == window.width || r.height == window.height)
            && IsOptimal(r, content)
            && OptimalSize(r, content, bounds) == r
    ensures bounds.None? ==> Bounded(current, bounds) == current
    ensures bounds.Some? ==>
              var window, b := Bounded(current, bounds), bounds.value;
              && window.width <= b.width && window.height <= b.height
              && (window.width == current.width || window.width == b.width)
              && (window.height == current.height || window.height == b.height)
  {
    FitCorrect(Bounded(current, bounds), content);
    var r := OptimalSize(current, content, bounds);
    assert Fit(r, content) == r;
    hide IsOptimal, Fit, Mul32;
    assert Bounded(r, bounds) == r;
  }

  lemma Mul32Symmetric(a: u16, b: u16)
    ensures Mul32(a, b) == Mul32(b, a) == (a as int) * (b as int) == (b as int) * (a as int)
  {
    Mul32Exact(a, b);
    Mul32Exact(b, a);
  }

  /** When the bounded size must be adjusted, one dimension is kept and the other
      one is the largest that does not exceed the content's aspect ratio. */
  lemma OptimalIsLargest(current: Size, content: Size, bounds: Option<Size>, n: int)
    requires content.width != 0 && content.height != 0 && !IsOptimal(Bounded(current, bounds), content)
    ensures var window := Bounded(current, bounds);
            var r := OptimalSize(current, content, bounds);
            var cw: int, ch: int, ww: int, wh: int := content.width, content.height, window.width, window.height;
            if cw * wh > ch * ww
            then r.width == ww && (n <= r.height <==> n * cw <= ch * ww)
            else r.height == wh && (n <= r.width <==> n * ch <= cw * wh)
  {
    hide Fit, IsOptimal, Mul32;
    var window := Bounded(current, bounds);
    var cw: int, ch: int, ww: int, wh: int := content.width, content.height, window.width, window.height;
    FitAdjusts(window, content);
    NotNegative(ch, ww);
    NotNegative(cw, wh);
    QuotientLargest(ch * ww, cw, n);
    QuotientLargest(cw * wh, ch, n);
  }

  /** The adjusted dimension is the plain quotient. */
  lemma FitAdjusts(window: Size, content: Size)
    requires content.width != 0 && content.height != 0 && !IsOptimal(window, content)
    ensures var r := Fit(window, content);
            var cw: int, ch: int, ww: int, wh: int := content.width, content.height, window.width, window.height;
            if cw * wh > ch * ww then r.width == ww && r.height == (ch * ww) / cw
            else r.height == wh && r.width == (cw * wh) / ch
  {
    hide Mul32, IsOptimal;
    var cw: int, ch: int, ww: int, wh: int := content.width, content.height, window.width, window.height;
    Mul32Symmetric(content.width, window.height);
    Mul32Symmetric(content.height, window.width);
    if cw * wh > ch * ww {
      QuotientBound(ch * ww, cw, wh);
    } else {
      QuotientBound(cw * wh, ch, ww);
    }
  }
}
