/**
 * The animated background (scripts/starfield.js): a fixed pool of stars that
 * fly toward the viewer, are projected with a perspective scale, and are
 * recycled at the far plane when they reach the viewer. Every `Math.random()`
 * draw is handed in as a value in [0, 1); the cosine and sine of a drawn angle
 * are handed in as a point of the unit circle.
 */
module Starfield {
  import opened JsRuntime

  const NumStars: nat := 800
  const MaxDepth: real := 2000.0
  /** `this.speed`, the global speed factor. */
  const GlobalSpeed: real := 0.5
  const StepFactor: real := 5.0
  const FocalLength: real := 1000.0
  const Parallax: real := 50.0
  const GlowDepth: real := 500.0
  const StreakDepth: real := 200.0

  const Palette: seq<string> := [
    "rgba(168, 85, 247, ",
    "rgba(236, 72, 153, ",
    "rgba(147, 51, 234, ",
    "rgba(59, 130, 246, ",
    "rgba(255, 255, 255, "
  ]

  /** A star: planar offset `x`, `y`, depth `z`, base size, colour prefix and its own speed. */
  datatype Star = Star(x: real, y: real, z: real, size: real, color: string, speed: real)

  /** A value `Math.random()` can return. */
  predicate Unit(u: real) {
    0.0 <= u < 1.0
  }

  /** The random part of a planar position: `cos(angle)`, `sin(angle)` and the radius draw. */
  datatype Placement = Placement(cos: real, sin: real, radius: real)

  predicate ValidPlacement(p: Placement) {
    p.cos * p.cos + p.sin * p.sin == 1.0 && Unit(p.radius)
  }

  /** The draws `createStar` makes: placement, depth, size, palette entry and speed. */
  datatype StarDraws = StarDraws(place: Placement, depth: real, size: real, color: real, speed: real)

  predicate ValidDraws(d: StarDraws) {
    ValidPlacement(d.place) && Unit(d.depth) && Unit(d.size) && Unit(d.color) && Unit(d.speed)
  }

  /** `Math.max(canvas.width, canvas.height)`. */
  function MaxSide(width: nat, height: nat): real {
    if width >= height then width as real else height as real
  }

  /** `x = cos(angle) * radius`, `y = sin(angle) * radius` with `radius` drawn up to the longer side. */
  function PlanarPosition(p: Placement, width: nat, height: nat): (xy: (real, real))
    requires ValidPlacement(p)
    ensures xy.0 * xy.0 + xy.1 * xy.1 <= MaxSide(width, height) * MaxSide(width, height)
  {
    var m := MaxSide(width, height);
    var r := p.radius * m;
    assert (p.cos * r) * (p.cos * r) + (p.sin * r) * (p.sin * r) == (p.cos * p.cos + p.sin * p.sin) * (r * r);
    assert r * r <= m * m by {
      assert m - r == (1.0 - p.radius) * m;
      MulNonNegative(1.0 - p.radius, m);
      assert 0.0 <= r <= m;
      assert r * r <= r * m <= m * m;
    }
    (p.cos * r, p.sin * r)
  }

  lemma MulNonNegative(a: real, b: real)
    requires a >= 0.0 && b >= 0.0
    ensures a * b >= 0.0
  {
  }

  /** `getStarColor()`: `colors[Math.floor(u * colors.length)]`. */
  function StarColor(u: real): (c: string)
    requires Unit(u)
    ensures c in Palette
  {
    var k := (u * |Palette| as real).Floor;
    assert 0 <= k < |Palette|;
    Palette[k]
  }

  /** The ranges a star of the pool keeps: depth, size, speed and colour. */
  predicate InPool(s: Star) {
    0.0 <= s.z <= MaxDepth && 0.0 <= s.size < 2.0 && 0.2 <= s.speed < 0.7 && s.color in Palette
  }

  /** `createStar()`. */
  function CreateStar(width: nat, height: nat, d: StarDraws): (s: Star)
    requires ValidDraws(d)
    ensures InPool(s) && s.z < MaxDepth
    ensures s.x * s.x + s.y * s.y <= MaxSide(width, height) * MaxSide(width, height)
  {
    var xy := PlanarPosition(d.place, width, height);
    Star(xy.0, xy.1, d.depth * MaxDepth, d.size * 2.0, StarColor(d.color), d.speed * 0.5 + 0.2)
  }

  /** How far a star moves toward the viewer in one frame: `star.speed * this.speed * 5`. */
  function Step(s: Star): (d: real)
    ensures s.speed > 0.0 <==> d > 0.0
    ensures InPool(s) ==> 0.5 <= d < 1.75
  {
    s.speed * GlobalSpeed * StepFactor
  }

  /** `updateStar(star)`; `p` is used only when the star is respawned. */
  function UpdateStar(s: Star, p: Placement, width: nat, height: nat): (r: Star)
    requires ValidPlacement(p)
    ensures r.size == s.size && r.color == s.color && r.speed == s.speed
    ensures s.z - Step(s) > 0.0 ==> r.z == s.z - Step(s) && r.x == s.x && r.y == s.y
    ensures s.z - Step(s) <= 0.0 ==> r.z == MaxDepth && (r.x, r.y) == PlanarPosition(p, width, height)
    ensures 0.0 <= s.z <= MaxDepth && s.speed > 0.0 ==> 0.0 < r.z <= MaxDepth
  {
    var z := s.z - Step(s);
    if z <= 0.0 then
      var xy := PlanarPosition(p, width, height);
      s.(x := xy.0, y := xy.1, z := MaxDepth)
    else
      s.(z := z)
  }

  /** A star of the pool stays in the pool's ranges, and ends every frame strictly in front of the viewer. */
  lemma UpdateKeepsPool(s: Star, p: Placement, width: nat, height: nat)
    requires InPool(s) && ValidPlacement(p)
    ensures InPool(UpdateStar(s, p, width, height))
    ensures UpdateStar(s, p, width, height).z > 0.0
  {
  }

  /** A star at depth 5 with speed 1 reaches 2.5, then 0, where it is respawned at 2000. */
  lemma TwoStepExample(p: Placement, width: nat, height: nat, c: string)
    requires ValidPlacement(p)
    ensures var s0 := Star(0.0, 0.0, 5.0, 1.0, c, 1.0);
      var s1 := UpdateStar(s0, p, width, height);
      s1.z == 2.5 && UpdateStar(s1, p, width, height).z == MaxDepth
  {
  }

  // ---------------------------------------------------------------------
  // Projection and drawing

  /**
   * `1000 / (1000 + star.z)`: the perspective scale, the ratio of the focal length to the distance
   * from the eye. It lies in (0, 1] in front of the viewer, is 1 at depth 0 and 1/3 at the far plane.
   */
  function Scale(z: real): (r: real)
    requires z > -FocalLength
    ensures r * (FocalLength + z) == FocalLength
    ensures z >= 0.0 ==> 0.0 < r <= 1.0
    ensures z == 0.0 ==> r == 1.0
    ensures z == MaxDepth ==> r == 1.0 / 3.0
  {
    FocalLength / (FocalLength + z)
  }

  /** The scale strictly decreases with depth. */
  lemma ScaleDecreasing(z1: real, z2: real)
    requires 0.0 <= z1 < z2
    ensures Scale(z1) > Scale(z2)
  {
    assert FocalLength / (FocalLength + z1) * (FocalLength + z1) == FocalLength;
    assert FocalLength / (FocalLength + z2) * (FocalLength + z2) == FocalLength;
  }

  /** `Math.min((2000 - z) / 2000, 1)`. */
  function Opacity(z: real): (o: real)
    ensures 0.0 <= z <= MaxDepth ==> 0.0 <= o <= 1.0
    ensures z == MaxDepth ==> o == 0.0
    ensures z <= 0.0 ==> o == 1.0
  {
    var o := (MaxDepth - z) / MaxDepth;
    if o < 1.0 then o else 1.0
  }

  /** Stars fade in as they approach: opacity never increases with depth. */
  lemma OpacityNonIncreasing(z1: real, z2: real)
    requires z1 <= z2
    ensures Opacity(z1) >= Opacity(z2)
  {
  }

  /** The viewer state the drawing reads: projection origin, pointer offset and canvas size. */
  datatype View = View(centerX: real, centerY: real, mouseX: real, mouseY: real, width: nat, height: nat)

  /** Screen position of planar offset (`x`, `y`) at depth `z`: origin + offset × scale + pointer × 50. */
  function Project(x: real, y: real, z: real, v: View): (pt: (real, real))
    requires z > -FocalLength
    ensures z == 0.0 ==> pt == (v.centerX + x + v.mouseX * Parallax, v.centerY + y + v.mouseY * Parallax)
    ensures z >= 0.0 ==>
      (Shrinks(pt.0 - (v.centerX + v.mouseX * Parallax), x) && Shrinks(pt.1 - (v.centerY + v.mouseY * Parallax), y))
  {
    ScaledShrinks(x, Scale(z));
    ScaledShrinks(y, Scale(z));
    (v.centerX + x * Scale(z) + v.mouseX * Parallax, v.centerY + y * Scale(z) + v.mouseY * Parallax)
  }

  /** `d` has the sign of `x` (or is 0) and is no larger in magnitude. */
  predicate Shrinks(d: real, x: real) {
    (x >= 0.0 ==> 0.0 <= d <= x) && (x < 0.0 ==> x <= d <= 0.0)
  }

  /** Scaling by a factor in (0, 1] shrinks. */
  lemma ScaledShrinks(x: real, k: real)
    ensures 0.0 < k <= 1.0 ==> Shrinks(x * k, x)
  {
    assert x - x * k == x * (1.0 - k);
  }

  predicate OnCanvas(pt: (real, real), v: View) {
    0.0 <= pt.0 <= v.width as real && 0.0 <= pt.1 <= v.height as real
  }

  /** The soft halo around a near star. */
  datatype Glow = Glow(radius: real, opacity: real)
  /** The speed line from where the star was drawn one frame earlier. */
  datatype Streak = Streak(fromX: real, fromY: real, lineWidth: real, opacity: real)

  /** What `drawStar(star)` paints: nothing, or a disc with an optional glow and an optional streak. */
  datatype Sprite =
    | Offscreen
    | Disc(x: real, y: real, radius: real, color: string, opacity: real, glow: Option<Glow>, streak: Option<Streak>)

  /** `drawStar(star)`. */
  function DrawStar(s: Star, v: View): (r: Sprite)
    requires s.z > -FocalLength && s.z + Step(s) > -FocalLength
    ensures r.Offscreen? <==> !OnCanvas(Project(s.x, s.y, s.z, v), v)
    ensures r.Disc? ==>
      ((r.x, r.y) == Project(s.x, s.y, s.z, v)
       && r.radius == s.size * Scale(s.z) && r.color == s.color && r.opacity == Opacity(s.z))
    ensures r.Disc? ==> (r.glow.Some? <==> s.z < GlowDepth) && (r.streak.Some? <==> s.z < StreakDepth)
    ensures r.Disc? && r.glow.Some? ==> r.glow.value == Glow(3.0 * r.radius, r.opacity * 0.5)
    ensures r.Disc? && r.streak.Some? ==>
      (r.streak.value.fromX, r.streak.value.fromY) == Project(s.x, s.y, s.z + Step(s), v)
      && r.streak.value.lineWidth == r.radius / 2.0 && r.streak.value.opacity == r.opacity * 0.5
  {
    var pt := Project(s.x, s.y, s.z, v);
    if !OnCanvas(pt, v) then Offscreen
    else
      var size := s.size * Scale(s.z);
      var opacity := Opacity(s.z);
      var glow := if s.z < GlowDepth then Some(Glow(size * 3.0, opacity * 0.5)) else None;
      var streak :=
        if s.z < StreakDepth then
          var prev := Project(s.x, s.y, s.z + Step(s), v);
          Some(Streak(prev.0, prev.1, size / 2.0, opacity * 0.5))
        else None;
      Disc(pt.0, pt.1, size, s.color, opacity, glow, streak)
  }

  /**
   * A streak runs from the point where the star was drawn in the previous frame: a star near
   * enough to carry one was not respawned, so adding its step back gives its old depth.
   */
  lemma StreakStartsAtPreviousPosition(s: Star, p: Placement, v: View)
    requires InPool(s) && ValidPlacement(p)
    ensures var r := UpdateStar(s, p, v.width, v.height);
      var d := DrawStar(r, v);
      d.Disc? && d.streak.Some? ==>
        (d.streak.value.fromX, d.streak.value.fromY) == Project(s.x, s.y, s.z, v)
  {
    var r := UpdateStar(s, p, v.width, v.height);
    if r.z < StreakDepth {
      assert s.z - Step(s) > 0.0;
      assert r.z + Step(r) == s.z;
    }
  }

  /** A drawn star of the pool has opacity in [0, 1] and a radius no larger than its size. */
  lemma DrawnStarBounds(s: Star, v: View)
    requires InPool(s)
    ensures var d := DrawStar(s, v);
      d.Disc? ==> 0.0 <= d.opacity <= 1.0 && 0.0 <= d.radius <= s.size
  {
    var k := Scale(s.z);
    assert s.size - s.size * k == s.size * (1.0 - k);
    MulNonNegative(s.size, 1.0 - k);
    MulNonNegative(s.size, k);
  }

  // ---------------------------------------------------------------------
  // The simulator object

  /**
   * A `Starfield` bound to a canvas (`active`), or an inert one when the canvas element is
   * missing. The pool is an array of fixed length that each frame updates in place.
   */
  class Starfield {
    const active: bool
    var width: nat
    var height: nat
    var centerX: real
    var centerY: real
    var mouseX: real
    var mouseY: real
    var stars: array<Star>

    ghost predicate Valid()
      reads this, stars
    {
      active ==> stars.Length == NumStars && forall i :: 0 <= i < stars.Length ==> InPool(stars[i])
    }

    function CurrentView(): View
      reads this
    {
      View(centerX, centerY, mouseX, mouseY, width, height)
    }

    /**
     * `new Starfield(id)` with the window size, the draws of the 800 `createStar()` calls and the
     * placements the first frame's respawns use: the constructor ends by running that first
     * `animate()` frame, whose sprites go to the canvas.
     */
    constructor (hasCanvas: bool, innerWidth: nat, innerHeight: nat, draws: seq<StarDraws>, places: seq<Placement>)
      requires hasCanvas ==> |draws| == NumStars && forall i :: 0 <= i < |draws| ==> ValidDraws(draws[i])
      requires hasCanvas ==> |places| == NumStars && forall i :: 0 <= i < |places| ==> ValidPlacement(places[i])
      ensures Valid() && active == hasCanvas && fresh(stars)
      ensures hasCanvas ==>
        (width == innerWidth && height == innerHeight
         && centerX == innerWidth as real / 2.0 && centerY == innerHeight as real / 2.0
         && mouseX == 0.0 && mouseY == 0.0
         && stars.Length == NumStars
         && forall i :: 0 <= i < NumStars ==>
              stars[i] == UpdateStar(CreateStar(innerWidth, innerHeight, draws[i]), places[i], innerWidth, innerHeight))
      ensures !hasCanvas ==> stars.Length == 0
    {
      active := hasCanvas;
      width, height := 0, 0;
      centerX, centerY := 0.0, 0.0;
      mouseX, mouseY := 0.0, 0.0;
      stars := new Star[0];
      new;
      if hasCanvas {
        ResizeCanvas(innerWidth, innerHeight);
        CreateStars(draws);
        var firstFrame := Animate(places);
      }
    }

    /** `resizeCanvas()`: the projection origin moves to the new centre, the stars are untouched. */
    method ResizeCanvas(innerWidth: nat, innerHeight: nat)
      modifies this`width, this`height, this`centerX, this`centerY
      ensures width == innerWidth && height == innerHeight
      ensures centerX == innerWidth as real / 2.0 && centerY == innerHeight as real / 2.0
      ensures stars == old(stars) && stars[..] == old(stars[..]) && Valid() == old(Valid())
    {
      width := innerWidth;
      height := innerHeight;
      centerX := width as real / 2.0;
      centerY := height as real / 2.0;
    }

    /** `createStars()`: the pool is replaced by exactly 800 fresh stars. */
    method CreateStars(draws: seq<StarDraws>)
      requires active && |draws| == NumStars && forall i :: 0 <= i < |draws| ==> ValidDraws(draws[i])
      modifies this`stars
      ensures fresh(stars) && stars.Length == NumStars && Valid()
      ensures forall i :: 0 <= i < NumStars ==> stars[i] == CreateStar(width, height, draws[i])
    {
      var pool := new Star[NumStars];
      for i := 0 to NumStars
        invariant forall j :: 0 <= j < i ==> pool[j] == CreateStar(width, height, draws[j])
      {
        pool[i] := CreateStar(width, height, draws[i]);
      }
      stars := pool;
    }

    /** The `mousemove` listener; the offset divides by the projection origin. */
    method MouseMove(clientX: real, clientY: real)
      requires centerX != 0.0 && centerY != 0.0
      modifies this`mouseX, this`mouseY
      ensures mouseX == (clientX - centerX) / centerX && mouseY == (clientY - centerY) / centerY
    {
      mouseX := (clientX - centerX) / centerX;
      mouseY := (clientY - centerY) / centerY;
    }

    /**
     * One frame of `animate()`: every star, in pool order, is updated and then drawn.
     * `places[i]` is the placement star `i` receives if it is respawned.
     */
    method Animate(places: seq<Placement>) returns (frame: seq<Sprite>)
      requires active && Valid()
      requires |places| == stars.Length && forall i :: 0 <= i < |places| ==> ValidPlacement(places[i])
      modifies stars
      ensures Valid()
      ensures forall i :: 0 <= i < stars.Length ==>
        stars[i] == UpdateStar(old(stars[i]), places[i], width, height) && stars[i].z > 0.0
      ensures |frame| == stars.Length
      ensures forall i :: 0 <= i < stars.Length ==> frame[i] == DrawStar(stars[i], CurrentView())
    {
      frame := [];
      var i := 0;
      while i < stars.Length
        invariant 0 <= i <= stars.Length && |frame| == i
        invariant forall j :: 0 <= j < i ==>
          stars[j] == UpdateStar(old(stars[j]), places[j], width, height) && stars[j].z > 0.0
        invariant forall j :: i <= j < stars.Length ==> stars[j] == old(stars[j])
        invariant forall j :: 0 <= j < stars.Length ==> InPool(stars[j])
        invariant forall j :: 0 <= j < i ==> frame[j] == DrawStar(stars[j], CurrentView())
      {
        UpdateKeepsPool(stars[i], places[i], width, height);
        stars[i] := UpdateStar(stars[i], places[i], width, height);
        frame := frame + [DrawStar(stars[i], CurrentView())];
        i := i + 1;
      }
    }
  }
}
