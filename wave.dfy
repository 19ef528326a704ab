/**
  The animated background of the site: a fixed 50 x 50 grid of particles laid
  out on a horizontal plane, projected with a pinhole camera, rippled by a
  travelling wave and pulled toward the mouse with a lagging, elastic offset.

  The wave term (a sum of a sine and a cosine of the frame time) and the square
  root of the mouse distance are not computed here: a frame receives them as
  the functions `wave` and `sqrt`. Numbers are exact reals.
*/
module Wave {
  import opened Options

  const Rows: nat := 50
  const Cols: nat := 50
  const Spacing: real := 20.0
  const FocalLength: real := 400.0
  /** Fraction of the remaining distance to the target offset covered per frame. */
  const Smoothing: real := 0.08
  /** How strongly the mouse pulls a particle, per pixel of distance. */
  const Pull: real := 0.05
  const MouseRadius: real := 250.0

  datatype Size = Small | Large

  /** A CSS hsl() colour: hue in degrees, saturation and lightness in percent. */
  datatype Hsl = Hsl(hue: real, saturation: nat, lightness: nat)

  /** A CSS rgba() colour. */
  datatype Rgba = Rgba(r: nat, g: nat, b: nat, alpha: real)

  /** The mouse record: last mouse position in pixels and the influence radius. */
  datatype Mouse = Mouse(x: real, y: real, radius: real)

  /** Everything one particle holds. */
  datatype ParticleState = ParticleState(
    originX: real, originY: real, originZ: real,
    baseHue: real, size: Size,
    offsetX: real, offsetY: real)

  datatype Offset = Offset(x: real, y: real)

  /** The circle a particle paints in one frame. */
  datatype Dot = Dot(x: real, y: real, radius: real, color: Hsl)

  /** What one animation frame paints: the translucent trail rectangle, then one
      entry per particle (None when the particle is skipped). */
  datatype Frame = Frame(trail: Rgba, dots: seq<Option<Dot>>)

  /** The per-frame inputs of Particle.update. `wave(x, z)` stands for the wave
      height at this frame's time for a particle at (x, z); `sqrt` for the square root. */
  datatype FrameInput = FrameInput(
    width: int, height: int, mouse: Mouse,
    wave: (real, real) -> real, sqrt: real -> real, isDark: bool)

  function Abs(x: real): real { if x < 0.0 then -x else x }

  function Min(a: real, b: real): real { if a <= b then a else b }

  function Max(a: real, b: real): real { if a <= b then b else a }

  function Pow(x: real, n: nat): real { if n == 0 then 1.0 else x * Pow(x, n - 1) }

  /** The hue a particle receives at construction from its depth. */
  function HueOf(z: real): real { 280.0 + z / 10.0 }

  /**
    getColor: a fixed-lightness hue in dark mode, a darker, compressed hue band
    in light mode. The ensures spell out the two formulas; what follows from
    them is stated in `PalettesFollowDepth` and `GridHues`.
  */
  function Color(baseHue: real, isDark: bool): (c: Hsl)
    ensures isDark ==> c.hue == baseHue && c.saturation == 80 && c.lightness == 70
    ensures !isDark ==> c.hue - 220.0 == (baseHue - 280.0) / 2.0 && c.saturation == 70 && c.lightness == 30
  {
    if isDark then Hsl(baseHue, 80, 70) else Hsl(220.0 + (baseHue - 280.0) * 0.5, 70, 30)
  }

  /** The radius rule of Particle.render. */
  function DotRadius(size: Size, scale: real): (r: real)
    requires 0.0 < scale
    ensures 0.0 < r
    ensures size == Large ==> scale < r
    ensures size == Small ==> r < scale
  {
    if size == Large then scale * 1.5 else scale * 0.7
  }

  /** The background painted over the previous frame to leave a trail. */
  function TrailColor(isDark: bool): (c: Rgba)
    ensures c.alpha == 0.2
    ensures isDark ==> c.r == 0 && c.g == 0 && c.b == 0
    ensures !isDark ==> c.r == 255 && c.g == 255 && c.b == 255
  {
    if isDark then Rgba(0, 0, 0, 0.2) else Rgba(255, 255, 255, 0.2)
  }

  /** A point at or behind the camera plane. */
  predicate BehindCamera(z: real) { z <= -FocalLength }

  /** Perspective scale of a point in front of the camera. */
  function Scale(z: real): (s: real)
    requires !BehindCamera(z)
    ensures 0.0 < s
  {
    FocalLength / (FocalLength + z)
  }

  /** Pull strength of the mouse at distance `dist`: 1 at the mouse, falling linearly to 0 at the radius. */
  function Influence(dist: real, radius: real): (f: real)
    requires 0.0 < radius
    ensures 0.0 <= dist < radius ==> 0.0 < f <= 1.0
  {
    QuotientBelowOne(dist, radius);
    1.0 - dist / radius
  }

  lemma QuotientBelowOne(d: real, r: real)
    requires 0.0 < r
    ensures 0.0 <= d < r ==> 0.0 <= d / r < 1.0
  {
    assert d / r == d * (1.0 / r);
    assert 1.0 / r > 0.0;
  }

  /** The offset a particle is drawn toward, given the vector (dx, dy) from it to the mouse. */
  function Target(dx: real, dy: real, dist: real, radius: real): (t: Offset)
    requires 0.0 < radius
    ensures radius <= dist ==> t == Offset(0.0, 0.0)
    ensures 0.0 <= dist < radius ==> Abs(t.x) <= Pull * Abs(dx) && Abs(t.y) <= Pull * Abs(dy)
    ensures 0.0 <= dist < radius ==> (0.0 < t.x <==> 0.0 < dx) && (0.0 < t.y <==> 0.0 < dy)
  {
    if dist < radius then
      var influence := Influence(dist, radius);
      assert 0.0 <= dist ==> Abs(influence * dx) <= Abs(dx) by {
        if 0.0 <= dist { ScaledDown(influence, dx); }
      }
      assert 0.0 <= dist ==> Abs(influence * dy) <= Abs(dy) by {
        if 0.0 <= dist { ScaledDown(influence, dy); }
      }
      Offset(influence * dx * Pull, influence * dy * Pull)
    else
      Offset(0.0, 0.0)
  }

  lemma ScaledDown(f: real, x: real)
    requires 0.0 < f <= 1.0
    ensures Abs(f * x) <= Abs(x)
    ensures (0.0 < f * x <==> 0.0 < x)
  {
    if x < 0.0 {
      assert f * x >= x;
      assert f * x < 0.0;
    } else {
      assert f * x <= x;
    }
  }

  /** One smoothing step toward `target` (exponential smoothing). */
  function Smooth(current: real, target: real): (next: real)
    ensures Min(current, target) <= next <= Max(current, target)
    ensures target == 0.0 ==> next == (1.0 - Smoothing) * current
  {
    current + (target - current) * Smoothing
  }

  /** Screen position of the particle before the mouse offset is applied. */
  function BaseScreenX(p: ParticleState, width: int): real
    requires !BehindCamera(p.originZ)
  {
    Project(width, p.originX, Scale(p.originZ))
  }

  function BaseScreenY(p: ParticleState, height: int, waveY: real): real
    requires !BehindCamera(p.originZ)
  {
    Project(height, p.originY + waveY, Scale(p.originZ))
  }

  /** Squared length of the vector (dx, dy). */
  function SumSq(dx: real, dy: real): real { dx * dx + dy * dy }

  /** The target offset of a drawn particle in one frame. */
  function TargetFor(p: ParticleState, f: FrameInput): Offset
    requires !BehindCamera(p.originZ) && 0.0 < f.mouse.radius
  {
    var waveY := f.wave(p.originX, p.originZ);
    var dx := f.mouse.x - BaseScreenX(p, f.width);
    var dy := f.mouse.y - BaseScreenY(p, f.height, waveY);
    Target(dx, dy, f.sqrt(SumSq(dx, dy)), f.mouse.radius)
  }

  /** The fields a particle never changes after construction agree. */
  predicate SameOrigin(p: ParticleState, q: ParticleState) {
    p.originX == q.originX && p.originY == q.originY && p.originZ == q.originZ
    && p.baseHue == q.baseHue && p.size == q.size
  }

  /**
    Particle.update as a function: the particle's next state and the dot it
    paints. A particle at or behind the camera plane is skipped untouched;
    otherwise only its two offsets move, each one smoothing step toward the
    mouse's target, and it is painted with its size's radius and its palette colour.
  */
  function Advance(p: ParticleState, f: FrameInput): (r: (ParticleState, Option<Dot>))
    requires 0.0 < f.mouse.radius
    ensures SameOrigin(r.0, p)
    ensures BehindCamera(p.originZ) ==> r == (p, None)
    ensures !BehindCamera(p.originZ) ==>
      && r.0.offsetX == Smooth(p.offsetX, TargetFor(p, f).x)
      && r.0.offsetY == Smooth(p.offsetY, TargetFor(p, f).y)
      && r.1.Some?
      && r.1.value.radius == DotRadius(p.size, Scale(p.originZ))
      && r.1.value.color == Color(p.baseHue, f.isDark)
  {
    if BehindCamera(p.originZ) || Scale(p.originZ) <= 0.0 then
      (p, None)
    else
      var waveY := f.wave(p.originX, p.originZ);
      var scale := Scale(p.originZ);
      var t := TargetFor(p, f);
      var q := p.(offsetX := Smooth(p.offsetX, t.x), offsetY := Smooth(p.offsetY, t.y));
      (q, Some(Paint(q, f, waveY, scale)))
  }

  /** The drawn case of Advance spelled out, for the method that performs it step by step. */
  lemma AdvanceDrawn(p: ParticleState, f: FrameInput, waveY: real, scale: real, baseX: real, baseY: real,
                     q: ParticleState, sx: real, sy: real)
    requires 0.0 < f.mouse.radius && !BehindCamera(p.originZ)
    requires waveY == f.wave(p.originX, p.originZ) && scale == Scale(p.originZ)
    requires baseX == BaseScreenX(p, f.width) && baseY == BaseScreenY(p, f.height, waveY)
    requires var dx, dy := f.mouse.x - baseX, f.mouse.y - baseY;
      var t := Target(dx, dy, f.sqrt(SumSq(dx, dy)), f.mouse.radius);
      q == p.(offsetX := Smooth(p.offsetX, t.x), offsetY := Smooth(p.offsetY, t.y))
    requires sx == Project(f.width, q.originX + q.offsetX, scale)
    requires sy == Project(f.height, q.originY + waveY + q.offsetY, scale)
    ensures Advance(p, f) == (q, Some(Dot(sx, sy, DotRadius(q.size, scale), Color(q.baseHue, f.isDark))))
  {
  }

  /** Where and how a drawn particle is painted: its origin plus offsets (and the
      wave, vertically) projected with `scale`, then Particle.render's radius and colour. */
  function Paint(q: ParticleState, f: FrameInput, waveY: real, scale: real): Dot
    requires 0.0 < scale
  {
    Dot(Project(f.width, q.originX + q.offsetX, scale), Project(f.height, q.originY + waveY + q.offsetY, scale),
        DotRadius(q.size, scale), Color(q.baseHue, f.isDark))
  }

  /** Perspective projection of a coordinate onto a canvas axis of the given extent, centred. */
  function Project(extent: int, coord: real, scale: real): real {
    extent as real / 2.0 + coord * scale
  }

  /**
    A drawn particle is painted at its base screen position displaced by its
    new offsets times the perspective scale: the wave moves it vertically only,
    the mouse offset in both directions.
  */
  lemma AdvancePosition(p: ParticleState, f: FrameInput)
    requires 0.0 < f.mouse.radius && !BehindCamera(p.originZ)
    ensures var r := Advance(p, f); var scale := Scale(p.originZ);
      && r.1.value.x == BaseScreenX(p, f.width) + r.0.offsetX * scale
      && r.1.value.y == BaseScreenY(p, f.height, f.wave(p.originX, p.originZ)) + r.0.offsetY * scale
  {
    var r := Advance(p, f);
    var scale := Scale(p.originZ);
    var waveY := f.wave(p.originX, p.originZ);
    assert r.1 == Some(Paint(r.0, f, waveY, scale));
    Distribute(f.width as real / 2.0, p.originX, r.0.offsetX, scale);
    Distribute(f.height as real / 2.0, p.originY + waveY, r.0.offsetY, scale);
  }

  lemma Distribute(a: real, b: real, c: real, s: real)
    ensures a + (b + c) * s == (a + b * s) + c * s
  {
  }

  predicate PositiveRadii(frames: seq<FrameInput>) {
    forall k :: 0 <= k < |frames| ==> 0.0 < frames[k].mouse.radius
  }

  /** A particle's state after a sequence of frames. */
  function Run(p: ParticleState, frames: seq<FrameInput>): (q: ParticleState)
    requires PositiveRadii(frames)
    ensures SameOrigin(q, p)
    decreases |frames|
  {
    if frames == [] then p else Run(Advance(p, frames[0]).0, frames[1..])
  }

  /** The mouse stays out of reach of a particle in every frame. */
  predicate OutOfReach(p: ParticleState, frames: seq<FrameInput>)
    requires PositiveRadii(frames) && !BehindCamera(p.originZ)
  {
    forall k :: 0 <= k < |frames| ==> TargetFor(p, frames[k]) == Offset(0.0, 0.0)
  }

  /** The target offset depends on a particle's fixed fields only, not on its current offsets. */
  lemma TargetIgnoresOffsets(p: ParticleState, q: ParticleState, f: FrameInput)
    requires SameOrigin(p, q) && !BehindCamera(p.originZ) && 0.0 < f.mouse.radius
    ensures TargetFor(p, f) == TargetFor(q, f)
  {
    var waveY := f.wave(p.originX, p.originZ);
    var dx := f.mouse.x - BaseScreenX(p, f.width);
    var dy := f.mouse.y - BaseScreenY(p, f.height, waveY);
    assert dx == f.mouse.x - BaseScreenX(q, f.width);
    assert dy == f.mouse.y - BaseScreenY(q, f.height, waveY);
    assert TargetFor(p, f) == Target(dx, dy, f.sqrt(SumSq(dx, dy)), f.mouse.radius);
  }

  /** An offset after n smoothing steps toward a zero target. */
  function Relax(c: real, n: nat): real
    decreases n
  {
    if n == 0 then c else Relax(Smooth(c, 0.0), n - 1)
  }

  /**
    While the mouse stays out of reach, each frame is one smoothing step
    toward zero for both offsets. A skipped particle keeps its offsets.
  */
  lemma {:induction false} RunOutOfReach(p: ParticleState, frames: seq<FrameInput>)
    requires PositiveRadii(frames)
    requires !BehindCamera(p.originZ) ==> OutOfReach(p, frames)
    ensures BehindCamera(p.originZ) ==> Run(p, frames) == p
    ensures !BehindCamera(p.originZ) ==>
      && Run(p, frames).offsetX == Relax(p.offsetX, |frames|)
      && Run(p, frames).offsetY == Relax(p.offsetY, |frames|)
    decreases |frames|
  {
    if frames != [] {
      var q := Advance(p, frames[0]).0;
      var rest := frames[1..];
      assert PositiveRadii(rest) by {
        forall k | 0 <= k < |rest| ensures 0.0 < rest[k].mouse.radius {
          assert rest[k] == frames[k + 1];
        }
      }
      assert Run(p, frames) == Run(q, rest);
      if BehindCamera(p.originZ) {
        RunOutOfReach(q, rest);
      } else {
        assert TargetFor(p, frames[0]) == Offset(0.0, 0.0);
        assert OutOfReach(q, rest) by {
          forall k | 0 <= k < |rest|
            ensures TargetFor(q, rest[k]) == Offset(0.0, 0.0)
          {
            assert rest[k] == frames[k + 1];
            TargetIgnoresOffsets(p, q, frames[k + 1]);
          }
        }
        RunOutOfReach(q, rest);
        assert q.offsetX == Smooth(p.offsetX, 0.0) && q.offsetY == Smooth(p.offsetY, 0.0);
      }
    }
  }

  /**
    Relaxing is geometric decay with ratio 0.92 per frame: the offset never
    grows and after n frames is 0.92^n of what it was.
  */
  lemma {:induction false} RelaxDecays(c: real, n: nat)
    ensures Relax(c, n) == Pow(1.0 - Smoothing, n) * c
    ensures Abs(Relax(c, n)) <= Abs(c)
    ensures Abs(Relax(c, n + 1)) <= Abs(Relax(c, n))
    decreases n
  {
    if n > 0 {
      RelaxDecays(Smooth(c, 0.0), n - 1);
      var a := Pow(1.0 - Smoothing, n - 1);
      DecayStep(a, Pow(1.0 - Smoothing, n), c, Smooth(c, 0.0), Relax(c, n));
    } else {
      assert Relax(c, 1) == Relax(Smooth(c, 0.0), 0);
    }
  }

  lemma DecayStep(a: real, b: real, before: real, after: real, later: real)
    requires b == 0.92 * a && after == Smooth(before, 0.0) && later == a * after
    ensures later == b * before
  {
  }

  /**
    With an exact square root the target offset never exceeds 1/80 of the
    mouse radius in either axis (the pull peaks at half the radius).
  */
  lemma TargetWithinReach(dx: real, dy: real, dist: real, radius: real)
    requires 0.0 <= dist && dist * dist == SumSq(dx, dy) && 0.0 < radius
    ensures Abs(Target(dx, dy, dist, radius).x) <= radius / 80.0
    ensures Abs(Target(dx, dy, dist, radius).y) <= radius / 80.0
  {
    var t := Target(dx, dy, dist, radius);
    if dist < radius {
      assert t.x == Influence(dist, radius) * dx * Pull;
      assert t.y == Influence(dist, radius) * dy * Pull;
      SideWithinHypotenuse(dx, dy, dist);
      SideWithinHypotenuse(dy, dx, dist);
      AxisWithinReach(dx, dist, radius);
      AxisWithinReach(dy, dist, radius);
    }
  }

  /** One axis of the target: at most Pull * (1 - d/r) * d, which peaks at r/4. */
  lemma AxisWithinReach(a: real, dist: real, r: real)
    requires 0.0 <= dist < r && Abs(a) <= dist
    ensures Abs(Influence(dist, r) * a * Pull) <= r / 80.0
  {
    var f := Influence(dist, r);
    assert f == 1.0 - dist / r;
    AbsMul(f, a);
    MulMono(f, Abs(a), dist);
    PeakPull(dist, r);
    assert f * dist <= r / 4.0;
    assert Abs(f * a) <= r / 4.0;
    var m := f * a;
    assert Abs(m * Pull) == Abs(m) * Pull;
  }

  lemma SideWithinHypotenuse(a: real, b: real, c: real)
    requires 0.0 <= c && c * c == a * a + b * b
    ensures Abs(a) <= c
  {
    var m := Abs(a);
    assert m * m == a * a;
    assert b * b >= 0.0;
    if m > c {
      assert m * m - c * c == (m - c) * (m + c);
      PositiveProduct(m - c, m + c);
    }
  }

  lemma PositiveProduct(x: real, y: real)
    requires 0.0 < x && 0.0 < y
    ensures 0.0 < x * y
  {
  }

  /** (1 - d/r) * d is at most r/4. */
  lemma PeakPull(d: real, r: real)
    requires 0.0 < r
    ensures (1.0 - d / r) * d <= r / 4.0
  {
    var h := r / 2.0 - d;
    assert h * h >= 0.0;
    assert (1.0 - d / r) * d == d - d * d / r;
    assert r / 4.0 - (d - d * d / r) == h * h / r;
    assert h * h / r >= 0.0;
  }

  lemma MulMono(f: real, a: real, b: real)
    requires 0.0 <= f && a <= b
    ensures f * a <= f * b
  {
  }

  lemma AbsMul(f: real, x: real)
    requires 0.0 <= f
    ensures Abs(f * x) == f * Abs(x)
  {
  }

  /**
    With an exact square root, an offset that starts within 1/80 of the mouse
    radius stays there in every frame: the deflection is bounded.
  */
  lemma AdvanceKeepsOffsetsBounded(p: ParticleState, f: FrameInput)
    requires 0.0 < f.mouse.radius
    requires forall x :: 0.0 <= x ==> 0.0 <= f.sqrt(x) && f.sqrt(x) * f.sqrt(x) == x
    requires Abs(p.offsetX) <= f.mouse.radius / 80.0 && Abs(p.offsetY) <= f.mouse.radius / 80.0
    ensures Abs(Advance(p, f).0.offsetX) <= f.mouse.radius / 80.0
    ensures Abs(Advance(p, f).0.offsetY) <= f.mouse.radius / 80.0
  {
    if !BehindCamera(p.originZ) {
      var waveY := f.wave(p.originX, p.originZ);
      var dx := f.mouse.x - BaseScreenX(p, f.width);
      var dy := f.mouse.y - BaseScreenY(p, f.height, waveY);
      assert 0.0 <= SumSq(dx, dy);
      TargetWithinReach(dx, dy, f.sqrt(SumSq(dx, dy)), f.mouse.radius);
    }
  }

  /** Both palettes keep the depth order of hues; the light palette compresses hue differences by half. */
  lemma PalettesFollowDepth(h1: real, h2: real)
    requires h1 < h2
    ensures Color(h1, true).hue < Color(h2, true).hue
    ensures Color(h2, false).hue - Color(h1, false).hue == (h2 - h1) / 2.0
    ensures Color(h1, true).saturation == 80 && Color(h1, true).lightness == 70
    ensures Color(h1, false).saturation == 70 && Color(h1, false).lightness == 30
  {
  }

  // ---------------------------------------------------------------- the grid

  /** The particle `init` builds in row i, column j. */
  function GridParticle(height: int, i: nat, j: nat): (p: ParticleState)
    ensures p.originY == height as real / 4.0 && p.baseHue == HueOf(p.originZ)
    ensures p.offsetX == 0.0 && p.offsetY == 0.0
    ensures p.size == Large <==> (i + j) % 2 == 0
  {
    var z := (i as real - Rows as real / 2.0) * Spacing;
    ParticleState(
      (j as real - Cols as real / 2.0) * Spacing, height as real / 4.0, z,
      HueOf(z), if (i + j) % 2 == 0 then Large else Small, 0.0, 0.0)
  }

  /** The particle at position k of the row-major grid. */
  function GridAt(height: int, k: nat): ParticleState
    requires k < Rows * Cols
  {
    GridParticle(height, k / Cols, k % Cols)
  }

  lemma CellIndex(i: nat, j: nat)
    requires j < Cols
    ensures (i * Cols + j) / Cols == i && (i * Cols + j) % Cols == j
  {
  }

  /**
    Particle (i, j) of the grid sits at x = (j - 25) * 20, z = (i - 25) * 20 on the
    floor y = height / 4, starts at rest, takes its hue from its depth, and is
    large exactly on the even squares of a checkerboard.
  */
  lemma GridLayout(height: int, i: nat, j: nat)
    requires i < Rows && j < Cols
    ensures i * Cols + j < Rows * Cols
    ensures var p := GridAt(height, i * Cols + j);
      && p.originX == (j as real - 25.0) * 20.0
      && p.originZ == (i as real - 25.0) * 20.0
      && p.originY == height as real / 4.0
      && p.baseHue == 280.0 + p.originZ / 10.0
      && p.offsetX == 0.0 && p.offsetY == 0.0
      && (p.size == Large <==> (i + j) % 2 == 0)
  {
    CellIndex(i, j);
  }

  /** Neighbours along a row or a column always differ in size. */
  lemma GridCheckerboard(height: int, i: nat, j: nat)
    requires i < Rows && j < Cols
    ensures j + 1 < Cols ==> GridAt(height, i * Cols + j).size != GridAt(height, i * Cols + j + 1).size
    ensures i + 1 < Rows ==> GridAt(height, i * Cols + j).size != GridAt(height, (i + 1) * Cols + j).size
  {
    CellIndex(i, j);
    if j + 1 < Cols { CellIndex(i, j + 1); }
    if i + 1 < Rows { CellIndex(i + 1, j); }
  }

  /** No two grid particles share a position on the plane. */
  lemma GridPositionsDistinct(height: int, k1: nat, k2: nat)
    requires k1 < Rows * Cols && k2 < Rows * Cols && k1 != k2
    ensures GridAt(height, k1).originX != GridAt(height, k2).originX
         || GridAt(height, k1).originZ != GridAt(height, k2).originZ
  {
    var i1, j1, i2, j2 := k1 / Cols, k1 % Cols, k2 / Cols, k2 % Cols;
    assert k1 == i1 * Cols + j1 && k2 == i2 * Cols + j2;
    assert i1 != i2 || j1 != j2;
  }

  /**
    Exactly the first six rows (positions below 300) lie at or behind the camera
    plane; every other row i is drawn at scale 20 / (i - 5).
  */
  lemma GridVisibility(height: int, i: nat, j: nat)
    requires i < Rows && j < Cols
    ensures i * Cols + j < Rows * Cols
    ensures BehindCamera(GridAt(height, i * Cols + j).originZ) <==> i <= 5
    ensures BehindCamera(GridAt(height, i * Cols + j).originZ) <==> i * Cols + j < 300
    ensures i > 5 ==> Scale(GridAt(height, i * Cols + j).originZ) == 20.0 / (i as real - 5.0)
  {
    CellIndex(i, j);
    var z := GridAt(height, i * Cols + j).originZ;
    assert z == (i as real - 25.0) * 20.0;
    if i > 5 {
      assert FocalLength + z == 20.0 * (i as real - 5.0);
    }
  }

  /**
    Grid hues span 230..328 degrees, the first row at the bottom of the range
    and the last at the top, so the light palette stays within 195..244.
  */
  lemma GridHues(height: int, k: nat)
    requires k < Rows * Cols
    ensures 230.0 <= GridAt(height, k).baseHue <= 328.0
    ensures k < Cols ==> GridAt(height, k).baseHue == 230.0
    ensures k >= (Rows - 1) * Cols ==> GridAt(height, k).baseHue == 328.0
    ensures 195.0 <= Color(GridAt(height, k).baseHue, false).hue <= 244.0
  {
    var i := k / Cols;
    assert i < Rows;
  }

  // ------------------------------------------------------- mutable objects

  /** A particle: its position, hue and size are fixed; its mouse offsets move every frame. */
  class Particle {
    const originX: real
    const originY: real
    const originZ: real
    const baseHue: real
    const size: Size
    var offsetX: real
    var offsetY: real

    function State(): ParticleState
      reads this
    {
      ParticleState(originX, originY, originZ, baseHue, size, offsetX, offsetY)
    }

    constructor (x: real, y: real, z: real, size: Size)
      ensures State() == ParticleState(x, y, z, HueOf(z), size, 0.0, 0.0)
    {
      originX := x;
      originY := y;
      originZ := z;
      baseHue := 280.0 + z / 10.0;
      offsetX := 0.0;
      offsetY := 0.0;
      this.size := size;
    }

    /** `render`: the dot painted at a screen position, its radius set by the size class and depth. */
    method Render(sx: real, sy: real, scale: real, isDark: bool) returns (dot: Dot)
      requires 0.0 < scale
      ensures dot == Dot(sx, sy, DotRadius(size, scale), Color(baseHue, isDark))
      ensures dot.radius > 0.0
    {
      var radius := if size == Large then scale * 1.5 else scale * 0.7;
      dot := Dot(sx, sy, radius, Color(baseHue, isDark));
    }

    /**
      The mouse step of `update`: the pull towards the mouse when the
      particle's base screen position (baseX, baseY) is within its radius, and one
      smoothing step of both offsets towards that pull.
    */
    method Follow(mouse: Mouse, sqrt: real -> real, baseX: real, baseY: real)
      requires 0.0 < mouse.radius
      modifies this
      ensures var t := Target(mouse.x - baseX, mouse.y - baseY, sqrt(SumSq(mouse.x - baseX, mouse.y - baseY)), mouse.radius);
        offsetX == Smooth(old(offsetX), t.x) && offsetY == Smooth(old(offsetY), t.y)
    {
      var dx := mouse.x - baseX;
      var dy := mouse.y - baseY;
      var dist := sqrt(SumSq(dx, dy));
      var targetX, targetY := 0.0, 0.0;
      if dist < mouse.radius {
        var influence := 1.0 - dist / mouse.radius;
        targetX := influence * dx * 0.05;
        targetY := influence * dy * 0.05;
      }
      offsetX := offsetX + (targetX - offsetX) * 0.08;
      offsetY := offsetY + (targetY - offsetY) * 0.08;
    }

    /** Particle.update followed by render: moves the offsets and returns the dot it paints. */
    method Update(f: FrameInput) returns (drawn: Option<Dot>)
      requires 0.0 < f.mouse.radius
      modifies this
      ensures (State(), drawn) == Advance(old(State()), f)
    {
      ghost var p := State();
      var waveY := f.wave(originX, originZ);
      if originZ <= -FocalLength {
        return None;
      }
      var scale := FocalLength / (FocalLength + originZ);
      assert scale == Scale(p.originZ);
      if scale <= 0.0 {
        return None;
      }
      var baseScreenX := Project(f.width, originX, scale);
      var baseScreenY := Project(f.height, originY + waveY, scale);
      Follow(f.mouse, f.sqrt, baseScreenX, baseScreenY);
      var finalX := originX + offsetX;
      var finalY := originY + waveY + offsetY;
      var screenX := Project(f.width, finalX, scale);
      var screenY := Project(f.height, finalY, scale);
      AdvanceDrawn(p, f, waveY, scale, baseScreenX, baseScreenY, State(), screenX, screenY);
      var dot := Render(screenX, screenY, scale, f.isDark);
      drawn := Some(dot);
    }
  }

  /** The background component: the particle list, the canvas size, the theme and the mouse record. */
  class ParticleField {
    var particles: seq<Particle>
    var width: int
    var height: int
    var isDark: bool
    var mouse: Mouse

    ghost predicate Valid()
      reads this
    {
      && mouse.radius == MouseRadius
      && |particles| == Rows * Cols
      && forall a, b :: 0 <= a < b < |particles| ==> particles[a] != particles[b]
    }

    /** Mounting: the mouse starts far off-screen, then the effect runs `init`. */
    constructor Mount(w: int, h: int, dark: bool)
      ensures Valid()
      ensures width == w && height == h && isDark == dark
      ensures mouse == Mouse(-1000.0, -1000.0, MouseRadius)
      ensures forall k :: 0 <= k < |particles| ==> fresh(particles[k]) && particles[k].State() == GridAt(h, k)
    {
      particles := [];
      width, height := w, h;
      isDark := dark;
      mouse := Mouse(-1000.0, -1000.0, MouseRadius);
      new;
      Init(w, h);
    }

    /**
      `init`: resize the canvas to the window, discard every particle and build
      the 50 x 50 grid row by row. It runs on mount, on every window resize and
      whenever the theme changes.
    */
    method Init(w: int, h: int)
      modifies this
      requires mouse.radius == MouseRadius
      ensures Valid()
      ensures width == w && height == h && isDark == old(isDark) && mouse == old(mouse)
      ensures forall k :: 0 <= k < |particles| ==> fresh(particles[k]) && particles[k].State() == GridAt(h, k)
    {
      width := w;
      height := h;
      particles := [];
      for i := 0 to Rows
        invariant |particles| == i * Cols
        invariant forall k :: 0 <= k < |particles| ==> fresh(particles[k]) && particles[k].State() == GridAt(h, k)
        invariant forall a, b :: 0 <= a < b < |particles| ==> particles[a] != particles[b]
        invariant width == w && height == h && isDark == old(isDark) && mouse == old(mouse)
      {
        for j := 0 to Cols
          invariant |particles| == i * Cols + j
          invariant forall k :: 0 <= k < |particles| ==> fresh(particles[k]) && particles[k].State() == GridAt(h, k)
          invariant forall a, b :: 0 <= a < b < |particles| ==> particles[a] != particles[b]
          invariant width == w && height == h && isDark == old(isDark) && mouse == old(mouse)
        {
          var x := (j as real - Cols as real / 2.0) * Spacing;
          var z := (i as real - Rows as real / 2.0) * Spacing;
          var y := h as real / 4.0;
          var size := if (i + j) % 2 == 0 then Large else Small;
          var p := new Particle(x, y, z, size);
          CellIndex(i, j);
          particles := particles + [p];
        }
      }
    }

    /** The mouse-move listener: records the mouse position; the radius stays. */
    method MouseMove(x: real, y: real)
      modifies this
      requires Valid()
      ensures Valid()
      ensures mouse == Mouse(x, y, MouseRadius)
      ensures particles == old(particles) && width == old(width) && height == old(height) && isDark == old(isDark)
    {
      mouse := mouse.(x := x, y := y);
    }

    /**
      A theme change: `isDark` is a dependency of the effect, so a different
      value tears the effect down and runs it again, which re-runs `init` with
      the current window size and resets every offset.
    */
    method SetTheme(dark: bool, w: int, h: int)
      modifies this
      requires Valid()
      ensures Valid()
      ensures isDark == dark && mouse == old(mouse)
      ensures dark == old(isDark) ==> particles == old(particles) && width == old(width) && height == old(height)
      ensures dark != old(isDark) ==> (width == w && height == h &&
        forall k :: 0 <= k < |particles| ==> fresh(particles[k]) && particles[k].State() == GridAt(h, k))
    {
      if dark != isDark {
        isDark := dark;
        Init(w, h);
      }
    }

    /** The input a frame hands to every particle. */
    function Input(wave: (real, real) -> real, sqrt: real -> real): FrameInput
      reads this
    {
      FrameInput(width, height, mouse, wave, sqrt, isDark)
    }

    /** One animation frame: paint the trail, then update and paint every particle in list order. */
    method Animate(wave: (real, real) -> real, sqrt: real -> real) returns (frame: Frame)
      requires Valid()
      modifies particles
      ensures Valid()
      ensures frame.trail == TrailColor(isDark) && |frame.dots| == |particles|
      ensures forall k :: 0 <= k < |particles| ==>
        (particles[k].State(), frame.dots[k]) == Advance(old(particles[k].State()), Input(wave, sqrt))
    {
      var input := FrameInput(width, height, mouse, wave, sqrt, isDark);
      var dots := [];
      for k := 0 to |particles|
        invariant |dots| == k
        invariant forall m :: 0 <= m < k ==> (particles[m].State(), dots[m]) == Advance(old(particles[m].State()), input)
        invariant forall m :: k <= m < |particles| ==> particles[m].State() == old(particles[m].State())
      {
        var d := particles[k].Update(input);
        dots := dots + [d];
      }
      frame := Frame(TrailColor(isDark), dots);
    }
  }
}
