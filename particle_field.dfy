/** The particle field behind the hero of the scroll portfolio
    (src/app/components/ScrollPortfolio.tsx, `ParticleField`): a set of dots
    created once from the viewport's area, moved every frame, wrapped around
    the edges with a 10px margin, pushed away from the mouse and damped,
    with a faint line between every two dots closer than 140px.

    Positions and velocities are reals. Square roots are not computed: every
    distance is an input `d` that satisfies `IsDistance(d, dx, dy)`. */
module ParticleField {

  datatype Particle = Particle(x: real, y: real, vx: real, vy: real, radius: real, opacity: real)

  /** The six `Math.random()` draws a new particle consumes, in order. */
  datatype Draws = Draws(rx: real, ry: real, rvx: real, rvy: real, rradius: real, ropacity: real) {
    predicate InUnitRange() {
      0.0 <= rx < 1.0 && 0.0 <= ry < 1.0 && 0.0 <= rvx < 1.0 && 0.0 <= rvy < 1.0 &&
      0.0 <= rradius < 1.0 && 0.0 <= ropacity < 1.0
    }
  }

  /** A line drawn between particles `i` and `j` with opacity `alpha`. */
  datatype Line = Line(i: nat, j: nat, alpha: real)

  const MaxParticles: nat := 70
  /** Viewport area, in square CSS pixels, per particle. */
  const AreaPerParticle: nat := 18000
  /** How far past an edge a particle may drift before it wraps. */
  const Margin: real := 10.0
  /** Mouse coordinates while the mouse is outside the window. */
  const NoMouse: real := -9999.0
  const PushRadius: real := 160.0
  const MaxForce: real := 0.015
  const Damping: real := 0.998
  const ConnectionDist: real := 140.0
  const MaxAlpha: real := 0.07

  function Sq(a: real): real {
    a * a
  }

  /** `d` is the Euclidean length of the vector (dx, dy). */
  predicate IsDistance(d: real, dx: real, dy: real) {
    d >= 0.0 && d * d == dx * dx + dy * dy
  }

  /** `Math.min(70, Math.floor(w * h / 18000))`: the largest count not above 70
      that leaves every particle at least 18000 square pixels. */
  function ParticleCount(w: nat, h: nat): (r: nat)
    ensures r <= MaxParticles
    ensures r * AreaPerParticle <= w * h
    ensures r < MaxParticles ==> w * h < (r + 1) * AreaPerParticle
  {
    var perArea := (w * h) / AreaPerParticle;
    if perArea < MaxParticles then perArea else MaxParticles
  }

  /** Below 70 * 18000 square pixels the cap plays no part. */
  lemma CountIsFloorBelowCap(w: nat, h: nat)
    requires w * h < MaxParticles * AreaPerParticle
    ensures ParticleCount(w, h) == (w * h) / AreaPerParticle
  {
  }

  /** A full-HD viewport (1920 x 1080, 115 particles by area) hits the cap. */
  lemma FullHdIsCapped()
    ensures ParticleCount(1920, 1080) == MaxParticles
  {
  }

  /** `Math.random() * size`: a draw in [0, 1) scaled by a non-negative size
      lies in [0, size], and below `size` when it is positive. */
  function Scale(r: real, size: real): (v: real)
    requires 0.0 <= r < 1.0 && 0.0 <= size
    ensures 0.0 <= v <= size
    ensures size > 0.0 ==> v < size
  {
    ScaledDraw(r, size);
    r * size
  }

  lemma ScaledDraw(r: real, size: real)
    requires 0.0 <= r < 1.0 && 0.0 <= size
    ensures 0.0 <= r * size <= size
    ensures size > 0.0 ==> r * size < size
  {
    assert size - r * size == (1.0 - r) * size;
  }

  /** A new particle: each attribute is an affine map of one draw in [0, 1). */
  function NewParticle(w: nat, h: nat, d: Draws): (p: Particle)
    requires d.InUnitRange()
    ensures 0.0 <= p.x <= w as real && (w > 0 ==> p.x < w as real)
    ensures 0.0 <= p.y <= h as real && (h > 0 ==> p.y < h as real)
    ensures -0.125 <= p.vx < 0.125 && -0.125 <= p.vy < 0.125
    ensures 0.4 <= p.radius < 1.6
    ensures 0.08 <= p.opacity < 0.33
  {
    Particle(Scale(d.rx, w as real), Scale(d.ry, h as real),
             (d.rvx - 0.5) * 0.25, (d.rvy - 0.5) * 0.25,
             d.rradius * 1.2 + 0.4, d.ropacity * 0.25 + 0.08)
  }

  /** Radius and opacity are fixed at creation and stay in their ranges. */
  predicate FixedAttributesInRange(p: Particle) {
    0.4 <= p.radius < 1.6 && 0.08 <= p.opacity < 0.33
  }

  /** The particle lies within the viewport extended by the margin on every side. */
  predicate InsideMargins(p: Particle, w: nat, h: nat) {
    -Margin <= p.x <= w as real + Margin && -Margin <= p.y <= h as real + Margin
  }

  /** Wrapping of one coordinate: past the low margin it jumps to the far
      margin, past the far margin to the low one. The second test reads the
      value the first may have written. */
  function Wrap(c: real, size: nat): (r: real)
    ensures -Margin <= r <= size as real + Margin
    ensures -Margin <= c <= size as real + Margin ==> r == c
    ensures c < -Margin ==> r == size as real + Margin
    ensures c > size as real + Margin ==> r == -Margin
  {
    var low := if c < -Margin then size as real + Margin else c;
    if low > size as real + Margin then -Margin else low
  }

  /** `p.x += p.vx; p.y += p.vy` and the wrap. */
  function MoveWrap(p: Particle, w: nat, h: nat): (q: Particle)
    ensures InsideMargins(q, w, h)
    ensures q.vx == p.vx && q.vy == p.vy && q.radius == p.radius && q.opacity == p.opacity
  {
    p.(x := Wrap(p.x + p.vx, w), y := Wrap(p.y + p.vy, h))
  }

  /** The push strength: largest next to the mouse, vanishing at the radius. */
  function Force(dist: real): (f: real)
    requires 0.0 < dist < PushRadius
    ensures 0.0 < f < MaxForce
  {
    ((PushRadius - dist) / PushRadius) * MaxForce
  }

  /** Closer particles are pushed harder. */
  lemma ForceDecreasesWithDistance(d1: real, d2: real)
    requires 0.0 < d1 < d2 < PushRadius
    ensures Force(d1) > Force(d2)
  {
  }

  /** The mouse push, applied to a particle `q` already moved and wrapped,
      `dist` being its distance to the mouse: only for 0 < dist < 160, along
      the unit vector from the mouse to the particle. */
  function Push(q: Particle, mx: real, my: real, dist: real): (r: Particle)
    ensures r.x == q.x && r.y == q.y && r.radius == q.radius && r.opacity == q.opacity
    ensures !(0.0 < dist < PushRadius) ==> r == q
  {
    if dist < PushRadius && dist > 0.0 then
      var dx := q.x - mx;
      var dy := q.y - my;
      var force := Force(dist);
      q.(vx := q.vx + (dx / dist) * force, vy := q.vy + (dy / dist) * force)
    else q
  }

  /** Both velocity components shrink by the damping factor. */
  function Damp(q: Particle): (r: Particle)
    ensures r.x == q.x && r.y == q.y && r.radius == q.radius && r.opacity == q.opacity
  {
    q.(vx := q.vx * Damping, vy := q.vy * Damping)
  }

  /** One frame of one particle: move and wrap, push, damp. */
  function StepParticle(p: Particle, w: nat, h: nat, mx: real, my: real, dist: real): (r: Particle)
    ensures InsideMargins(r, w, h)
    ensures r.radius == p.radius && r.opacity == p.opacity
  {
    Damp(Push(MoveWrap(p, w, h), mx, my, dist))
  }

  /** The velocity's component along the direction from the mouse to the
      particle (scaled by the distance): positive means moving away. */
  function Radial(q: Particle, mx: real, my: real): real {
    q.vx * (q.x - mx) + q.vy * (q.y - my)
  }

  /** Multiplying a quotient is multiplying its dividend. */
  lemma ScaledQuotient(a: real, b: real, d: real)
    requires d != 0.0
    ensures (a / d) * b == (a * b) / d
  {
    var q := a / d;
    assert q * d == a;
    assert (q * b) * d == a * b;
  }

  /** Quotients by the same divisor add up as their dividends do. */
  lemma QuotientSum(a: real, b: real, d: real)
    requires d != 0.0
    ensures a / d + b / d == (a + b) / d
  {
    assert (a / d + b / d) * d == a + b;
  }

  /** Dividing a vector by its positive length gives a unit vector, and the
      unit vector's dot product with the original is the length. */
  lemma UnitDirection(dx: real, dy: real, dist: real)
    requires dist > 0.0 && IsDistance(dist, dx, dy)
    ensures Sq(dx / dist) + Sq(dy / dist) == 1.0
    ensures (dx / dist) * dx + (dy / dist) * dy == dist
  {
    var ux, uy := dx / dist, dy / dist;
    ScaledQuotient(dx, dx, dist);
    ScaledQuotient(dy, dy, dist);
    QuotientSum(dx * dx, dy * dy, dist);
    ScaledQuotient(dist, dist, dist);
    assert ux * dx + uy * dy == dist;
    ScaledQuotient(dx, ux, dist);
    ScaledQuotient(dy, uy, dist);
    QuotientSum(dx * ux, dy * uy, dist);
    assert dx * ux + dy * uy == dist;
  }

  /** The push moves the velocity away from the mouse by exactly force * dist. */
  lemma PushRepels(q: Particle, mx: real, my: real, dist: real)
    requires IsDistance(dist, q.x - mx, q.y - my) && 0.0 < dist < PushRadius
    ensures Radial(Push(q, mx, my, dist), mx, my) == Radial(q, mx, my) + Force(dist) * dist
    ensures Radial(Push(q, mx, my, dist), mx, my) > Radial(q, mx, my)
  {
    var dx, dy, f := q.x - mx, q.y - my, Force(dist);
    var ux, uy := dx / dist, dy / dist;
    UnitDirection(dx, dy, dist);
    var r := Push(q, mx, my, dist);
    assert r.vx == q.vx + ux * f && r.vy == q.vy + uy * f;
    assert Radial(r, mx, my) == (q.vx + ux * f) * dx + (q.vy + uy * f) * dy;
    assert (q.vx + ux * f) * dx + (q.vy + uy * f) * dy == Radial(q, mx, my) + f * (ux * dx + uy * dy);
    assert f * dist > 0.0;
  }

  /** The change of velocity the push makes has length exactly `Force(dist)`. */
  lemma PushMagnitude(q: Particle, mx: real, my: real, dist: real)
    requires IsDistance(dist, q.x - mx, q.y - my) && 0.0 < dist < PushRadius
    ensures Sq(Push(q, mx, my, dist).vx - q.vx) + Sq(Push(q, mx, my, dist).vy - q.vy) == Sq(Force(dist))
  {
    var dx, dy, f := q.x - mx, q.y - my, Force(dist);
    var ux, uy := dx / dist, dy / dist;
    UnitDirection(dx, dy, dist);
    var r := Push(q, mx, my, dist);
    assert r.vx - q.vx == ux * f && r.vy - q.vy == uy * f;
    assert Sq(ux * f) + Sq(uy * f) == (Sq(ux) + Sq(uy)) * Sq(f);
  }

  /** Damping scales the radial component by the damping factor. */
  lemma DampScalesRadial(q: Particle, mx: real, my: real)
    ensures Radial(Damp(q), mx, my) == Damping * Radial(q, mx, my)
  {
  }

  /** With the mouse within the push radius, a frame leaves the particle
      moving further away from it than the same frame without the push. */
  lemma StepRepels(p: Particle, w: nat, h: nat, mx: real, my: real, dist: real)
    requires IsDistance(dist, MoveWrap(p, w, h).x - mx, MoveWrap(p, w, h).y - my)
    requires 0.0 < dist < PushRadius
    ensures Radial(StepParticle(p, w, h, mx, my, dist), mx, my) > Radial(Damp(MoveWrap(p, w, h)), mx, my)
  {
    var q := MoveWrap(p, w, h);
    PushRepels(q, mx, my, dist);
    var r := Push(q, mx, my, dist);
    DampScalesRadial(r, mx, my);
    DampScalesRadial(q, mx, my);
  }

  /** For non-negative reals, comparing the values and comparing their squares agree. */
  lemma LessIffSquaresLess(a: real, b: real)
    requires 0.0 <= a && 0.0 <= b
    ensures a < b <==> a * a < b * b
  {
    if a < b {
      assert a * b - a * a == a * (b - a) >= 0.0;
      assert b * b - a * b == b * (b - a) > 0.0;
    } else {
      assert a * a - b * a == a * (a - b) >= 0.0;
      assert b * a - b * b == b * (a - b) >= 0.0;
    }
  }

  /** A distance is at least the absolute value of each component. */
  lemma DistanceAtLeastComponent(d: real, dx: real, dy: real)
    requires IsDistance(d, dx, dy)
    ensures d >= dx && d >= -dx
  {
    var a := if dx >= 0.0 then dx else -dx;
    assert a * a == dx * dx;
    assert dy * dy >= 0.0;
    LessIffSquaresLess(d, a);
  }

  /** While the mouse is outside the window no particle inside the margins
      is pushed. */
  lemma NoPushWithoutMouse(q: Particle, w: nat, h: nat, dist: real)
    requires InsideMargins(q, w, h)
    requires IsDistance(dist, q.x - NoMouse, q.y - NoMouse)
    ensures Push(q, NoMouse, NoMouse, dist) == q
  {
    DistanceAtLeastComponent(dist, q.x - NoMouse, q.y - NoMouse);
  }

  /** Whether a pair is close enough to be joined depends on the squared
      distance alone: the line is drawn iff dx*dx + dy*dy < 140*140. */
  lemma ConnectedIffSquaredDistance(d: real, dx: real, dy: real)
    requires IsDistance(d, dx, dy)
    ensures d < ConnectionDist <==> dx * dx + dy * dy < ConnectionDist * ConnectionDist
  {
    LessIffSquaresLess(d, ConnectionDist);
  }

  /** The opacity of a connecting line falls linearly from 0.07 at distance 0
      to 0 at the connection distance. */
  function Alpha(d: real): (a: real)
    ensures 0.0 <= d < ConnectionDist ==> 0.0 < a <= MaxAlpha
    ensures a == MaxAlpha <==> d == 0.0
  {
    (1.0 - d / ConnectionDist) * MaxAlpha
  }

  /** The lines for pair (i, j), (i, j + 1), ..., (i, n - 1). */
  function RowLines(i: nat, j: nat, n: nat, dist: (int, int) -> real): seq<Line>
    decreases n - j
  {
    if j >= n then []
    else (if dist(i, j) < ConnectionDist then [Line(i, j, Alpha(dist(i, j)))] else []) + RowLines(i, j + 1, n, dist)
  }

  /** The lines for every pair i < j whose first particle is at index `i` or later. */
  function AllLines(i: nat, n: nat, dist: (int, int) -> real): seq<Line>
    decreases n - i
  {
    if i >= n then [] else RowLines(i, i + 1, n, dist) + AllLines(i + 1, n, dist)
  }

  /** Pair order: by first index, then by second. */
  predicate Before(a: Line, b: Line) {
    a.i < b.i || (a.i == b.i && a.j < b.j)
  }

  predicate StrictlyOrdered(ls: seq<Line>) {
    forall a, b :: 0 <= a < b < |ls| ==> Before(ls[a], ls[b])
  }

  lemma OrderedConcat(xs: seq<Line>, ys: seq<Line>)
    requires StrictlyOrdered(xs) && StrictlyOrdered(ys)
    requires forall a, b :: 0 <= a < |xs| && 0 <= b < |ys| ==> Before(xs[a], ys[b])
    ensures StrictlyOrdered(xs + ys)
  {
    var zs := xs + ys;
    forall a, b | 0 <= a < b < |zs|
      ensures Before(zs[a], zs[b])
    {
      if b < |xs| {
        assert zs[a] == xs[a] && zs[b] == xs[b];
      } else if a >= |xs| {
        assert zs[a] == ys[a - |xs|] && zs[b] == ys[b - |xs|];
      } else {
        assert zs[a] == xs[a] && zs[b] == ys[b - |xs|];
      }
    }
  }

  lemma {:induction false} RowLinesShape(i: nat, j: nat, n: nat, dist: (int, int) -> real)
    ensures StrictlyOrdered(RowLines(i, j, n, dist))
    ensures forall l :: l in RowLines(i, j, n, dist) <==>
      l.i == i && j <= l.j < n && dist(i, l.j) < ConnectionDist && l.alpha == Alpha(dist(i, l.j))
    decreases n - j
  {
    if j < n {
      RowLinesShape(i, j + 1, n, dist);
      var head := if dist(i, j) < ConnectionDist then [Line(i, j, Alpha(dist(i, j)))] else [];
      var rest := RowLines(i, j + 1, n, dist);
      assert forall b :: 0 <= b < |rest| ==> rest[b] in rest;
      OrderedConcat(head, rest);
    }
  }

  lemma {:induction false} AllLinesShape(i: nat, n: nat, dist: (int, int) -> real)
    ensures StrictlyOrdered(AllLines(i, n, dist))
    ensures forall l :: l in AllLines(i, n, dist) <==>
      i <= l.i < l.j < n && dist(l.i, l.j) < ConnectionDist && l.alpha == Alpha(dist(l.i, l.j))
    decreases n - i
  {
    if i < n {
      AllLinesShape(i + 1, n, dist);
      RowLinesShape(i, i + 1, n, dist);
      var row := RowLines(i, i + 1, n, dist);
      var rest := AllLines(i + 1, n, dist);
      assert forall a :: 0 <= a < |row| ==> row[a] in row;
      assert forall b :: 0 <= b < |rest| ==> rest[b] in rest;
      OrderedConcat(row, rest);
    }
  }

  /** The connection pass draws a line for pair (i, j) iff i < j and the pair
      is closer than 140px, with the matching opacity. */
  lemma LineDrawnIffClose(n: nat, dist: (int, int) -> real, i: nat, j: nat, alpha: real)
    ensures Line(i, j, alpha) in AllLines(0, n, dist) <==>
      i < j < n && dist(i, j) < ConnectionDist && alpha == Alpha(dist(i, j))
  {
    AllLinesShape(0, n, dist);
    assert Line(i, j, alpha).i == i && Line(i, j, alpha).j == j;
  }

  /** The pass visits every unordered pair once: no pair is drawn twice, and
      lines come in the order of the nested loops. */
  lemma EachPairAtMostOnce(n: nat, dist: (int, int) -> real)
    ensures StrictlyOrdered(AllLines(0, n, dist))
    ensures forall a, b :: 0 <= a < b < |AllLines(0, n, dist)| ==>
      (AllLines(0, n, dist)[a].i, AllLines(0, n, dist)[a].j) != (AllLines(0, n, dist)[b].i, AllLines(0, n, dist)[b].j)
  {
    AllLinesShape(0, n, dist);
  }

  /** The inner loop of the connection pass: particle `i` against every
      later particle, a line for each one closer than 140px. */
  method ConnectRow(i: nat, n: nat, dist: (int, int) -> real) returns (row: seq<Line>)
    requires i < n
    ensures row == RowLines(i, i + 1, n, dist)
  {
    row := [];
    for j := i + 1 to n
      invariant row + RowLines(i, j, n, dist) == RowLines(i, i + 1, n, dist)
    {
      var d := dist(i, j);
      if d < ConnectionDist {
        var line := Line(i, j, Alpha(d));
        assert RowLines(i, j, n, dist) == [line] + RowLines(i, j + 1, n, dist);
        assert (row + [line]) + RowLines(i, j + 1, n, dist) == row + ([line] + RowLines(i, j + 1, n, dist));
        row := row + [line];
      }
    }
    assert RowLines(i, n, n, dist) == [];
  }

  /** The state of one mounted `ParticleField`: the viewport size, the mouse
      and the particles, created once at mount. */
  class Field {
    var w: nat
    var h: nat
    var mouseX: real
    var mouseY: real
    const particles: array<Particle>

    ghost predicate Valid()
      reads this, particles
    {
      particles.Length <= MaxParticles &&
      forall i :: 0 <= i < particles.Length ==> FixedAttributesInRange(particles[i])
    }

    /** Mount: read the viewport, then create `ParticleCount` particles from
        the random draws; the mouse starts outside the window. */
    constructor Mount(innerWidth: nat, innerHeight: nat, draws: seq<Draws>)
      requires |draws| == ParticleCount(innerWidth, innerHeight)
      requires forall k :: 0 <= k < |draws| ==> draws[k].InUnitRange()
      ensures Valid() && fresh(particles)
      ensures w == innerWidth && h == innerHeight
      ensures mouseX == NoMouse && mouseY == NoMouse
      ensures particles.Length == |draws|
      ensures forall k :: 0 <= k < |draws| ==> particles[k] == NewParticle(innerWidth, innerHeight, draws[k])
    {
      w, h := innerWidth, innerHeight;
      mouseX, mouseY := NoMouse, NoMouse;
      particles := new Particle[|draws|](k requires 0 <= k < |draws| => NewParticle(innerWidth, innerHeight, draws[k]));
    }

    /** The resize handler records the new size; the particles are not re-created. */
    method Resize(innerWidth: nat, innerHeight: nat)
      requires Valid()
      modifies this
      ensures Valid()
      ensures w == innerWidth && h == innerHeight
      ensures mouseX == old(mouseX) && mouseY == old(mouseY)
    {
      w, h := innerWidth, innerHeight;
    }

    method MouseMove(clientX: real, clientY: real)
      modifies this
      ensures mouseX == clientX && mouseY == clientY
      ensures w == old(w) && h == old(h)
    {
      mouseX, mouseY := clientX, clientY;
    }

    method MouseLeave()
      modifies this
      ensures mouseX == NoMouse && mouseY == NoMouse
      ensures w == old(w) && h == old(h)
    {
      mouseX, mouseY := NoMouse, NoMouse;
    }

    /** The update loop of one frame, particle by particle, in place.
        `dists[k]` is particle k's distance to the mouse once moved and wrapped. */
    method Step(dists: seq<real>)
      requires Valid()
      requires |dists| == particles.Length
      requires forall k :: 0 <= k < |dists| ==>
        IsDistance(dists[k], MoveWrap(particles[k], w, h).x - mouseX, MoveWrap(particles[k], w, h).y - mouseY)
      modifies particles
      ensures Valid()
      ensures forall k :: 0 <= k < particles.Length ==>
        particles[k] == StepParticle(old(particles[k]), w, h, mouseX, mouseY, dists[k])
      ensures forall k :: 0 <= k < particles.Length ==> InsideMargins(particles[k], w, h)
    {
      for i := 0 to particles.Length
        invariant forall k :: 0 <= k < i ==>
          particles[k] == StepParticle(old(particles[k]), w, h, mouseX, mouseY, dists[k])
        invariant forall k :: i <= k < particles.Length ==> particles[k] == old(particles[k])
      {
        particles[i] := StepParticle(particles[i], w, h, mouseX, mouseY, dists[i]);
      }
    }

    /** The connection pass of one frame: every pair i < j once, a line when
        the pair is closer than 140px. `dist(i, j)` is the distance of the pair. */
    method Connections(dist: (int, int) -> real) returns (lines: seq<Line>)
      requires forall i, j :: 0 <= i < j < particles.Length ==>
        IsDistance(dist(i, j), particles[i].x - particles[j].x, particles[i].y - particles[j].y)
      ensures lines == AllLines(0, particles.Length, dist)
    {
      var n := particles.Length;
      lines := [];
      for i := 0 to n
        invariant lines + AllLines(i, n, dist) == AllLines(0, n, dist)
      {
        var row := ConnectRow(i, n, dist);
        assert AllLines(i, n, dist) == row + AllLines(i + 1, n, dist);
        assert (lines + row) + AllLines(i + 1, n, dist) == lines + (row + AllLines(i + 1, n, dist));
        lines := lines + row;
      }
    }
  }
}
