/** The particle field drawn behind the hero section: a pool of particles
    sized by the canvas area, moved one step per animation frame with
    wrap-around at the canvas edges, and joined by lines when two of them are
    closer than a fixed distance.

    `Math.random()` becomes an explicit `Draw` per particle, `Math.sqrt` is
    replaced by a comparison of squared distances, coordinates are `real`s,
    and the drawing calls on the 2D context are left out except for the
    connection pass, which records the lines it would stroke. */
module HeroAnimation {
  import opened Wrappers
  import opened Themes

  /** Canvas area allotted to one particle. */
  const AreaPerParticle: nat := 8000
  /** Hard cap on the number of particles. */
  const MaxParticles: nat := 120
  /** Two particles closer than this are joined by a line. */
  const MaxDistance: real := 180.0

  /** The three turquoise base colours a particle picks from, as RGB. */
  const Palette: seq<(int, int, int)> := [(64, 224, 208), (67, 232, 216), (59, 214, 198)]

  /** Number of particles for a canvas of the given size: one per 8000 units
      of area, rounded down, and never more than 120. */
  function PoolSize(width: nat, height: nat): (n: nat)
    ensures n <= MaxParticles
    ensures n == MaxParticles <==> width * height >= MaxParticles * AreaPerParticle
    ensures n < MaxParticles ==> n * AreaPerParticle <= width * height < (n + 1) * AreaPerParticle
    ensures n == 0 <==> width * height < AreaPerParticle
  {
    var perArea := width * height / AreaPerParticle;
    if perArea < MaxParticles then perArea else MaxParticles
  }

  /** An 800x600 canvas holds 60 particles, a 2000x1500 one reaches the
      cap, and one smaller than 8000 units of area holds none. */
  lemma PoolSizeScenarios()
    ensures PoolSize(800, 600) == 60
    ensures PoolSize(2000, 1500) == MaxParticles
    ensures PoolSize(99, 80) == 0
  {
  }

  /** A value returned by `Math.random()`. */
  predicate Unit(r: real) {
    0.0 <= r < 1.0
  }

  /** The seven random values a new particle consumes, in the order its
      constructor draws them. */
  datatype Draw = Draw(x: real, y: real, size: real, speedX: real, speedY: real, color: real, opacity: real)
  {
    predicate Valid() {
      Unit(x) && Unit(y) && Unit(size) && Unit(speedX) && Unit(speedY) && Unit(color) && Unit(opacity)
    }
  }

  /** A random position along one canvas dimension. */
  function Coordinate(r: real, extent: nat): (c: real)
    requires Unit(r)
    ensures 0.0 <= c <= extent as real
    ensures extent > 0 ==> c < extent as real
  {
    var e := extent as real;
    assert e - r * e == (1.0 - r) * e;
    assert (1.0 - r) * e >= 0.0 && (e > 0.0 ==> (1.0 - r) * e > 0.0);
    r * e
  }

  /** A random radius in [2, 7). */
  function Size(r: real): (s: real)
    requires Unit(r)
    ensures 2.0 <= s < 7.0
  {
    r * 5.0 + 2.0
  }

  /** A random velocity component in [-1, 1). */
  function Speed(r: real): (v: real)
    requires Unit(r)
    ensures -1.0 <= v < 1.0
  {
    r * 2.0 - 1.0
  }

  /** A random index into the palette: `Math.floor(r * colors.length)`. */
  function ColorIndex(r: real): (i: nat)
    requires Unit(r)
    ensures i < |Palette|
  {
    (r * |Palette| as real).Floor
  }

  /** The opacity baked into a particle's colour: [0.5, 0.8) in the dark
      theme, [0.6, 1.0) in any other. */
  function Opacity(r: real, theme: Theme): (o: real)
    requires Unit(r)
    ensures IsDark(theme) ==> 0.5 <= o < 0.8
    ensures !IsDark(theme) ==> 0.6 <= o < 1.0
  {
    if IsDark(theme) then r * 0.3 + 0.5 else r * 0.4 + 0.6
  }

  /** One axis of a particle's move: a position that has left the canvas
      past the far edge re-enters at 0, one that has left past 0 re-enters
      at the far edge itself, and a position on the canvas is kept. */
  function Wrap(p: real, bound: real): (q: real)
    requires bound >= 0.0
    ensures 0.0 <= q <= bound
    ensures q == p <==> 0.0 <= p <= bound
    ensures bound < p ==> q == 0.0
    ensures p < 0.0 ==> q == bound
  {
    if p > bound then 0.0 else if p < 0.0 then bound else p
  }

  /** One particle. Its position moves every frame; its radius, velocity
      and colour are fixed when it is created. */
  class Particle {
    var x: real
    var y: real
    const size: real
    const speedX: real
    const speedY: real
    const colorIndex: nat
    const opacity: real

    /** The state a particle created from `d` on a `width` by `height`
        canvas under `theme` starts in. */
    ghost predicate SpawnedFrom(d: Draw, width: nat, height: nat, theme: Theme)
      requires d.Valid()
      reads this
    {
      x == Coordinate(d.x, width) && y == Coordinate(d.y, height) &&
      size == Size(d.size) && speedX == Speed(d.speedX) && speedY == Speed(d.speedY) &&
      colorIndex == ColorIndex(d.color) && opacity == Opacity(d.opacity, theme)
    }

    constructor (width: nat, height: nat, theme: Theme, d: Draw)
      requires d.Valid()
      ensures SpawnedFrom(d, width, height, theme)
      ensures 0.0 <= x <= width as real && 0.0 <= y <= height as real
      ensures 2.0 <= size < 7.0 && -1.0 <= speedX < 1.0 && -1.0 <= speedY < 1.0
      ensures colorIndex < |Palette|
    {
      x := Coordinate(d.x, width);
      y := Coordinate(d.y, height);
      size := Size(d.size);
      speedX := Speed(d.speedX);
      speedY := Speed(d.speedY);
      colorIndex := ColorIndex(d.color);
      opacity := Opacity(d.opacity, theme);
    }

    /** Moves the particle by its velocity and wraps each axis on its own
        against the current canvas size. Only the position changes. */
    method Update(width: nat, height: nat)
      modifies this
      ensures x == Wrap(old(x) + speedX, width as real)
      ensures y == Wrap(old(y) + speedY, height as real)
      ensures 0.0 <= x <= width as real && 0.0 <= y <= height as real
    {
      x := x + speedX;
      y := y + speedY;
      if x > width as real {
        x := 0.0;
      } else if x < 0.0 {
        x := width as real;
      }
      if y > height as real {
        y := 0.0;
      } else if y < 0.0 {
        y := height as real;
      }
    }
  }

  datatype Point = Point(x: real, y: real)

  /** A line the connection pass strokes between particles `a` and `b`,
      with the squared distance between them. */
  datatype Line = Line(a: nat, b: nat, dist2: real)

  function SquaredDistance(p: Point, q: Point): (d2: real)
    ensures d2 >= 0.0
    ensures p == q ==> d2 == 0.0
  {
    (p.x - q.x) * (p.x - q.x) + (p.y - q.y) * (p.y - q.y)
  }

  /** `distance < maxDistance`, stated without the square root. */
  predicate Close(p: Point, q: Point) {
    SquaredDistance(p, q) < MaxDistance * MaxDistance
  }

  /** For a non-negative distance `d` whose square is `d2`, the threshold
      `d < 180` used by the source and the test `d2 < 32400` used by the
      model agree. */
  lemma CloseWithoutSqrt(d: real, d2: real)
    requires d >= 0.0 && d * d == d2
    ensures d < MaxDistance <==> d2 < MaxDistance * MaxDistance
  {
    if d < MaxDistance {
      assert d * d <= d * MaxDistance < MaxDistance * MaxDistance;
    } else {
      assert d * d >= d * MaxDistance >= MaxDistance * MaxDistance;
    }
  }

  /** The stroke opacity of a line between two particles `distance` apart. */
  function LineOpacity(distance: real, theme: Theme): (o: real)
    requires 0.0 <= distance < MaxDistance
    ensures 0.0 < o
    ensures IsDark(theme) ==> o <= 0.5
    ensures !IsDark(theme) ==> o <= 0.6
    ensures distance == 0.0 ==> o == (if IsDark(theme) then 0.5 else 0.6)
  {
    var opacity := 1.0 - distance / MaxDistance;
    if IsDark(theme) then opacity * 0.5 else opacity * 0.6
  }

  /** Lines fade as the particles move apart. */
  lemma LineOpacityDecreases(d1: real, d2: real, theme: Theme)
    requires 0.0 <= d1 < d2 < MaxDistance
    ensures LineOpacity(d1, theme) > LineOpacity(d2, theme)
  {
  }

  /** What one visit of the inner loop finds for the pair (a, b): the
      squared distance when a line is drawn, nothing otherwise. */
  type Visit = (nat, nat) -> Option<real>

  /** The visits of a connection pass over the positions `pts`; a pair
      that names no particle draws nothing. */
  function Visits(pts: seq<Point>): Visit {
    (a: nat, b: nat) =>
      if a < |pts| && b < |pts| && Close(pts[a], pts[b]) then Some(SquaredDistance(pts[a], pts[b])) else None
  }

  /** The line drawn on visiting (a, b), if any. */
  function Emit(visit: Visit, a: nat, b: nat): seq<Line> {
    match visit(a, b)
    case Some(d2) => [Line(a, b, d2)]
    case None => []
  }

  /** Visiting two particles finds their squared distance when they are
      closer than 180. */
  lemma VisitOf(pts: seq<Point>, a: nat, b: nat)
    requires a < |pts| && b < |pts|
    ensures var d2 := SquaredDistance(pts[a], pts[b]);
      Emit(Visits(pts), a, b) == if d2 < MaxDistance * MaxDistance then [Line(a, b, d2)] else []
  {
  }

  /** The lines the inner loop draws for row `a` while `b` runs from `a` up
      to (but not including) `end`. */
  function RowLines(visit: Visit, a: nat, end: nat): seq<Line> {
    if end <= a then [] else RowLines(visit, a, end - 1) + Emit(visit, a, end - 1)
  }

  /** The lines drawn by the first `a` rounds of the outer loop over `n`
      particles. */
  function RowsLines(visit: Visit, n: nat, a: nat): seq<Line> {
    if a == 0 then [] else RowsLines(visit, n, a - 1) + RowLines(visit, a - 1, n)
  }

  /** The lines one connection pass draws over the positions `pts`, in the
      order the nested loops draw them. */
  function Connections(pts: seq<Point>): seq<Line> {
    RowsLines(Visits(pts), |pts|, |pts|)
  }

  /** The pair tests the first `a` rounds of the outer loop make over `n`
      particles: round `a'` tests (a', a') to (a', n - 1). */
  function PairChecks(n: nat, a: nat): nat
    requires a <= n
  {
    if a == 0 then 0 else PairChecks(n, a - 1) + (n - (a - 1))
  }

  /** A whole pass over `n` particles makes n(n+1)/2 pair tests, self-pairs
      included; with the pool capped at 120 that is at most 7260. */
  lemma {:induction false} PairChecksCount(n: nat, a: nat)
    requires a <= n
    ensures 2 * PairChecks(n, a) == a * (2 * n - a + 1)
  {
    if a > 0 {
      PairChecksCount(n, a - 1);
      calc {
        2 * PairChecks(n, a);
        2 * PairChecks(n, a - 1) + 2 * (n - a + 1);
        (a - 1) * (2 * n - a + 2) + 2 * (n - a + 1);
        a * (2 * n - a + 1);
      }
    }
  }

  lemma ScaleBoth(a: nat, b: nat, c: nat, d: nat)
    requires a <= c && b <= d
    ensures a * b <= c * d
  {
    assert a * b <= a * d;
  }

  lemma PassChecks(n: nat)
    ensures PairChecks(n, n) == n * (n + 1) / 2
    ensures n <= MaxParticles ==> PairChecks(n, n) <= 7260
  {
    PairChecksCount(n, n);
    assert 2 * n - n + 1 == n + 1;
    var twice := n * (n + 1);
    assert 2 * PairChecks(n, n) == twice;
    if n <= MaxParticles {
      ScaleBoth(n, n + 1, MaxParticles, MaxParticles + 1);
    }
  }

  /** Row `a` up to `end` holds a line for (a, b) exactly when `a <= b < end`
      and the visit of (a, b) found its squared distance. */
  lemma {:induction false} RowLinesContain(visit: Visit, a: nat, end: nat, l: Line)
    ensures l in RowLines(visit, a, end) <==> l.a == a && a <= l.b < end && visit(a, l.b) == Some(l.dist2)
  {
    if a < end {
      var before, last := RowLines(visit, a, end - 1), Emit(visit, a, end - 1);
      assert RowLines(visit, a, end) == before + last;
      assert l in before + last <==> l in before || l in last;
      RowLinesContain(visit, a, end - 1, l);
    }
  }

  /** Every line of the first `a` rows is a pair (a', b) with `a' < a`,
      `a' <= b < n`, whose visit found its squared distance. */
  lemma {:induction false} RowsLinesSound(visit: Visit, n: nat, a: nat, l: Line)
    requires l in RowsLines(visit, n, a)
    ensures l.a < a && l.a <= l.b < n && visit(l.a, l.b) == Some(l.dist2)
  {
    var earlier, row := RowsLines(visit, n, a - 1), RowLines(visit, a - 1, n);
    assert RowsLines(visit, n, a) == earlier + row;
    if l in earlier {
      RowsLinesSound(visit, n, a - 1, l);
    } else {
      RowLinesContain(visit, a - 1, n, l);
    }
  }

  /** Every such pair has its line among the first `a` rows. */
  lemma {:induction false} RowsLinesComplete(visit: Visit, n: nat, a: nat, l: Line)
    requires l.a < a && l.a <= l.b < n && visit(l.a, l.b) == Some(l.dist2)
    ensures l in RowsLines(visit, n, a)
  {
    var earlier, row := RowsLines(visit, n, a - 1), RowLines(visit, a - 1, n);
    assert RowsLines(visit, n, a) == earlier + row;
    if l.a == a - 1 {
      RowLinesContain(visit, a - 1, n, l);
      assert l in row;
    } else {
      RowsLinesComplete(visit, n, a - 1, l);
      assert l in earlier;
    }
  }

  /** The connection pass draws a line between a and b exactly when
      a <= b, both are particles and they are closer than 180; the line
      carries their squared distance. */
  lemma ConnectionsExactly(pts: seq<Point>, l: Line)
    ensures l in Connections(pts) <==>
      l.a <= l.b < |pts| && Close(pts[l.a], pts[l.b]) && l.dist2 == SquaredDistance(pts[l.a], pts[l.b])
  {
    if l in Connections(pts) {
      RowsLinesSound(Visits(pts), |pts|, |pts|, l);
    }
    if l.a <= l.b < |pts| && Visits(pts)(l.a, l.b) == Some(l.dist2) {
      RowsLinesComplete(Visits(pts), |pts|, |pts|, l);
    }
  }

  /** Since `b` starts at `a`, every particle is joined to itself by a line
      of length 0. */
  lemma SelfPairsDrawn(pts: seq<Point>, a: nat)
    requires a < |pts|
    ensures Line(a, a, 0.0) in Connections(pts)
  {
    ConnectionsExactly(pts, Line(a, a, 0.0));
  }

  /** Two particles 200 apart are not joined. */
  lemma FarPairNotDrawn(pts: seq<Point>, a: nat, b: nat, l: Line)
    requires a < |pts| && b < |pts|
    requires pts[a] == Point(0.0, 0.0) && pts[b] == Point(200.0, 0.0)
    requires l.a == a && l.b == b
    ensures l !in Connections(pts)
  {
    ConnectionsExactly(pts, l);
  }

  /** The particle effect for one theme: the canvas size, the particles in
      creation order, and the theme it was set up with. A theme change
      re-runs the effect, which builds a new field. */
  class ParticleField {
    var width: nat
    var height: nat
    const theme: Theme
    var particles: seq<Particle>

    /** The pool holds distinct particles. */
    ghost predicate Valid()
      reads this
    {
      forall i, j :: 0 <= i < j < |particles| ==> particles[i] != particles[j]
    }

    /** Every particle lies on the closed canvas rectangle. */
    ghost predicate InBounds()
      reads this, particles
    {
      forall i :: 0 <= i < |particles| ==>
        0.0 <= particles[i].x <= width as real && 0.0 <= particles[i].y <= height as real
    }

    ghost function Positions(): (pts: seq<Point>)
      reads this, particles
      ensures |pts| == |particles|
      ensures forall i :: 0 <= i < |particles| ==> pts[i] == Point(particles[i].x, particles[i].y)
    {
      seq(|particles|, i reads this, particles requires 0 <= i < |particles| => Point(particles[i].x, particles[i].y))
    }

    /** Sizes the pool from the canvas area and creates its particles one
        after another, particle `i` from the `i`-th draw. */
    constructor (width: nat, height: nat, theme: Theme, draws: seq<Draw>)
      requires |draws| >= PoolSize(width, height)
      requires forall i :: 0 <= i < |draws| ==> draws[i].Valid()
      ensures Valid() && InBounds()
      ensures this.width == width && this.height == height && this.theme == theme
      ensures |particles| == PoolSize(width, height)
      ensures forall i :: 0 <= i < |particles| ==>
        fresh(particles[i]) && particles[i].SpawnedFrom(draws[i], width, height, theme)
    {
      this.width := width;
      this.height := height;
      this.theme := theme;
      particles := [];
      new;
      var n := PoolSize(width, height);
      var i := 0;
      while i < n
        invariant 0 <= i <= n
        invariant |particles| == i
        invariant this.width == width && this.height == height
        invariant Valid() && InBounds()
        invariant forall k :: 0 <= k < i ==>
          fresh(particles[k]) && particles[k].SpawnedFrom(draws[k], width, height, theme)
      {
        var p := new Particle(width, height, theme, draws[i]);
        particles := particles + [p];
        i := i + 1;
      }
    }

    /** A resize changes the canvas size only: the pool and every position
        stay as they were. */
    method Resize(width: nat, height: nat)
      requires Valid()
      modifies this
      ensures Valid()
      ensures this.width == width && this.height == height
      ensures particles == old(particles) && Positions() == old(Positions())
    {
      this.width := width;
      this.height := height;
    }

    /** One animation frame: every particle is updated once, in index
        order, and then the connection pass runs over the new positions.
        Afterwards every particle is on the canvas, whatever its previous
        position and the canvas size. */
    method Animate() returns (lines: seq<Line>)
      requires Valid()
      modifies particles
      ensures Valid() && InBounds()
      ensures forall i :: 0 <= i < |particles| ==>
        particles[i].x == Wrap(old(particles[i].x) + particles[i].speedX, width as real) &&
        particles[i].y == Wrap(old(particles[i].y) + particles[i].speedY, height as real)
      ensures lines == Connections(Positions())
    {
      var i := 0;
      while i < |particles|
        invariant 0 <= i <= |particles|
        invariant forall k :: 0 <= k < i ==>
          particles[k].x == Wrap(old(particles[k].x) + particles[k].speedX, width as real) &&
          particles[k].y == Wrap(old(particles[k].y) + particles[k].speedY, height as real)
        invariant forall k :: i <= k < |particles| ==>
          particles[k].x == old(particles[k].x) && particles[k].y == old(particles[k].y)
      {
        particles[i].Update(width, height);
        i := i + 1;
      }
      ghost var checks;
      lines, checks := Connect();
    }

    /** The connection pass: a line for every pair a <= b of particles
        closer than 180, in the order of the nested loops. The ghost
        `checks` adds up the pairs each round of the inner loop tests. */
    method Connect() returns (lines: seq<Line>, ghost checks: nat)
      ensures lines == Connections(Positions())
      ensures checks == PairChecks(|particles|, |particles|)
    {
      var n := |particles|;
      ghost var pts := Positions();
      ghost var visit := Visits(pts);
      lines, checks := [], 0;
      var a := 0;
      while a < n
        invariant 0 <= a <= n
        invariant lines == RowsLines(visit, n, a)
        invariant checks == PairChecks(n, a)
        invariant Positions() == pts
      {
        var row;
        ghost var tested;
        row, tested := ConnectRow(a, pts);
        assert RowsLines(visit, n, a + 1) == lines + row;
        lines := lines + row;
        checks := checks + tested;
        a := a + 1;
      }
    }

    /** One round of the outer loop: particle `a` against particles `a`
        to the last. The ghost `tested` counts the pairs it tests. */
    method ConnectRow(a: nat, ghost pts: seq<Point>) returns (row: seq<Line>, ghost tested: nat)
      requires a < |particles| && pts == Positions()
      ensures row == RowLines(Visits(pts), a, |particles|)
      ensures tested == |particles| - a
    {
      ghost var visit := Visits(pts);
      var n := |particles|;
      row, tested := [], 0;
      var b := a;
      while b < n
        invariant a <= b <= n
        invariant row == RowLines(visit, a, b)
        invariant tested == b - a
      {
        tested := tested + 1;
        var p, q := Point(particles[a].x, particles[a].y), Point(particles[b].x, particles[b].y);
        assert p == pts[a] && q == pts[b];
        VisitOf(pts, a, b);
        var dist2 := SquaredDistance(p, q);
        ghost var emitted := Emit(visit, a, b);
        assert emitted == if dist2 < MaxDistance * MaxDistance then [Line(a, b, dist2)] else [];
        assert RowLines(visit, a, b + 1) == row + emitted;
        if dist2 < MaxDistance * MaxDistance {
          row := row + [Line(a, b, dist2)];
        }
        b := b + 1;
      }
    }
  }
}
