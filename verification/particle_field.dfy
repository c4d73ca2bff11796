/**
 * The particle field engine (ParticleField.tsx): configuration lookups, particle creation,
 * and the per-frame tick that moves particles, reflects them off the edges of the
 * percentage space [0,100] x [0,100], and lists the pairs close enough to be joined by a line.
 */
module ParticleField {
  import opened Basics
  import Theme

  /** One particle: position and speed in percent of the container, diameter in pixels, colour. */
  datatype Particle = Particle(x: real, y: real, size: real, speedX: real, speedY: real, color: string)

  /** The per-tick speed multiplier for the `speed` setting; unknown settings act as "medium". */
  function SpeedFactor(speed: string): (f: real)
    ensures 0.2 <= f <= 0.8
  {
    match speed
    case "slow" => 0.2
    case "fast" => 0.8
    case _ => 0.5
  }

  /** The diameter multiplier for the `size` setting; unknown settings act as "medium". */
  function SizeFactor(size: string): (f: real)
    ensures 0.5 <= f <= 2.0
  {
    match size
    case "small" => 0.5
    case "large" => 2.0
    case _ => 1.0
  }

  const DefaultPalette: seq<string> :=
    [Theme.PrimaryMain, Theme.SecondaryMain, Theme.AccentAurora, "rgba(58, 134, 255, 0.5)"]

  /** The four particle colours of a colour scheme; unknown schemes use the default palette. */
  function Palette(scheme: string): (colors: seq<string>)
    ensures |colors| == 4
    ensures scheme !in {"aurora", "cosmic", "energy"} ==> colors == DefaultPalette
  {
    match scheme
    case "aurora" => [Theme.AccentAurora, Theme.PrimaryLight, Theme.AccentNature, "rgba(0, 191, 255, 0.5)"]
    case "cosmic" => [Theme.AccentCosmic, Theme.SecondaryMain, Theme.PrimaryDark, "rgba(255, 61, 113, 0.5)"]
    case "energy" => [Theme.AccentEnergy, Theme.AccentCosmic, Theme.SecondaryLight, "rgba(255, 170, 0, 0.5)"]
    case _ => DefaultPalette
  }

  /** The lookup tables as the configuration documents them, with their fallbacks. */
  lemma ConfigurationTables(speed: string, size: string)
    ensures SpeedFactor("slow") == 0.2 && SpeedFactor("medium") == 0.5 && SpeedFactor("fast") == 0.8
    ensures speed != "slow" && speed != "fast" ==> SpeedFactor(speed) == SpeedFactor("medium")
    ensures SizeFactor("small") == 0.5 && SizeFactor("medium") == 1.0 && SizeFactor("large") == 2.0
    ensures size != "small" && size != "large" ==> SizeFactor(size) == SizeFactor("medium")
    ensures Palette("default") == DefaultPalette
  {
  }

  /** The six `Math.random()` values one particle consumes, in the order they are drawn. */
  datatype ParticleDraw = ParticleDraw(size: real, x: real, y: real, speedX: real, speedY: real, color: real)

  predicate ValidDraw(d: ParticleDraw) {
    InUnit(d.size) && InUnit(d.x) && InUnit(d.y) && InUnit(d.speedX) && InUnit(d.speedY) && InUnit(d.color)
  }

  /** `(Math.random() - 0.5) * factor`: a speed component. */
  function CenteredDraw(r: real, factor: real): (v: real)
    requires InUnit(r) && factor > 0.0
    ensures -0.5 * factor <= v < 0.5 * factor
  {
    assert (1.0 - r) * factor > 0.0;
    assert r * factor >= 0.0;
    (r - 0.5) * factor
  }

  /** `(Math.random() * 2 + 1) * factor`: a particle's width and height. */
  function SizeDraw(r: real, factor: real): (v: real)
    requires InUnit(r) && factor > 0.0
    ensures factor <= v < 3.0 * factor
  {
    assert (1.0 - r) * factor > 0.0;
    assert r * factor >= 0.0;
    (r * 2.0 + 1.0) * factor
  }

  /** A freshly created particle. */
  function Spawn(d: ParticleDraw, speedFactor: real, sizeFactor: real, palette: seq<string>): (p: Particle)
    requires ValidDraw(d) && speedFactor > 0.0 && sizeFactor > 0.0 && |palette| > 0
    ensures 0.0 <= p.x < 100.0 && 0.0 <= p.y < 100.0
    ensures -0.5 * speedFactor <= p.speedX < 0.5 * speedFactor
    ensures -0.5 * speedFactor <= p.speedY < 0.5 * speedFactor
    ensures sizeFactor <= p.size < 3.0 * sizeFactor
    ensures p.color in palette
  {
    Particle(d.x * 100.0, d.y * 100.0, SizeDraw(d.size, sizeFactor),
             CenteredDraw(d.speedX, speedFactor), CenteredDraw(d.speedY, speedFactor), Pick(d.color, palette))
  }

  /** True when a coordinate lies in the percentage space. */
  predicate InRange(v: real) {
    0.0 <= v <= 100.0
  }

  predicate InField(p: Particle) {
    InRange(p.x) && InRange(p.y)
  }

  function Abs(v: real): real {
    if v < 0.0 then -v else v
  }

  function Max(a: real, b: real): real {
    if a < b then b else a
  }

  function Min(a: real, b: real): real {
    if a < b then a else b
  }

  /** A coordinate after a move, and its speed component. */
  datatype Axis = Axis(pos: real, speed: real)

  /** Moves one coordinate by its speed; when it leaves the range, reverses the speed and clamps. */
  function Bounce(pos: real, speed: real): (r: Axis)
    ensures InRange(r.pos)
    ensures Abs(r.speed) == Abs(speed)
    ensures InRange(pos + speed) ==> r == Axis(pos + speed, speed)
    ensures pos + speed < 0.0 ==> r == Axis(0.0, -speed)
    ensures pos + speed > 100.0 ==> r == Axis(100.0, -speed)
  {
    var moved := pos + speed;
    if moved < 0.0 || moved > 100.0 then Axis(Max(0.0, Min(100.0, moved)), -speed)
    else Axis(moved, speed)
  }

  /** One particle's move-and-bounce step; the two axes are handled independently. */
  function Step(p: Particle): (q: Particle)
    ensures InField(q)
    ensures q.size == p.size && q.color == p.color
    ensures Abs(q.speedX) == Abs(p.speedX) && Abs(q.speedY) == Abs(p.speedY)
    ensures Axis(q.x, q.speedX) == Bounce(p.x, p.speedX) && Axis(q.y, q.speedY) == Bounce(p.y, p.speedY)
  {
    var horizontal := Bounce(p.x, p.speedX);
    var vertical := Bounce(p.y, p.speedY);
    p.(x := horizontal.pos, speedX := horizontal.speed, y := vertical.pos, speedY := vertical.speed)
  }

  /** A connection line between particles `i` and `j`, with endpoints in canvas pixels. */
  datatype Connection = Connection(i: nat, j: nat, fromX: real, fromY: real, toX: real, toY: real)

  /** Lines are drawn between particles closer than this many pixels. */
  const ConnectionRadius: real := 100.0

  function PixelX(p: Particle, width: nat): real {
    p.x / 100.0 * width as real
  }

  function PixelY(p: Particle, height: nat): real {
    p.y / 100.0 * height as real
  }

  function SquaredDistance(x1: real, y1: real, x2: real, y2: real): real {
    (x1 - x2) * (x1 - x2) + (y1 - y2) * (y1 - y2)
  }

  /**
   * The connection test, on the squared pixel distance. Two near particles are less than
   * the radius apart along each axis.
   */
  function Near(a: Particle, b: Particle, width: nat, height: nat): (near: bool)
    ensures near ==> Abs(PixelX(a, width) - PixelX(b, width)) < ConnectionRadius
    ensures near ==> Abs(PixelY(a, height) - PixelY(b, height)) < ConnectionRadius
  {
    var dx, dy := PixelX(a, width) - PixelX(b, width), PixelY(a, height) - PixelY(b, height);
    assert SquaredDistance(PixelX(a, width), PixelY(a, height), PixelX(b, width), PixelY(b, height))
      == dx * dx + dy * dy;
    assert Abs(dx) >= ConnectionRadius ==> dx * dx >= ConnectionRadius * ConnectionRadius by {
      if Abs(dx) >= ConnectionRadius { AtLeastRadiusSquared(dx); }
    }
    assert Abs(dy) >= ConnectionRadius ==> dy * dy >= ConnectionRadius * ConnectionRadius by {
      if Abs(dy) >= ConnectionRadius { AtLeastRadiusSquared(dy); }
    }
    dx * dx + dy * dy < ConnectionRadius * ConnectionRadius
  }

  /** A difference at least the radius in size squares to at least the radius squared. */
  lemma AtLeastRadiusSquared(d: real)
    requires Abs(d) >= ConnectionRadius
    ensures d * d >= ConnectionRadius * ConnectionRadius
  {
    assert d * d == Abs(d) * Abs(d);
    assert Abs(d) * Abs(d) >= ConnectionRadius * Abs(d);
  }

  function Link(i: nat, j: nat, a: Particle, b: Particle, width: nat, height: nat): Connection {
    Connection(i, j, PixelX(a, width), PixelY(a, height), PixelX(b, width), PixelY(b, height))
  }

  /**
   * The lines drawn for particle `i` against particles `i+1 .. k-1`, given the particles as
   * they were before the tick: particle `i` has already been stepped, the later ones not yet.
   */
  function RowLinks(ps: seq<Particle>, i: nat, k: nat, width: nat, height: nat): (row: seq<Connection>)
    requires i < |ps| && k <= |ps|
    ensures forall c :: c in row ==> c.i == i && i < c.j < k
    decreases k
  {
    if k <= i + 1 then []
    else
      var mover := Step(ps[i]);
      RowLinks(ps, i, k - 1, width, height)
        + (if Near(mover, ps[k - 1], width, height) then [Link(i, k - 1, mover, ps[k - 1], width, height)] else [])
  }

  /** The lines drawn for rows `0 .. m-1` of a tick. */
  function LinksBefore(ps: seq<Particle>, m: nat, width: nat, height: nat): (cs: seq<Connection>)
    requires m <= |ps|
    ensures forall c :: c in cs ==> c.i < m
  {
    if m == 0 then [] else LinksBefore(ps, m - 1, width, height) + RowLinks(ps, m - 1, |ps|, width, height)
  }

  /** All lines of one tick, in drawing order. */
  function TickLinks(ps: seq<Particle>, width: nat, height: nat): (cs: seq<Connection>)
    ensures forall c :: c in cs ==> c.i < c.j < |ps|
  {
    LinksBeforeExact(ps, |ps|, width, height);
    LinksBefore(ps, |ps|, width, height)
  }

  /** The pair a line joins, with particle `i` already moved and `j` not yet moved. */
  ghost predicate IsTickLink(ps: seq<Particle>, c: Connection, width: nat, height: nat) {
    c.i < c.j < |ps|
    && Near(Step(ps[c.i]), ps[c.j], width, height)
    && c == Link(c.i, c.j, Step(ps[c.i]), ps[c.j], width, height)
  }

  /** Drawing order: by first index, then by second index. */
  predicate Before(c: Connection, d: Connection) {
    c.i < d.i || (c.i == d.i && c.j < d.j)
  }

  predicate StrictlyOrdered(cs: seq<Connection>) {
    forall a, b :: 0 <= a < b < |cs| ==> Before(cs[a], cs[b])
  }

  lemma {:induction false} RowLinksExact(ps: seq<Particle>, i: nat, k: nat, width: nat, height: nat)
    requires i < |ps| && k <= |ps|
    ensures forall c :: c in RowLinks(ps, i, k, width, height) <==> c.i == i && c.j < k && IsTickLink(ps, c, width, height)
    ensures StrictlyOrdered(RowLinks(ps, i, k, width, height))
    decreases k
  {
    if k > i + 1 {
      RowLinksExact(ps, i, k - 1, width, height);
    }
    RowLinksOrdered(ps, i, k, width, height);
  }

  lemma {:induction false} RowLinksOrdered(ps: seq<Particle>, i: nat, k: nat, width: nat, height: nat)
    requires i < |ps| && k <= |ps|
    ensures StrictlyOrdered(RowLinks(ps, i, k, width, height))
    decreases k
  {
    if k > i + 1 {
      RowLinksOrdered(ps, i, k - 1, width, height);
    }
  }

  lemma LinksBeforeExact(ps: seq<Particle>, m: nat, width: nat, height: nat)
    requires m <= |ps|
    ensures forall c :: c in LinksBefore(ps, m, width, height) <==> c.i < m && IsTickLink(ps, c, width, height)
    ensures StrictlyOrdered(LinksBefore(ps, m, width, height))
    ensures forall c :: c in LinksBefore(ps, m, width, height) ==> c.i < m
  {
    LinksBeforeMembers(ps, m, width, height);
    LinksBeforeOrdered(ps, m, width, height);
  }

  lemma {:induction false} LinksBeforeMembers(ps: seq<Particle>, m: nat, width: nat, height: nat)
    requires m <= |ps|
    ensures forall c :: c in LinksBefore(ps, m, width, height) <==> c.i < m && IsTickLink(ps, c, width, height)
  {
    if m > 0 {
      LinksBeforeMembers(ps, m - 1, width, height);
      RowLinksExact(ps, m - 1, |ps|, width, height);
    }
  }

  lemma {:induction false} LinksBeforeOrdered(ps: seq<Particle>, m: nat, width: nat, height: nat)
    requires m <= |ps|
    ensures StrictlyOrdered(LinksBefore(ps, m, width, height))
  {
    if m > 0 {
      var prev, row := LinksBefore(ps, m - 1, width, height), RowLinks(ps, m - 1, |ps|, width, height);
      LinksBeforeOrdered(ps, m - 1, width, height);
      RowLinksOrdered(ps, m - 1, |ps|, width, height);
      ConcatOrdered(prev, row, m - 1);
      assert LinksBefore(ps, m, width, height) == prev + row;
    }
  }

  /** Rows drawn one after another stay in drawing order. */
  lemma ConcatOrdered(prev: seq<Connection>, row: seq<Connection>, r: nat)
    requires StrictlyOrdered(prev) && StrictlyOrdered(row)
    requires forall c :: c in prev ==> c.i < r
    requires forall c :: c in row ==> c.i == r
    ensures StrictlyOrdered(prev + row)
  {
    forall a, b | 0 <= a < b < |prev + row| ensures Before((prev + row)[a], (prev + row)[b]) {
      if b < |prev| {
      } else if a >= |prev| {
        assert (prev + row)[a] == row[a - |prev|] && (prev + row)[b] == row[b - |prev|];
      } else {
        assert (prev + row)[a] == prev[a] && prev[a] in prev;
        assert (prev + row)[b] == row[b - |prev|] && row[b - |prev|] in row;
      }
    }
  }

  /** The row of particle `i` reads only the particles from `i` on. */
  lemma {:induction false} RowLinksFromI(ps: seq<Particle>, qs: seq<Particle>, i: nat, k: nat, width: nat, height: nat)
    requires i < |ps| && k <= |ps| && |ps| == |qs|
    requires forall n :: i <= n < |ps| ==> ps[n] == qs[n]
    ensures RowLinks(ps, i, k, width, height) == RowLinks(qs, i, k, width, height)
    decreases k
  {
    if k > i + 1 {
      RowLinksFromI(ps, qs, i, k - 1, width, height);
    }
  }

  /** The inner loop of a frame: particle `i`, moved, against each later particle in turn. */
  method ScanRow(ps: seq<Particle>, i: nat, width: nat, height: nat) returns (row: seq<Connection>)
    requires i < |ps|
    ensures row == RowLinks(ps, i, |ps|, width, height)
  {
    var particle := Step(ps[i]);
    row := [];
    var j := i + 1;
    while j < |ps|
      invariant i + 1 <= j <= |ps|
      invariant row == RowLinks(ps, i, j, width, height)
    {
      var other := ps[j];
      if Near(particle, other, width, height) {
        row := row + [Link(i, j, particle, other, width, height)];
      }
      j := j + 1;
    }
  }

  /**
   * The lines of a tick join exactly the pairs i < j whose positions (i after its move, j
   * before its own) are within the connection radius: no particle is paired with itself,
   * and each pair appears once, in drawing order.
   */
  lemma TickLinksExact(ps: seq<Particle>, width: nat, height: nat)
    ensures forall c :: c in TickLinks(ps, width, height) <==> IsTickLink(ps, c, width, height)
    ensures StrictlyOrdered(TickLinks(ps, width, height))
    ensures forall a, b :: 0 <= a < b < |TickLinks(ps, width, height)| ==>
              (TickLinks(ps, width, height)[a].i, TickLinks(ps, width, height)[a].j)
                != (TickLinks(ps, width, height)[b].i, TickLinks(ps, width, height)[b].j)
  {
    LinksBeforeExact(ps, |ps|, width, height);
  }

  /** For a distance d >= 0, the squared test is the distance test d < 100. */
  lemma NearIffWithinRadius(d: real, squared: real)
    requires d >= 0.0 && d * d == squared
    ensures squared < ConnectionRadius * ConnectionRadius <==> d < ConnectionRadius
  {
    if d >= 100.0 {
      assert d * d >= 100.0 * d;
    } else {
      assert d * d <= 100.0 * d;
    }
  }

  /** The stroke alpha of a line whose particles are `d` pixels apart. */
  function LineAlpha(d: real): (alpha: real)
    requires 0.0 <= d < ConnectionRadius
    ensures 0.0 < alpha <= 0.2
    ensures d == 0.0 ==> alpha == 0.2
  {
    0.2 * (1.0 - d / ConnectionRadius)
  }

  /**
   * Every line a tick draws joins particles less than 100 pixels apart, so its stroke alpha is
   * positive and at most 0.2.
   */
  lemma DrawnLineAlpha(ps: seq<Particle>, width: nat, height: nat, c: Connection, d: real)
    requires c in TickLinks(ps, width, height)
    requires d >= 0.0 && d * d == SquaredDistance(c.fromX, c.fromY, c.toX, c.toY)
    ensures d < ConnectionRadius && 0.0 < LineAlpha(d) <= 0.2
  {
    TickLinksExact(ps, width, height);
    NearIffWithinRadius(d, SquaredDistance(c.fromX, c.fromY, c.toX, c.toY));
  }

  /** Closer pairs are drawn more opaque. */
  lemma LineAlphaDecreasing(d1: real, d2: real)
    requires 0.0 <= d1 <= d2 < ConnectionRadius
    ensures LineAlpha(d2) <= LineAlpha(d1)
    ensures d1 < d2 ==> LineAlpha(d2) < LineAlpha(d1)
  {
  }

  /** Particles within this many pixels of the pointer are attracted and shown excited. */
  const AttractionRadius: real := 150.0

  /**
   * The attraction test on the pointer distance `sqrt(dx*dx + dy*dy)`; it agrees with the test
   * on the squared distance, so no square root is needed to decide it.
   */
  predicate Excited(distance: real)
    requires distance >= 0.0
    ensures Excited(distance) <==> distance * distance < AttractionRadius * AttractionRadius
  {
    assert distance < AttractionRadius <==> distance * distance < AttractionRadius * AttractionRadius by {
      if distance >= AttractionRadius {
        assert distance * distance >= AttractionRadius * distance;
      } else {
        assert distance * distance <= AttractionRadius * distance;
      }
    }
    distance < AttractionRadius
  }

  /** The attraction coefficient at a pointer distance; zero outside the attraction radius. */
  function AttractFactor(distance: real): (f: real)
    requires distance >= 0.0
    ensures 0.0 <= f <= 0.03
    ensures f > 0.0 <==> Excited(distance)
  {
    if Excited(distance) then 0.03 * (1.0 - distance / AttractionRadius) else 0.0
  }

  /** Attraction weakens with distance. */
  lemma AttractFactorDecreasing(d1: real, d2: real)
    requires 0.0 <= d1 <= d2
    ensures AttractFactor(d2) <= AttractFactor(d1)
  {
  }

  /** The particle set of one field, updated in place by each tick. */
  class Field {
    var particles: seq<Particle>

    /** Every particle lies in the percentage space. */
    ghost predicate Valid()
      reads this
    {
      forall k :: 0 <= k < |particles| ==> InField(particles[k])
    }

    constructor ()
      ensures particles == [] && Valid()
    {
      particles := [];
    }

    /**
     * Without a container nothing happens; otherwise every particle is discarded and `count`
     * new ones are created from the configuration, `draws[k]` supplying the random values of
     * particle k.
     */
    method Initialize(containerReady: bool, count: nat, speed: string, size: string, scheme: string,
                      draws: seq<ParticleDraw>)
      requires |draws| == count && forall k :: 0 <= k < count ==> ValidDraw(draws[k])
      modifies this
      ensures !containerReady ==> particles == old(particles)
      ensures containerReady ==> Valid() && |particles| == count
      ensures containerReady ==> forall k :: 0 <= k < count ==>
                particles[k] == Spawn(draws[k], SpeedFactor(speed), SizeFactor(size), Palette(scheme))
    {
      if !containerReady {
        return;
      }
      var colors := Palette(scheme);
      var speedFactor := SpeedFactor(speed);
      var sizeFactor := SizeFactor(size);
      particles := [];
      var i := 0;
      while i < count
        invariant 0 <= i <= count
        invariant |particles| == i
        invariant forall k :: 0 <= k < i ==> particles[k] == Spawn(draws[k], speedFactor, sizeFactor, colors)
      {
        particles := particles + [Spawn(draws[i], speedFactor, sizeFactor, colors)];
        i := i + 1;
      }
    }

    /**
     * One animation frame without pointer attraction. When the drawing surface is missing
     * the frame does nothing; otherwise each particle is stepped in order and, right after
     * its own step, compared with every later particle.
     */
    method Tick(surfaceReady: bool, width: nat, height: nat) returns (lines: seq<Connection>)
      modifies this
      ensures !surfaceReady ==> particles == old(particles) && lines == []
      ensures surfaceReady ==> Valid()
      ensures surfaceReady ==> |particles| == |old(particles)|
      ensures surfaceReady ==> forall k :: 0 <= k < |particles| ==> particles[k] == Step(old(particles)[k])
      ensures surfaceReady ==> lines == TickLinks(old(particles), width, height)
    {
      lines := [];
      if !surfaceReady {
        return;
      }
      ghost var before := particles;
      var i := 0;
      while i < |particles|
        invariant |particles| == |before|
        invariant 0 <= i <= |particles|
        invariant forall k :: 0 <= k < i ==> particles[k] == Step(before[k])
        invariant forall k :: i <= k < |particles| ==> particles[k] == before[k]
        invariant lines == LinksBefore(before, i, width, height)
      {
        var row := ScanRow(particles, i, width, height);
        RowLinksFromI(particles, before, i, |particles|, width, height);
        particles := particles[i := Step(particles[i])];
        lines := lines + row;
        i := i + 1;
      }
    }
  }
}
