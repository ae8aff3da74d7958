/** The spawn arithmetic of GameScene.swift: `random(min:max:)` and the start
    point, target point and travel time that `addTie` and `addAsteroid` compute.
    CGFloat values are modelled as exact reals; the random draws are parameters. */
module SpawnGeometry {

  datatype Point = Point(x: real, y: real)

  datatype Size = Size(width: real, height: real)

  /** The sizes the spawn arithmetic reads: the scene's and the two sprites'. */
  datatype Geometry = Geometry(scene: Size, tie: Size, asteroid: Size)

  /** Where a spawned sprite appears, where its move action takes it, and how
      long the move lasts. */
  datatype Flight = Flight(start: Point, target: Point, duration: real)

  /** A draw of `CGFloat.random(in: 0.0...1.0)`. */
  predicate IsDraw(r: real) {
    0.0 <= r <= 1.0
  }

  /** A draw of `[1, -1].randomElement()`. */
  predicate IsSign(sign: int) {
    sign == 1 || sign == -1
  }

  /** `random(min:max:)` for the draw `r`: a value between the two bounds,
      hitting `min` at draw 0 and `max` at draw 1 (when `min > max` the source
      does not reorder them, and the value lies between them the other way). */
  function Random(min: real, max: real, r: real): (v: real)
    requires IsDraw(r)
    ensures min <= max ==> min <= v <= max
    ensures max <= min ==> max <= v <= min
    ensures r == 0.0 ==> v == min
    ensures r == 1.0 ==> v == max
  {
    ScaleWithin(r, if min <= max then max - min else min - max);
    assert r * (max - min) == -(r * (min - max));
    r * (max - min) + min
  }

  /** Scaling by a draw keeps a non-negative length within [0, length]. */
  lemma ScaleWithin(r: real, d: real)
    requires IsDraw(r) && 0.0 <= d
    ensures 0.0 <= r * d <= d
    ensures r * -d == -(r * d)
  {
    assert 0.0 <= r * d;
    assert d - r * d == (1.0 - r) * d;
    assert 0.0 <= (1.0 - r) * d;
  }

  /** The travel time drawn by both spawners: `random(min: 2.0, max: 4.0)`. */
  function TravelTime(r: real): (t: real)
    requires IsDraw(r)
    ensures 2.0 <= t <= 4.0
  {
    Random(2.0, 4.0, r)
  }

  /** `addTie`: the tie appears above the top edge at a drawn x that keeps the
      whole sprite within the scene's width, and falls straight down, keeping
      its x, to y = -H/2: the bottom edge, the scene's origin being its centre. */
  function TieFlight(g: Geometry, rx: real, rt: real): (f: Flight)
    requires IsDraw(rx) && IsDraw(rt)
    ensures f.target.x == f.start.x
    ensures g.tie.width <= g.scene.width ==>
      g.tie.width / 2.0 - g.scene.width / 2.0 <= f.start.x <= g.scene.width / 2.0 - g.tie.width / 2.0
    ensures f.start.y == g.scene.height + g.tie.height / 2.0
    ensures f.target.y == -g.scene.height / 2.0
    ensures 0.0 < g.scene.height && 0.0 <= g.tie.height ==> f.target.y < f.start.y
    ensures 2.0 <= f.duration <= 4.0
  {
    var x := Random(g.tie.width / 2.0 - g.scene.width / 2.0, g.scene.width / 2.0 - g.tie.width / 2.0, rx);
    Flight(Point(x, g.scene.height + g.tie.height / 2.0), Point(x, -g.scene.height / 2.0), TravelTime(rt))
  }

  /** `addAsteroid`: the asteroid appears beyond the side chosen by `sign` at a
      drawn y that keeps the whole sprite within the scene's height, and moves
      horizontally, at that y, to the opposite side. */
  function AsteroidFlight(g: Geometry, sign: int, ry: real, rt: real): (f: Flight)
    requires IsSign(sign) && IsDraw(ry) && IsDraw(rt)
    ensures f.target.y == f.start.y
    ensures g.asteroid.height <= g.scene.height ==>
      g.asteroid.height / 2.0 - g.scene.height / 2.0 <= f.start.y <= g.scene.height / 2.0 - g.asteroid.height / 2.0
    ensures f.start.x == (sign as real) * (g.scene.width + g.asteroid.width / 2.0)
    ensures f.target.x == -(sign as real) * g.scene.width / 2.0
    ensures 0.0 < g.scene.width && 0.0 <= g.asteroid.width ==>
      (sign == 1 ==> f.start.x > 0.0 && f.target.x < 0.0) &&
      (sign == -1 ==> f.start.x < 0.0 && f.target.x > 0.0)
    ensures 2.0 <= f.duration <= 4.0
  {
    var y := Random(g.asteroid.height / 2.0 - g.scene.height / 2.0, g.scene.height / 2.0 - g.asteroid.height / 2.0, ry);
    var s := sign as real;
    Flight(Point((g.scene.width + g.asteroid.width / 2.0) * s, y), Point((-g.scene.width / 2.0) * s, y), TravelTime(rt))
  }

  /** The two sides an asteroid can come from are mirror images: with the same
      draws, the flight for sign -1 is the flight for sign 1 reflected in the
      vertical axis. */
  lemma AsteroidSidesMirror(g: Geometry, ry: real, rt: real)
    requires IsDraw(ry) && IsDraw(rt)
    ensures AsteroidFlight(g, -1, ry, rt).start == Point(-AsteroidFlight(g, 1, ry, rt).start.x, AsteroidFlight(g, 1, ry, rt).start.y)
    ensures AsteroidFlight(g, -1, ry, rt).target == Point(-AsteroidFlight(g, 1, ry, rt).target.x, AsteroidFlight(g, 1, ry, rt).target.y)
    ensures AsteroidFlight(g, -1, ry, rt).duration == AsteroidFlight(g, 1, ry, rt).duration
  {
  }
}
