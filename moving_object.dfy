/** The movement record an Agent owns by value (its `moving_obj`).

    The program's Moving_object computes on doubles in code that is not part of
    this model. Here a point is a pair of reals, the arrival test compares the
    squared remaining distance with the squared speed, and the one point the
    model cannot compute itself (one speed-length along the straight line toward
    the destination) is handed in by the caller as `advanced`. */
module MovingObject {

  /** A point of the plane. */
  datatype Point = Point(x: real, y: real)

  /** The square of the Euclidean distance between two points. */
  function SqDistance(p: Point, q: Point): (d: real)
    ensures d >= 0.0
    ensures p == q ==> d == 0.0
  {
    var dx, dy := q.x - p.x, q.y - p.y;
    assert dx * dx >= 0.0 && dy * dy >= 0.0;
    dx * dx + dy * dy
  }

  /** Current location, destination (read only while moving), the moving flag
      and the distance covered per tick. */
  datatype Motion = Motion(loc: Point, dest: Point, moving: bool, speed: real)

  /** What one call of update_location leaves behind, and whether it arrived. */
  datatype Progress = Progress(motion: Motion, arrived: bool)

  /** A movement record that stands still at `loc`. */
  function Create(loc: Point, speed: real): (m: Motion)
    ensures m.loc == loc && m.speed == speed && !m.moving
  {
    Motion(loc, loc, false, speed)
  }

  /** start_moving: record the destination and start moving; the location stays. */
  function StartMoving(m: Motion, dest: Point): (r: Motion)
    ensures r.moving && r.dest == dest
    ensures r.loc == m.loc && r.speed == m.speed
  {
    m.(dest := dest, moving := true)
  }

  /** stop_moving: clear the moving flag and keep everything else. */
  function StopMoving(m: Motion): (r: Motion)
    ensures !r.moving
    ensures r.loc == m.loc && r.dest == m.dest && r.speed == m.speed
    ensures !m.moving ==> r == m
  {
    m.(moving := false)
  }

  /** The destination lies within one tick's travel of the current location. */
  predicate InReach(m: Motion) {
    SqDistance(m.loc, m.dest) <= m.speed * m.speed
  }

  /** update_location: idle when not moving; snap exactly onto the destination
      and stop when it is within reach; otherwise take the step to `advanced`. */
  function UpdateLocation(m: Motion, advanced: Point): (t: Progress)
    ensures t.arrived <==> m.moving && InReach(m)
    ensures t.arrived ==> t.motion.loc == m.dest && !t.motion.moving
    ensures !m.moving ==> t.motion == m
    ensures m.moving && !t.arrived ==> t.motion.moving && t.motion.loc == advanced
    ensures t.motion.dest == m.dest && t.motion.speed == m.speed
  {
    if !m.moving then Progress(m, false)
    else if InReach(m) then Progress(m.(loc := m.dest, moving := false), true)
    else Progress(m.(loc := advanced), false)
  }
}
