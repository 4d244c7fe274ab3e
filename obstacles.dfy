/** Obstacles: the record, the spawner that creates one from random draws,
    and the per-frame pass that advances, collision-tests and culls them. */
module Obstacles {
  import opened Geometry
  import opened Difficulty
  import opened Lanes

  /** Gap between a new obstacle's bottom edge and the top of the canvas. */
  const SpawnMargin: real := 20.0
  /** How far past the canvas bottom an obstacle travels before removal. */
  const CullMargin: real := 200.0
  const MinSpeedMult: real := 0.8
  const MaxSpeedMult: real := 1.4

  /** An obstacle car: its lane, its box on the canvas and its own speed
      multiplier. The cosmetic colour is not part of the model. */
  datatype Obstacle = Obstacle(lane: int, x: real, y: real, width: real, height: real, speedMult: real)

  function Box(o: Obstacle): Rect {
    Rect(o.x, o.y, o.width, o.height)
  }

  /** The uniform draws in [0, 1) that one spawn consumes, standing for the
      successive calls of the random source. */
  datatype Draws = Draws(lane: real, width: real, height: real, speedMult: real)

  predicate Unit(u: real) {
    0.0 <= u < 1.0
  }

  predicate DrawsInRange(d: Draws) {
    Unit(d.lane) && Unit(d.width) && Unit(d.height) && Unit(d.speedMult)
  }

  /** A value uniformly spread over [a, b) by the draw u. */
  function RandRange(a: real, b: real, u: real): (r: real)
    requires a <= b && Unit(u)
    ensures a <= r <= b
    ensures a < b ==> r < b
  {
    SignOfProduct(b - a, u);
    SignOfProduct(b - a, 1.0 - u);
    assert (b - a) * u + (b - a) * (1.0 - u) == b - a;
    a + u * (b - a)
  }

  /** The lane picked by the draw u: the floor of u times the lane count. */
  function LaneOf(u: real): (l: int)
    requires Unit(u)
    ensures 0 <= l < LaneCount
    ensures l as real <= u * LaneCount as real < l as real + 1.0
  {
    (u * LaneCount as real).Floor
  }

  /** What every spawned obstacle satisfies: a lane in range, a size between
      0.8 and 1.4 car widths and 0.6 and 1.6 car heights, and a speed
      multiplier in [0.8, 1.4]. */
  predicate WellSpawned(o: Obstacle) {
    && 0 <= o.lane < LaneCount
    && PlayerWidth * 0.8 <= o.width <= PlayerWidth * 1.4
    && PlayerHeight * 0.6 <= o.height <= PlayerHeight * 1.6
    && MinSpeedMult <= o.speedMult <= MaxSpeedMult
  }

  /** The obstacle one spawn creates: in the drawn lane, at that lane's
      player-width position, fully above the canvas with its bottom edge 20
      units above the top. */
  function Spawned(d: Draws, laneWidth: real): (o: Obstacle)
    requires DrawsInRange(d)
    ensures WellSpawned(o)
    ensures o.lane == LaneOf(d.lane)
    ensures o.x == LaneToX(o.lane, laneWidth)
    ensures o.y + o.height == -SpawnMargin
    ensures o.y + o.height < 0.0
  {
    var lane := LaneOf(d.lane);
    var w := RandRange(PlayerWidth * 0.8, PlayerWidth * 1.4, d.width);
    var h := RandRange(PlayerHeight * 0.6, PlayerHeight * 1.6, d.height);
    Obstacle(lane, LaneToX(lane, laneWidth), -h - SpawnMargin, w, h, RandRange(MinSpeedMult, MaxSpeedMult, d.speedMult))
  }

  /** The obstacle after one frame at forward speed `speed`. */
  function Moved(o: Obstacle, speed: real, dt: real): Obstacle {
    o.(y := o.y + speed * o.speedMult * dt)
  }

  lemma PositiveProduct(a: real, b: real, c: real)
    requires a > 0.0 && b > 0.0 && c > 0.0
    ensures a * b * c > 0.0
  {
  }

  /** An advance keeps everything but y, and while the frame has positive
      length a spawned obstacle strictly moves down the canvas. */
  lemma MovedAdvances(o: Obstacle, speed: real, dt: real)
    requires WellSpawned(o) && speed >= MinSpeed
    ensures WellSpawned(Moved(o, speed, dt))
    ensures Moved(o, speed, dt).(y := o.y) == o
    ensures dt > 0.0 ==> Moved(o, speed, dt).y > o.y
  {
    if dt > 0.0 {
      PositiveProduct(speed, o.speedMult, dt);
    }
  }

  /** Every obstacle advanced by one frame, order kept. */
  function Advanced(s: seq<Obstacle>, speed: real, dt: real): seq<Obstacle> {
    if s == [] then [] else [Moved(s[0], speed, dt)] + Advanced(s[1..], speed, dt)
  }

  /** Advancing works obstacle by obstacle: the k-th result is the k-th
      obstacle moved. */
  lemma {:induction false} AdvancedAt(s: seq<Obstacle>, speed: real, dt: real)
    ensures |Advanced(s, speed, dt)| == |s|
    ensures forall k :: 0 <= k < |s| ==> Advanced(s, speed, dt)[k] == Moved(s[k], speed, dt)
  {
    if s != [] {
      AdvancedAt(s[1..], speed, dt);
    }
  }

  /** The obstacles not yet past `limit`, order kept. */
  function OnField(s: seq<Obstacle>, limit: real): seq<Obstacle> {
    if s == [] then []
    else if s[0].y > limit then OnField(s[1..], limit)
    else [s[0]] + OnField(s[1..], limit)
  }

  /** Culling only drops: what is kept was there and is within the limit. */
  lemma {:induction false} OnFieldSound(s: seq<Obstacle>, limit: real)
    ensures |OnField(s, limit)| <= |s|
    ensures forall o :: o in OnField(s, limit) ==> o in s && o.y <= limit
  {
    if s != [] {
      OnFieldSound(s[1..], limit);
    }
  }

  /** The obstacle pass of one frame: advance all, keep those within the
      limit. */
  function Pass(s: seq<Obstacle>, speed: real, dt: real, limit: real): seq<Obstacle> {
    OnField(Advanced(s, speed, dt), limit)
  }

  /** Nothing within the limit is dropped. */
  lemma {:induction false} OnFieldComplete(s: seq<Obstacle>, limit: real, o: Obstacle)
    requires o in s && o.y <= limit
    ensures o in OnField(s, limit)
  {
    if s[0] != o {
      assert o in s[1..];
      OnFieldComplete(s[1..], limit, o);
    }
  }

  /** Culling keeps relative order: it distributes over concatenation. */
  lemma {:induction false} OnFieldConcat(a: seq<Obstacle>, b: seq<Obstacle>, limit: real)
    ensures OnField(a + b, limit) == OnField(a, limit) + OnField(b, limit)
  {
    if a == [] {
      assert a + b == b;
    } else {
      assert (a + b)[0] == a[0];
      assert (a + b)[1..] == a[1..] + b;
      OnFieldConcat(a[1..], b, limit);
    }
  }

  /** Unfolding of the pass at obstacle i, the step the backward obstacle
      loop takes. */
  lemma PassUnfold(s: seq<Obstacle>, i: int, speed: real, dt: real, limit: real)
    requires 0 <= i < |s|
    ensures var m := Moved(s[i], speed, dt);
            Pass(s[i..], speed, dt, limit)
            == (if m.y > limit then [] else [m]) + Pass(s[i + 1..], speed, dt, limit)
  {
    assert s[i..][0] == s[i];
    assert s[i..][1..] == s[i + 1..];
  }

  /** The two array edits of the backward loop at index i, in sequence
      terms: overwriting the obstacle with m, then splicing it out. */
  lemma SpliceStep(s: seq<Obstacle>, i: int, m: Obstacle, rest: seq<Obstacle>)
    requires 0 <= i < |s|
    ensures (s[..i + 1] + rest)[i := m] == s[..i] + [m] + rest
    ensures (s[..i] + [m] + rest)[..i] + (s[..i] + [m] + rest)[i + 1..] == s[..i] + rest
  {
    var t := s[..i] + [m] + rest;
    assert t[..i] == s[..i];
    assert t[i + 1..] == rest;
  }

  /** The obstacles that survive a frame: each is the advance of one obstacle
      of the frame, within the limit, still well spawned, and strictly lower
      on the canvas than before when the frame has positive length. */
  lemma SurvivorsAdvance(s: seq<Obstacle>, speed: real, dt: real, limit: real)
    requires forall o :: o in s ==> WellSpawned(o)
    requires speed >= MinSpeed
    ensures |Pass(s, speed, dt, limit)| <= |s|
    ensures forall o :: o in Pass(s, speed, dt, limit) ==>
              && o.y <= limit
              && WellSpawned(o)
              && exists j :: 0 <= j < |s| && o == Moved(s[j], speed, dt) && (dt > 0.0 ==> o.y > s[j].y)
  {
    var adv := Advanced(s, speed, dt);
    AdvancedAt(s, speed, dt);
    OnFieldSound(adv, limit);
    forall o | o in OnField(adv, limit)
      ensures WellSpawned(o)
      ensures exists j :: 0 <= j < |s| && o == Moved(s[j], speed, dt) && (dt > 0.0 ==> o.y > s[j].y)
    {
      var j :| 0 <= j < |adv| && adv[j] == o;
      MovedAdvances(s[j], speed, dt);
    }
  }

  /** Exactly the obstacles whose advanced position is within the limit
      survive the pass: nothing else is kept and none of them is dropped. */
  lemma PassKeepsExactly(s: seq<Obstacle>, speed: real, dt: real, limit: real)
    ensures forall o :: o in Pass(s, speed, dt, limit) <==>
              exists j :: 0 <= j < |s| && o == Moved(s[j], speed, dt) && o.y <= limit
  {
    var adv := Advanced(s, speed, dt);
    AdvancedAt(s, speed, dt);
    OnFieldSound(adv, limit);
    forall o | o in OnField(adv, limit)
      ensures exists j :: 0 <= j < |s| && o == Moved(s[j], speed, dt) && o.y <= limit
    {
      var j :| 0 <= j < |adv| && adv[j] == o;
    }
    forall j | 0 <= j < |s| && Moved(s[j], speed, dt).y <= limit
      ensures Moved(s[j], speed, dt) in OnField(adv, limit)
    {
      OnFieldComplete(adv, limit, adv[j]);
    }
  }

  /** Relative order survives the pass: the pass of a concatenation is the
      concatenation of the passes. */
  lemma {:induction false} PassConcat(a: seq<Obstacle>, b: seq<Obstacle>, speed: real, dt: real, limit: real)
    ensures Pass(a + b, speed, dt, limit) == Pass(a, speed, dt, limit) + Pass(b, speed, dt, limit)
  {
    AdvancedConcat(a, b, speed, dt);
    OnFieldConcat(Advanced(a, speed, dt), Advanced(b, speed, dt), limit);
  }

  lemma {:induction false} AdvancedConcat(a: seq<Obstacle>, b: seq<Obstacle>, speed: real, dt: real)
    ensures Advanced(a + b, speed, dt) == Advanced(a, speed, dt) + Advanced(b, speed, dt)
  {
    if a == [] {
      assert a + b == b;
    } else {
      assert (a + b)[0] == a[0];
      assert (a + b)[1..] == a[1..] + b;
      AdvancedConcat(a[1..], b, speed, dt);
    }
  }

  /** Whether the player's box meets some obstacle of s once it has advanced. */
  predicate HitAmong(pbox: Rect, s: seq<Obstacle>, speed: real, dt: real) {
    s != [] && (RectsIntersect(pbox, Box(Moved(s[0], speed, dt))) || HitAmong(pbox, s[1..], speed, dt))
  }

  /** Unfolding of the collision test at obstacle i. */
  lemma HitUnfold(pbox: Rect, s: seq<Obstacle>, i: int, speed: real, dt: real)
    requires 0 <= i < |s|
    ensures HitAmong(pbox, s[i..], speed, dt) ==
            (RectsIntersect(pbox, Box(Moved(s[i], speed, dt))) || HitAmong(pbox, s[i + 1..], speed, dt))
  {
    assert s[i..][0] == s[i];
    assert s[i..][1..] == s[i + 1..];
  }

  /** Reference reading of HitAmong: some advanced obstacle overlaps the box. */
  lemma {:induction false} HitAmongIff(pbox: Rect, s: seq<Obstacle>, speed: real, dt: real)
    ensures HitAmong(pbox, s, speed, dt) <==>
            exists j :: 0 <= j < |s| && RectsIntersect(pbox, Box(Moved(s[j], speed, dt)))
  {
    if s != [] {
      HitAmongIff(pbox, s[1..], speed, dt);
      if HitAmong(pbox, s[1..], speed, dt) {
        var j :| 0 <= j < |s[1..]| && RectsIntersect(pbox, Box(Moved(s[1..][j], speed, dt)));
        assert RectsIntersect(pbox, Box(Moved(s[j + 1], speed, dt)));
      }
      if j :| 0 <= j < |s| && RectsIntersect(pbox, Box(Moved(s[j], speed, dt))) {
        if j > 0 {
          assert s[1..][j - 1] == s[j];
        }
      }
    }
  }
}
