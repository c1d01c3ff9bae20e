/**
 The two spawners. `Math.random` is not called here: each spawner takes the
 draws it would have made as parameters, in the order the source makes them,
 and a stream of draws (`nat -> Draw`, read from a cursor) stands for the
 sequence of calls a run makes.
 */
module Spawn {
  import opened Geometry

  /** One value of `Math.random()`: a real in [0, 1). */
  type Draw = r: real | 0.0 <= r < 1.0

  /** Carrots are always 20 x 20 (src/main.js:88-89). */
  const CarrotSize: real := 20.0

  /** Obstacle sides are 30 plus up to 50 (src/main.js:95-96). */
  const ObstacleMin: real := 30.0
  const ObstacleSpread: real := 50.0

  /** The offset a draw picks within a room of positive size: `Math.random() * room`. */
  function Scale(r: Draw, room: real): (p: real)
    requires room > 0.0
    ensures 0.0 <= p < room
  {
    assert room - r * room == room * (1.0 - r);
    r * room
  }

  /** A carrot placed by the draws `rx` and `ry`: its full box fits inside the field. */
  function CarrotAt(rx: Draw, ry: Draw): (c: Box)
    ensures c.width == CarrotSize && c.height == CarrotSize
    ensures 0.0 <= c.x < FieldWidth - CarrotSize && 0.0 <= c.y < FieldHeight - CarrotSize
    ensures InField(c)
  {
    Box(Scale(rx, FieldWidth - CarrotSize), Scale(ry, FieldHeight - CarrotSize), CarrotSize, CarrotSize)
  }

  /**
   An obstacle from four draws, taken in the source's order: width, height,
   then x and y over the room that size leaves.
   */
  function ObstacleAt(rw: Draw, rh: Draw, rx: Draw, ry: Draw): (o: Box)
    ensures ObstacleMin <= o.width < ObstacleMin + ObstacleSpread
    ensures ObstacleMin <= o.height < ObstacleMin + ObstacleSpread
    ensures 0.0 <= o.x && o.x + o.width < FieldWidth
    ensures 0.0 <= o.y && o.y + o.height < FieldHeight
    ensures InField(o)
  {
    var width := ObstacleMin + Scale(rw, ObstacleSpread);
    var height := ObstacleMin + Scale(rh, ObstacleSpread);
    Box(Scale(rx, FieldWidth - width), Scale(ry, FieldHeight - height), width, height)
  }

  /** The carrot the spawner places when the stream's cursor is at `d` (it uses draws d and d+1). */
  function NextCarrot(random: nat -> Draw, d: nat): Box
  {
    CarrotAt(random(d), random(d + 1))
  }

  /** The obstacle the spawner places when the stream's cursor is at `d` (draws d to d+3). */
  function NextObstacle(random: nat -> Draw, d: nat): Box
  {
    ObstacleAt(random(d), random(d + 1), random(d + 2), random(d + 3))
  }

  /** The box has carrot size and lies within the field, as every spawned carrot does. */
  predicate IsCarrot(c: Box)
  {
    c.width == CarrotSize && c.height == CarrotSize && InField(c)
  }

  /** The box has obstacle size and lies within the field, as every spawned obstacle does. */
  predicate IsObstacle(o: Box)
  {
    ObstacleMin <= o.width < ObstacleMin + ObstacleSpread &&
    ObstacleMin <= o.height < ObstacleMin + ObstacleSpread &&
    InField(o)
  }

  predicate AllCarrots(cs: seq<Box>)
  {
    forall k :: 0 <= k < |cs| ==> IsCarrot(cs[k])
  }

  predicate AllObstacles(os: seq<Box>)
  {
    forall k :: 0 <= k < |os| ==> IsObstacle(os[k])
  }

  /** The carrots that `n` calls of the carrot spawner push, starting at cursor `d`. */
  function CarrotsFrom(random: nat -> Draw, d: nat, n: nat): (cs: seq<Box>)
    ensures |cs| == n
  {
    if n == 0 then []
    else CarrotsFrom(random, d, n - 1) + [NextCarrot(random, d + 2 * (n - 1))]
  }

  /** The obstacles that `n` calls of the obstacle spawner push, starting at cursor `d`. */
  function ObstaclesFrom(random: nat -> Draw, d: nat, n: nat): (os: seq<Box>)
    ensures |os| == n
  {
    if n == 0 then []
    else ObstaclesFrom(random, d, n - 1) + [NextObstacle(random, d + 4 * (n - 1))]
  }

  /** Everything the carrot spawner pushes is a carrot that fits the field. */
  lemma {:induction false} CarrotsFromAreCarrots(random: nat -> Draw, d: nat, n: nat)
    ensures AllCarrots(CarrotsFrom(random, d, n))
  {
    if n > 0 {
      CarrotsFromAreCarrots(random, d, n - 1);
    }
  }

  /** Everything the obstacle spawner pushes is an obstacle that fits the field. */
  lemma {:induction false} ObstaclesFromAreObstacles(random: nat -> Draw, d: nat, n: nat)
    ensures AllObstacles(ObstaclesFrom(random, d, n))
  {
    if n > 0 {
      ObstaclesFromAreObstacles(random, d, n - 1);
    }
  }
}
