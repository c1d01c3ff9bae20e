/**
 What the session rules guarantee: the carrot loop's exact behaviour, the
 explosion latch, the score and the high score, reset, and the invariants
 every event keeps.
 */
module Properties {
  import opened Geometry
  import opened Spawn
  import opened Rules

  // ---------------------------------------------------------------- movement

  /**
   One tick of movement in closed form: the velocity is integrated before
   friction is applied, gravity acts every tick, and the facing follows the
   last steering key looked at (right wins when both are held).
   */
  lemma MoveClosedForm(s: Player, keys: set<string>)
    ensures var m := Move(s, keys);
      var ax := (if RightHeld(keys) then Steering else 0.0) - (if LeftHeld(keys) then Steering else 0.0);
      var ay := (if ThrustHeld(keys) then Thrust else 0.0) + Gravity;
      m.velocityX == (s.velocityX + ax) * Friction &&
      m.velocityY == (s.velocityY + ay) * Friction &&
      m.x == s.x + s.velocityX + ax &&
      m.y == s.y + s.velocityY + ay &&
      m.direction == (if RightHeld(keys) then Right else if LeftHeld(keys) then Left else s.direction)
  {
  }

  /** The lethal-wall test fires exactly when the ship's box is not strictly inside the field. */
  lemma AtWallIffNotInside(s: Player)
    ensures AtWall(s) <==> !StrictlyInside(PlayerBox(s))
  {
  }

  // ------------------------------------------------------------ carrot loop

  /** Splicing slot `i` out and pushing `c` swaps one carrot for another and keeps the length. */
  lemma ReplaceSwapsOne(cs: seq<Box>, i: nat, c: Box)
    requires i < |cs|
    ensures |Replace(cs, i, c)| == |cs|
    ensures multiset(Replace(cs, i, c)) == multiset(cs) - multiset{cs[i]} + multiset{c}
    ensures Replace(cs, i, c)[|cs| - 1] == c
  {
    assert cs == cs[..i] + [cs[i]] + cs[i + 1..];
    calc {
      multiset(cs);
      multiset(cs[..i]) + multiset{cs[i]} + multiset(cs[i + 1..]);
    }
  }

  lemma ReplaceKeepsCarrots(cs: seq<Box>, i: nat, c: Box)
    requires i < |cs| && AllCarrots(cs) && IsCarrot(c)
    ensures AllCarrots(Replace(cs, i, c))
  {
    var r := Replace(cs, i, c);
    forall k | 0 <= k < |r|
      ensures IsCarrot(r[k])
    {
      if k < i {
        assert r[k] == cs[k];
      } else if k < |cs| - 1 {
        assert r[k] == cs[k + 1];
      } else {
        assert r[k] == c;
      }
    }
  }

  /** A pass of the carrot loop keeps every carrot carrot-sized and within the field. */
  lemma {:induction false} CollectKeepsCarrots(ship: Box, cs: seq<Box>, n: nat, i: nat, random: nat -> Draw, d: nat)
    requires i <= n && AllCarrots(cs)
    ensures AllCarrots(Collect(ship, cs, n, i, random, d).carrots)
    decreases n - i
  {
    if i == n {
    } else if i < |cs| && Overlaps(ship, cs[i]) {
      ReplaceKeepsCarrots(cs, i, NextCarrot(random, d));
      CollectKeepsCarrots(ship, Replace(cs, i, NextCarrot(random, d)), n, i + 1, random, d + 2);
    } else {
      CollectKeepsCarrots(ship, cs, n, i + 1, random, d);
    }
  }

  /**
   The pass collects something exactly when one of the carrots it started
   with, in a slot it visits, overlaps the ship: the first collection always
   happens before anything has moved.
   */
  lemma {:induction false} CollectsIffContact(ship: Box, cs: seq<Box>, n: nat, i: nat, random: nat -> Draw, d: nat)
    requires i <= n
    ensures Collect(ship, cs, n, i, random, d).collected > 0 <==>
            exists k :: i <= k < n && k < |cs| && Overlaps(ship, cs[k])
    decreases n - i
  {
    if i == n {
    } else if i < |cs| && Overlaps(ship, cs[i]) {
    } else {
      CollectsIffContact(ship, cs, n, i + 1, random, d);
      if exists k :: i <= k < n && k < |cs| && Overlaps(ship, cs[k]) {
        var k :| i <= k < n && k < |cs| && Overlaps(ship, cs[k]);
        assert k != i;
      }
    }
  }

  /** With no carrot in reach the pass changes nothing and draws nothing. */
  lemma {:induction false} CollectWithoutContact(ship: Box, cs: seq<Box>, n: nat, i: nat, random: nat -> Draw, d: nat)
    requires i <= n
    requires forall k :: i <= k < n && k < |cs| ==> !Overlaps(ship, cs[k])
    ensures Collect(ship, cs, n, i, random, d) == Harvest(cs, 0, d)
    decreases n - i
  {
    if i < n {
      CollectWithoutContact(ship, cs, n, i + 1, random, d);
    }
  }

  /** A stream of draws that are all one half. */
  function Half(k: nat): Draw { 0.5 }

  /** A stream of draws that place every spawned carrot at (100, 100). */
  function Aimed(k: nat): Draw { if k % 2 == 0 then 100.0 / 1004.0 else 100.0 / 748.0 }

  /** The pass from slot `i` never touches a slot below `i`: splices and pushes only move later slots. */
  lemma {:induction false} CollectKeepsVisited(ship: Box, cs: seq<Box>, n: nat, i: nat, random: nat -> Draw, d: nat, k: nat)
    requires i <= n && k < i && k < |cs|
    ensures Collect(ship, cs, n, i, random, d).carrots[k] == cs[k]
    decreases n - i
  {
    if i == n {
    } else if i < |cs| && Overlaps(ship, cs[i]) {
      var r := Replace(cs, i, NextCarrot(random, d));
      ReplaceSwapsOne(cs, i, NextCarrot(random, d));
      CollectKeepsVisited(ship, r, n, i + 1, random, d + 2, k);
    } else {
      CollectKeepsVisited(ship, cs, n, i + 1, random, d, k);
    }
  }

  /** Misses between slots `i` and `m` only move the pass along. */
  lemma {:induction false} CollectSkipsMisses(ship: Box, cs: seq<Box>, n: nat, i: nat, m: nat, random: nat -> Draw, d: nat)
    requires i <= m <= n
    requires forall k :: i <= k < m && k < |cs| ==> !Overlaps(ship, cs[k])
    ensures Collect(ship, cs, n, i, random, d) == Collect(ship, cs, n, m, random, d)
    decreases m - i
  {
    if i < m {
      CollectSkipsMisses(ship, cs, n, i + 1, m, random, d);
    }
  }

  /**
   The carrot after a collected one is skipped: once the collected carrot is
   spliced out, its neighbour moves into the slot just visited, and the pass
   ends with it in that slot whether or not it overlaps the ship.
   */
  lemma SplicedNeighbourIsSkipped(ship: Box, cs: seq<Box>, i: nat, random: nat -> Draw, d: nat)
    requires i + 1 < |cs| && Overlaps(ship, cs[i])
    ensures Collect(ship, cs, |cs|, i, random, d).carrots[i] == cs[i + 1]
  {
    var r := Replace(cs, i, NextCarrot(random, d));
    ReplaceSwapsOne(cs, i, NextCarrot(random, d));
    CollectKeepsVisited(ship, r, |cs|, i + 1, random, d + 2, i);
  }

  /** Both neighbours overlapping the ship, and still only the first collected. */
  lemma SplicedNeighbourExample()
    ensures var ship := Box(100.0, 100.0, 30.0, 30.0);
      var a := Box(100.0, 100.0, 20.0, 20.0);
      var b := Box(110.0, 110.0, 20.0, 20.0);
      var h := Collect(ship, [a, b], 2, 0, Half, 0);
      Overlaps(ship, a) && Overlaps(ship, b) &&
      h.collected == 1 && h.carrots == [b, NextCarrot(Half, 0)]
  {
    var ship := Box(100.0, 100.0, 30.0, 30.0);
    var a := Box(100.0, 100.0, 20.0, 20.0);
    var b := Box(110.0, 110.0, 20.0, 20.0);
    var s := NextCarrot(Half, 0);
    assert s == Box(502.0, 374.0, 20.0, 20.0);
    assert Replace([a, b], 0, s) == [b, s];
    assert Collect(ship, [b, s], 2, 1, Half, 2) == Harvest([b, s], 0, 2);
  }

  /**
   The replacement pushed for a collected carrot lands in the last slot the
   pass visits. When the collected carrot is not the last one, nothing after
   it overlaps the ship and the replacement spawns on the ship, the
   replacement is collected in the same pass: two carrots collected, the
   second replacement in the last slot.
   */
  lemma ReplacementCollectedSamePass(ship: Box, cs: seq<Box>, i: nat, random: nat -> Draw, d: nat)
    requires i + 1 < |cs| && Overlaps(ship, cs[i])
    requires forall k :: i < k < |cs| ==> !Overlaps(ship, cs[k])
    requires Overlaps(ship, NextCarrot(random, d))
    ensures var h := Collect(ship, cs, |cs|, i, random, d);
      h.collected == 2 && h.draws == d + 4 &&
      h.carrots == cs[..i] + cs[i + 1..] + [NextCarrot(random, d + 2)]
  {
    var n := |cs|;
    var c1 := NextCarrot(random, d);
    var c2 := NextCarrot(random, d + 2);
    var r1 := Replace(cs, i, c1);
    ReplaceSwapsOne(cs, i, c1);
    assert forall k :: i + 1 <= k < n - 1 ==> r1[k] == cs[k + 1];
    CollectSkipsMisses(ship, r1, n, i + 1, n - 1, random, d + 2);
    var r2 := Replace(r1, n - 1, c2);
    assert r2 == cs[..i] + cs[i + 1..] + [c2];
    assert Collect(ship, r2, n, n, random, d + 4) == Harvest(r2, 0, d + 4);
  }

  /** One overlapped carrot, two collected: the instance with the aimed stream. */
  lemma ReplacementExample()
    ensures var ship := Box(100.0, 100.0, 30.0, 30.0);
      var a := Box(100.0, 100.0, 20.0, 20.0);
      var b := Box(500.0, 500.0, 20.0, 20.0);
      var h := Collect(ship, [a, b], 2, 0, Aimed, 0);
      !Overlaps(ship, b) && h.collected == 2 && h.carrots == [b, NextCarrot(Aimed, 2)]
  {
    var ship := Box(100.0, 100.0, 30.0, 30.0);
    assert NextCarrot(Aimed, 0) == Box(100.0, 100.0, 20.0, 20.0);
    ReplacementCollectedSamePass(ship, [Box(100.0, 100.0, 20.0, 20.0), Box(500.0, 500.0, 20.0, 20.0)], 0, Aimed, 0);
  }

  // ---------------------------------------------------------- obstacle loop

  /**
   However many obstacles overlap the ship, the obstacle loop fires the
   latch at most once: its effect is one `Explode` or nothing.
   */
  lemma {:induction false} CheckObstaclesIsLatch(w: World, j: nat)
    requires j <= |w.obstacles|
    ensures CheckObstacles(w, j) ==
            if HitsObstacle(PlayerBox(w.player), w.obstacles, j) then Explode(w) else w
    decreases |w.obstacles| - j
  {
    if j < |w.obstacles| {
      var box := PlayerBox(w.player);
      if Overlaps(box, w.obstacles[j]) {
        CheckObstaclesIsLatch(Explode(w), j + 1);
        assert HitsObstacle(box, w.obstacles, j);
      } else {
        CheckObstaclesIsLatch(w, j + 1);
        assert HitsObstacle(box, w.obstacles, j) <==> HitsObstacle(box, w.obstacles, j + 1);
      }
    }
  }

  // ------------------------------------------------------------------ update

  /** `update` is inert on the splash screen and after game over. */
  lemma TickInert(w: World, random: nat -> Draw)
    requires w.state.splashScreen || w.state.gameOver
    ensures Tick(w, random) == w
  {
  }

  /** What `update` never touches. */
  lemma TickFrame(w: World, random: nat -> Draw)
    ensures var r := Tick(w, random);
      r.state.splashScreen == w.state.splashScreen && r.state.started == w.state.started && r.state.gameOver == w.state.gameOver &&
      r.state.highScore == w.state.highScore && r.persistedHigh == w.persistedHigh &&
      r.obstacles == w.obstacles && r.keys == w.keys
  {
    if !w.state.splashScreen && !w.state.gameOver {
      TickUnfold(w, random);
    }
  }

  /** `Tick` as the two stages that `CheckObstaclesIsLatch` and the walls leave: movement plus harvest, then the latch. */
  lemma TickUnfold(w: World, random: nat -> Draw)
    requires !w.state.splashScreen && !w.state.gameOver
    ensures var ship := Move(w.player, w.keys);
      var box := PlayerBox(ship);
      var h := Collect(box, w.carrots, |w.carrots|, 0, random, w.draws);
      var harvested := w.(player := ship, carrots := h.carrots, draws := h.draws,
                          state := w.state.(score := w.state.score + CarrotReward * h.collected));
      Tick(w, random) ==
        if AtWall(ship) || HitsObstacle(box, w.obstacles, 0) then Explode(harvested) else harvested
  {
    var ship := Move(w.player, w.keys);
    var moved := w.(player := ship);
    var walled := if AtWall(ship) then Explode(moved) else moved;
    var h := Collect(PlayerBox(ship), walled.carrots, |walled.carrots|, 0, random, walled.draws);
    var collected := walled.(carrots := h.carrots, draws := h.draws,
                             state := walled.state.(score := walled.state.score + CarrotReward * h.collected));
    CheckObstaclesIsLatch(collected, 0);
  }

  /**
   Carrot collection in one `update`: the list keeps its length, the score
   rises by exactly 100 per collected carrot, each collection draws one
   spawn, and the score rises exactly when the moved ship overlaps a carrot.
   */
  lemma TickCollects(w: World, random: nat -> Draw)
    requires !w.state.splashScreen && !w.state.gameOver
    ensures var r := Tick(w, random);
      var box := PlayerBox(Move(w.player, w.keys));
      r.player == Move(w.player, w.keys) &&
      |r.carrots| == |w.carrots| &&
      r.state.score >= w.state.score && (r.state.score - w.state.score) % CarrotReward == 0 &&
      r.draws == w.draws + 2 * ((r.state.score - w.state.score) / CarrotReward) &&
      (r.state.score > w.state.score <==> exists k :: 0 <= k < |w.carrots| && Overlaps(box, w.carrots[k]))
  {
    var box := PlayerBox(Move(w.player, w.keys));
    TickUnfold(w, random);
    CollectsIffContact(box, w.carrots, |w.carrots|, 0, random, w.draws);
  }

  /** The score never decreases in `update`. */
  lemma TickScoreNeverDecreases(w: World, random: nat -> Draw)
    ensures Tick(w, random).state.score >= w.state.score
  {
    if !w.state.splashScreen && !w.state.gameOver {
      TickCollects(w, random);
    }
  }

  /**
   The explosion latch. Once set, later hits leave the flag, the frame
   counter and the scheduled `gameOver` calls alone; before that, a wall
   contact or an obstacle overlap after the move sets it, zeroes the frame
   counter and schedules exactly one `gameOver`, and nothing else does.
   */
  lemma TickLatch(w: World, random: nat -> Draw)
    ensures var r := Tick(w, random);
      var ship := Move(w.player, w.keys);
      var hit := !w.state.splashScreen && !w.state.gameOver &&
                 (AtWall(ship) || HitsObstacle(PlayerBox(ship), w.obstacles, 0));
      (w.state.exploding ==>
         r.state.exploding && r.state.explosionFrame == w.state.explosionFrame && r.pendingGameOver == w.pendingGameOver) &&
      (!w.state.exploding ==> (r.state.exploding <==> hit)) &&
      (!w.state.exploding && hit ==> r.state.explosionFrame == 0 && r.pendingGameOver == w.pendingGameOver + 1) &&
      (!r.state.exploding ==> r.state.explosionFrame == w.state.explosionFrame && r.pendingGameOver == w.pendingGameOver)
  {
    if !w.state.splashScreen && !w.state.gameOver {
      TickUnfold(w, random);
    }
  }

  /**
   The latch does not freeze the session: until the scheduled `gameOver`
   fires, `update` keeps moving the ship and collecting carrots, so the score
   can still rise after the crash.
   */
  lemma ScoreRisesWhileExploding(random: nat -> Draw)
    ensures var w := World(State(false, true, false, true, 3, 0, 0), Player(100.0, 100.0, 0.0, 0.0, Right),
                           [Box(100.0, 100.0, 20.0, 20.0)], [], {}, None, 1, 0);
      var r := Tick(w, random);
      r.state.exploding && r.state.score == w.state.score + CarrotReward &&
      r.pendingGameOver == w.pendingGameOver && r.state.explosionFrame == w.state.explosionFrame
  {
    var w := World(State(false, true, false, true, 3, 0, 0), Player(100.0, 100.0, 0.0, 0.0, Right),
                   [Box(100.0, 100.0, 20.0, 20.0)], [], {}, None, 1, 0);
    var p := Move(w.player, w.keys);
    assert p == Player(100.0, 100.15, 0.0, 0.15 * Friction, Right);
    var c := NextCarrot(random, 0);
    assert Replace(w.carrots, 0, c) == [c];
    assert Collect(PlayerBox(p), [c], 1, 1, random, 2) == Harvest([c], 0, 2);
  }

  /** Walls are lethal: after a playing `update` the ship is strictly inside the field or exploding. */
  lemma TickWallIsLethal(w: World, random: nat -> Draw)
    requires !w.state.splashScreen && !w.state.gameOver
    ensures StrictlyInside(PlayerBox(Tick(w, random).player)) || Tick(w, random).state.exploding
  {
    TickUnfold(w, random);
    AtWallIffNotInside(Move(w.player, w.keys));
  }

  /**
   Obstacles, unlike walls, are lethal only on overlap: a tick whose moved
   ship clears the walls and meets every obstacle at most along an edge or a
   corner starts no explosion and schedules no `gameOver`.
   */
  lemma {:induction false} ObstacleEdgeIsHarmless(w: World, random: nat -> Draw)
    requires !w.state.splashScreen && !w.state.gameOver && !w.state.exploding
    requires !AtWall(Move(w.player, w.keys))
    requires var b := PlayerBox(Move(w.player, w.keys));
      forall k :: 0 <= k < |w.obstacles| ==>
        b.x + b.width == w.obstacles[k].x || w.obstacles[k].x + w.obstacles[k].width == b.x ||
        b.y + b.height == w.obstacles[k].y || w.obstacles[k].y + w.obstacles[k].height == b.y
    ensures !Tick(w, random).state.exploding && Tick(w, random).pendingGameOver == w.pendingGameOver
  {
    var b := PlayerBox(Move(w.player, w.keys));
    forall k | 0 <= k < |w.obstacles|
      ensures !Overlaps(b, w.obstacles[k])
    {
      TouchingIsNotOverlap(b, w.obstacles[k]);
    }
    assert !HitsObstacle(b, w.obstacles, 0);
    TickLatch(w, random);
  }

  // -------------------------------------------------------- game over, reset

  /** The timer fires `gameOver` only when one was scheduled, and uses it up. */
  lemma FireGameOverUsesTimer(w: World)
    ensures var r := FireGameOver(w);
      (w.pendingGameOver == 0 ==> r == w) &&
      (w.pendingGameOver > 0 ==>
         r.state.gameOver && r.pendingGameOver == w.pendingGameOver - 1 &&
         r.state.highScore == Larger(w.state.highScore, w.state.score) && r.state.score == w.state.score)
  {
  }

  /** The start-up loops leave 5 carrots and 3 obstacles of their sizes within the field and touch nothing else. */
  lemma SeededFills(w: World, random: nat -> Draw)
    ensures var r := Seeded(w, random);
      |r.carrots| == StartCarrots && AllCarrots(r.carrots) &&
      |r.obstacles| == StartObstacles && AllObstacles(r.obstacles) &&
      r.draws == w.draws + 2 * StartCarrots + 4 * StartObstacles &&
      r.(carrots := w.carrots, obstacles := w.obstacles, draws := w.draws) == w
  {
    CarrotsFromAreCarrots(random, w.draws, StartCarrots);
    ObstaclesFromAreObstacles(random, w.draws + 2 * StartCarrots, StartObstacles);
  }

  /** `resetGame` restores the fixed starting values and reseeds 5 carrots and 3 obstacles. */
  lemma ResetRestores(w: World, random: nat -> Draw)
    ensures var r := Reset(w, random);
      r.state.score == 0 && !r.state.exploding && !r.state.gameOver && r.state.explosionFrame == 0 &&
      r.player == Player(497.0, 384.0, 0.0, 0.0, Right) &&
      |r.carrots| == 5 && |r.obstacles| == 3 &&
      AllCarrots(r.carrots) && AllObstacles(r.obstacles) &&
      r.state.highScore == w.state.highScore && r.persistedHigh == w.persistedHigh &&
      r.state.splashScreen == w.state.splashScreen && r.state.started == w.state.started &&
      r.pendingGameOver == w.pendingGameOver && r.keys == w.keys
  {
    SeededFills(Restore(w), random);
  }

  /**
   Resetting twice gives the same world as resetting once except for where
   the new carrots and obstacles were placed and how many draws that took.
   */
  lemma ResetTwice(w: World, random: nat -> Draw)
    ensures var once := Reset(w, random);
      var twice := Reset(once, random);
      twice.(carrots := once.carrots, obstacles := once.obstacles, draws := once.draws) == once &&
      |twice.carrots| == |once.carrots| && |twice.obstacles| == |once.obstacles|
  {
  }

  // ---------------------------------------------------------------- sessions

  /**
   What holds of every world reachable from the seeded page load
   (`InitialInv`, `StepKeeps`): the lists hold
   5 carrots and 3 obstacles of their sizes within the field, the score is a
   non-negative multiple of 100, and the shown high score is the stored one
   (0 when none is stored).
   */
  predicate Inv(w: World)
  {
    |w.carrots| == StartCarrots && AllCarrots(w.carrots) &&
    |w.obstacles| == StartObstacles && AllObstacles(w.obstacles) &&
    w.state.score >= 0 && w.state.score % CarrotReward == 0 &&
    w.state.highScore == w.persistedHigh.GetOr(0)
  }

  lemma InitialInv(stored: Option<int>, random: nat -> Draw)
    ensures Inv(Initial(stored, random))
    ensures Initial(stored, random).state.splashScreen
  {
    SeededFills(Loaded(stored), random);
  }

  lemma ResetInv(w: World, random: nat -> Draw)
    requires Inv(w)
    ensures Inv(Reset(w, random))
  {
    SeededFills(Restore(w), random);
  }

  lemma TickInv(w: World, random: nat -> Draw)
    requires Inv(w)
    ensures Inv(Tick(w, random))
  {
    if !w.state.splashScreen && !w.state.gameOver {
      var box := PlayerBox(Move(w.player, w.keys));
      var h := Collect(box, w.carrots, |w.carrots|, 0, random, w.draws);
      TickHarvest(w, random);
      TickFrame(w, random);
      CollectKeepsCarrots(box, w.carrots, |w.carrots|, 0, random, w.draws);
      RewardsKeepMultiple(w.state.score, h.collected);
    }
  }

  /** The carrots and the score after a playing tick are those of the carrot pass. */
  lemma TickHarvest(w: World, random: nat -> Draw)
    requires !w.state.splashScreen && !w.state.gameOver
    ensures var h := Collect(PlayerBox(Move(w.player, w.keys)), w.carrots, |w.carrots|, 0, random, w.draws);
      var r := Tick(w, random);
      r.carrots == h.carrots && r.state.score == w.state.score + CarrotReward * h.collected
  {
    TickUnfold(w, random);
  }

  /** Adding whole rewards to a multiple of the reward gives a multiple of the reward. */
  lemma RewardsKeepMultiple(score: int, collected: nat)
    requires score % CarrotReward == 0
    ensures (score + CarrotReward * collected) % CarrotReward == 0
  {
    var q := score / CarrotReward;
    assert score + CarrotReward * collected == CarrotReward * (q + collected);
  }

  /** One event keeps the invariant, never lowers the score or the high score, and never clears the latch or game over. */
  lemma StepKeeps(w: World, e: Event, random: nat -> Draw)
    ensures var r := Step(w, e, random);
      (Inv(w) ==> Inv(r)) &&
      r.state.score >= w.state.score && r.state.highScore >= w.state.highScore &&
      (w.state.gameOver ==> r.state.gameOver) &&
      (w.state.exploding ==>
         r.state.exploding && r.pendingGameOver <= w.pendingGameOver && r.state.explosionFrame >= w.state.explosionFrame)
  {
    if e.Frame? {
      if Inv(w) {
        TickInv(w, random);
      }
      TickScoreNeverDecreases(w, random);
      TickLatch(w, random);
      TickFrame(w, random);
    }
  }

  /**
   Within a session (no reset runs), whatever events arrive: the score and
   the high score never decrease, the invariant holds throughout, and once
   the explosion has started it is never started again, since no further
   `gameOver` is scheduled and the frame counter is never zeroed.
   */
  lemma {:induction false} RunKeeps(w: World, es: seq<Event>, random: nat -> Draw)
    ensures var r := Run(w, es, random);
      (Inv(w) ==> Inv(r)) &&
      r.state.score >= w.state.score && r.state.highScore >= w.state.highScore &&
      (w.state.gameOver ==> r.state.gameOver) &&
      (w.state.exploding ==>
         r.state.exploding && r.pendingGameOver <= w.pendingGameOver && r.state.explosionFrame >= w.state.explosionFrame)
    decreases |es|
  {
    if es != [] {
      StepKeeps(w, es[0], random);
      RunKeeps(Step(w, es[0], random), es[1..], random);
    }
  }

  /**
   The timer bookkeeping of a session: at most one `gameOver` is owed, none
   before the explosion starts, and none once the session is over.
   */
  predicate OneTimer(w: World)
  {
    w.pendingGameOver <= 1 &&
    (!w.state.exploding ==> w.pendingGameOver == 0) &&
    (w.state.gameOver ==> w.pendingGameOver == 0)
  }

  /** The page loads with no timer running. */
  lemma InitialOneTimer(stored: Option<int>, random: nat -> Draw)
    ensures OneTimer(Initial(stored, random))
  {
    SeededFills(Loaded(stored), random);
  }

  /** Every event keeps the timer bookkeeping: a frame schedules only the first lethal hit, the timer ends the session. */
  lemma StepOneTimer(w: World, e: Event, random: nat -> Draw)
    requires OneTimer(w)
    ensures OneTimer(Step(w, e, random))
  {
    if e.Frame? {
      TickLatch(w, random);
      TickFrame(w, random);
    }
  }

  /**
   From any world whose timer bookkeeping holds, whatever events arrive, the
   timer never owes more than one `gameOver`: the latch admits a single
   explosion and hence a single scheduled call.
   */
  lemma {:induction false} RunOneTimer(w: World, es: seq<Event>, random: nat -> Draw)
    requires OneTimer(w)
    ensures OneTimer(Run(w, es, random))
    decreases |es|
  {
    if es != [] {
      StepOneTimer(w, es[0], random);
      RunOneTimer(Step(w, es[0], random), es[1..], random);
    }
  }

  /** From the page load, whatever events arrive, at most one `gameOver` is ever owed. */
  lemma SessionSchedulesOneGameOver(stored: Option<int>, es: seq<Event>, random: nat -> Draw)
    ensures Run(Initial(stored, random), es, random).pendingGameOver <= 1
  {
    InitialOneTimer(stored, random);
    RunOneTimer(Initial(stored, random), es, random);
  }

  /** The largest of `h` and the values in `s`. */
  function Best(h: int, s: seq<int>): (m: int)
    ensures h <= m
    ensures forall k :: 0 <= k < |s| ==> s[k] <= m
    ensures m == h || m in s
    decreases |s|
  {
    if s == [] then h
    else
      var rest := Best(Larger(h, s[0]), s[1..]);
      assert forall k :: 1 <= k < |s| ==> s[k] == s[1..][k - 1];
      rest
  }

  /** `w` with the score a session reached before it ended. */
  function WithScore(w: World, score: int): World
  {
    w.(state := w.state.(score := score))
  }

  /**
   The stored high score after sessions that ended with the scores in
   `finals`: each page load reads the stored value and each session ends
   with one `gameOver`.
   */
  function StoredAfter(stored: Option<int>, finals: seq<int>, random: nat -> Draw): Option<int>
    decreases |finals|
  {
    if finals == [] then stored
    else StoredAfter(EndSession(WithScore(Initial(stored, random), finals[0])).persistedHigh, finals[1..], random)
  }

  /** The high score is a running maximum over sessions. */
  lemma {:induction false} StoredIsBest(stored: Option<int>, finals: seq<int>, random: nat -> Draw)
    ensures StoredAfter(stored, finals, random).GetOr(0) == Best(stored.GetOr(0), finals)
    decreases |finals|
  {
    if finals != [] {
      var next := EndSession(WithScore(Initial(stored, random), finals[0])).persistedHigh;
      assert next.GetOr(0) == Larger(stored.GetOr(0), finals[0]);
      StoredIsBest(next, finals[1..], random);
    }
  }

  /** A stored 500 survives a session of 300 and gives way to one of 700. */
  lemma StoredHighScoreScenario(random: nat -> Draw)
    ensures StoredAfter(Some(500), [300], random) == Some(500)
    ensures StoredAfter(Some(500), [300, 700], random) == Some(700)
  {
    var afterFirst := EndSession(WithScore(Initial(Some(500), random), 300)).persistedHigh;
    assert afterFirst == Some(500);
    assert StoredAfter(Some(500), [300, 700], random) == StoredAfter(afterFirst, [700], random);
  }

  /**
   The Space key and a click both leave the splash screen and start the
   session; every other key is only recorded as held.
   */
  lemma StartLeavesSplash(w: World)
    requires w.state.splashScreen
    ensures var k := OnKeyDown(w, " ");
      !k.state.splashScreen && k.state.started && " " in k.keys
    ensures !OnClick(w).state.splashScreen && OnClick(w).state.started
    ensures forall key :: key != " " ==> OnKeyDown(w, key) == w.(keys := w.keys + {key})
  {
  }
}
