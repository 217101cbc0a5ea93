/** The InteractiveLinesBackground object: its canvas size, point set, mouse
    position, configuration and counters, and the operations that update them.
    The canvas element, its 2D context, the DOM controls and the event listeners
    are not modelled. The width and height are those of the canvas. Math.random
    is the draw stream `rand`, Math.sqrt the function `sqrt` and performance.now()
    the time `now`. */
module Background {
  import opened Randomness
  import opened Kinematics
  import opened Connections
  import opened FrameStats
  import opened Presets

  class InteractiveLinesBackground {
    var width: nat
    var height: nat
    var points: seq<Point>
    var mouse: Vec
    var connectionCount: nat
    var fps: int
    var frameCount: int
    var lastTime: real
    var config: Config

    /** The frame-rate counter's part of the state. */
    function Counter(): Stats
      reads this
    {
      Stats(frameCount, fps, lastTime)
    }

    /** The counters never go negative. */
    predicate Valid()
      reads this
    {
      0 <= frameCount && 0 <= fps
    }

    /** The constructor's state on a window of innerWidth x innerHeight: the cursor at
        the centre, zero counters, the default configuration and 80 seeded points. */
    constructor(innerWidth: nat, innerHeight: nat, now: real, rand: nat -> real)
      ensures Valid()
      ensures width == innerWidth && height == innerHeight
      ensures mouse == Vec(innerWidth as real / 2.0, innerHeight as real / 2.0)
      ensures connectionCount == 0 && Counter() == Stats(0, 0, now)
      ensures config == DefaultConfig
      ensures points == Seeded(rand, 80, innerWidth as real, innerHeight as real, 0.5)
    {
      points := [];
      mouse := Vec(innerWidth as real / 2.0, innerHeight as real / 2.0);
      connectionCount := 0;
      fps := 0;
      frameCount := 0;
      lastTime := now;
      config := DefaultConfig;
      width := innerWidth;
      height := innerHeight;
      new;
      CreatePoints(rand);
    }

    /** createPoints: a fresh point set of config.pointCount points, point i read
        from draws 4i .. 4i+3. */
    method CreatePoints(rand: nat -> real)
      modifies this`points
      ensures points == Seeded(rand, config.pointCount, width as real, height as real, config.animationSpeed)
      ensures |points| == if config.pointCount > 0 then config.pointCount else 0
    {
      var w, h, speed := width as real, height as real, config.animationSpeed;
      points := [];
      var i := 0;
      while i < config.pointCount
        invariant 0 <= i && (i <= config.pointCount || i == 0)
        invariant points == Seeded(rand, i, w, h, speed)
      {
        SeededPush(rand, i, w, h, speed);
        points := points + [SeedPoint(rand, i, w, h, speed)];
        i := i + 1;
      }
    }

    /** updatePoints: every point takes one Step, in place; with an exact square
        root every point ends within 2 pixels of the canvas. */
    method UpdatePoints(sqrt: real -> NonNeg)
      modifies this`points
      ensures points == Stepped(old(points), width as real, height as real, mouse, config.mouseInfluence, sqrt)
      ensures IsSqrt(sqrt) ==> forall k | 0 <= k < |points| :: NearCanvas(points[k], width as real, height as real)
    {
      var w, h := width as real, height as real;
      var i := 0;
      while i < |points|
        invariant 0 <= i <= |points| == |old(points)|
        invariant forall k | 0 <= k < i :: points[k] == Step(old(points)[k], w, h, mouse, config.mouseInfluence, sqrt)
        invariant forall k | i <= k < |points| :: points[k] == old(points)[k]
      {
        points := points[i := Step(points[i], w, h, mouse, config.mouseInfluence, sqrt)];
        i := i + 1;
      }
      if IsSqrt(sqrt) {
        SteppedNearCanvas(old(points), w, h, mouse, config.mouseInfluence, sqrt);
      }
    }

    /** drawLines without the drawing: resets connectionCount, then visits every
        pair i < j and, when the two points are closer than maxDistance, counts
        the pair and draws its line. The lines are returned in drawing order. */
    method DrawLines(sqrt: real -> NonNeg) returns (lines: seq<Line>)
      modifies this`connectionCount
      ensures lines == DrawnLines(points, config.maxDistance, config.lineOpacity, sqrt)
      ensures connectionCount == |lines| == |ClosePairs(points, config.maxDistance, sqrt)|
      ensures 2 * connectionCount <= |points| * (|points| - 1)
      ensures |points| < 2 ==> connectionCount == 0
    {
      var ps, maxDistance, lineOpacity := points, config.maxDistance, config.lineOpacity;
      connectionCount := 0;
      lines := [];
      LinesBeforeStart(ps, maxDistance, lineOpacity, sqrt);
      var i := 0;
      while i < |ps|
        invariant 0 <= i <= |ps|
        invariant lines == LinesBefore(ps, i, maxDistance, lineOpacity, sqrt)
        invariant connectionCount == |lines|
      {
        var j := i + 1;
        while j < |ps|
          invariant i + 1 <= j <= |ps|
          invariant lines == LinesBefore(ps, i, maxDistance, lineOpacity, sqrt)
                             + RowLines(ps, i, j, maxDistance, lineOpacity, sqrt)
          invariant connectionCount == |lines|
        {
          var point1, point2 := ps[i], ps[j];
          var dx, dy := point1.x - point2.x, point1.y - point2.y;
          var distance := sqrt(dx * dx + dy * dy);
          LoopDistance(ps, i, j, dx, dy, sqrt);
          DrawPair(ps, i, j, lines, distance, maxDistance, lineOpacity, sqrt);
          if distance < maxDistance as real {
            connectionCount := connectionCount + 1;
            var opacity := Opacity(distance, maxDistance, lineOpacity);
            lines := lines + [Line(i, j, opacity)];
          }
          j := j + 1;
        }
        LinesBeforeStep(ps, i, maxDistance, lineOpacity, sqrt);
        i := i + 1;
      }
      DrawnCount(ps, maxDistance, lineOpacity, sqrt);
    }

    /** updateStats: counts the frame and, once 1000 ms have passed since the
        window opened, shows the rounded frame rate and opens a new window. */
    method UpdateStats(now: real)
      requires Valid()
      modifies this`fps, this`frameCount, this`lastTime
      ensures Valid()
      ensures Counter() == Tick(old(Counter()), now)
    {
      TickSpec(Counter(), now);
      frameCount := frameCount + 1;
      var currentTime := now;
      if currentTime - lastTime >= 1000.0 {
        fps := Round((frameCount as real * 1000.0) / (currentTime - lastTime));
        frameCount := 0;
        lastTime := currentTime;
      }
    }

    /** resetToDefaults: the default configuration and a fresh point set for it. */
    method ResetToDefaults(rand: nat -> real)
      modifies this`config, this`points
      ensures config == DefaultConfig
      ensures points == Seeded(rand, 80, width as real, height as real, 0.5)
    {
      config := DefaultConfig;
      CreatePoints(rand);
    }

    /** randomPreset: six draws choose the palette and the random settings, then
        createPoints seeds the new point set from the draws that follow. */
    method RandomPreset(rand: nat -> real)
      requires UnitDraws(rand, 6)
      modifies this`config, this`points
      ensures config == RandomConfig(old(config), rand)
      ensures points == Seeded(Skip(rand, 6), config.pointCount, width as real, height as real, config.animationSpeed)
    {
      var colors := RandomPalettes[Pick(rand(0), |RandomPalettes|)];
      config := config.(pointCount := Pick(rand(1), 120) + 40);
      config := config.(maxDistance := Pick(rand(2), 200) + 100);
      config := config.(mouseInfluence := Pick(rand(3), 150) + 80);
      config := config.(animationSpeed := rand(4) * 2.0 + 0.3);
      config := config.(lineWidth := rand(5) * 3.0 + 0.5);
      config := config.(colors := colors);
      CreatePoints(Skip(rand, 6));
    }

    /** One animate() frame: updatePoints, then render, of which drawLines and
        updateStats change the state. */
    method Frame(now: real, sqrt: real -> NonNeg) returns (lines: seq<Line>)
      requires Valid()
      modifies this`points, this`connectionCount, this`fps, this`frameCount, this`lastTime
      ensures Valid()
      ensures points == Stepped(old(points), width as real, height as real, mouse, config.mouseInfluence, sqrt)
      ensures lines == DrawnLines(points, config.maxDistance, config.lineOpacity, sqrt)
      ensures connectionCount == |lines|
      ensures Counter() == Tick(old(Counter()), now)
    {
      UpdatePoints(sqrt);
      lines := DrawLines(sqrt);
      UpdateStats(now);
    }
  }
}
