/** The frame-rate counter of updateStats. Every frame adds one to frameCount.
    Once at least 1000 ms have passed since lastTime, fps becomes the rounded
    frame rate of that window, and the window restarts at the current time with
    its count at 0. performance.now() is the parameter `now`. */
module FrameStats {

  /** The counter's state: frames in the open window, the last rate shown and
      when the window opened, in milliseconds. */
  datatype Stats = Stats(frameCount: int, fps: int, lastTime: real)

  /** Math.round: the nearest integer, with halves rounded up. */
  function Round(x: real): (n: int)
    ensures n as real - 0.5 <= x < n as real + 0.5
  {
    (x + 0.5).Floor
  }

  /** The length of one measuring window, in milliseconds. */
  const Window: real := 1000.0

  /** One call of updateStats at time now. */
  function Tick(s: Stats, now: real): (t: Stats) {
    var frames := s.frameCount + 1;
    var elapsed := now - s.lastTime;
    if elapsed >= Window then Stats(0, Round(frames as real * 1000.0 / elapsed), now)
    else Stats(frames, s.fps, s.lastTime)
  }

  /** updateStats called at each of the given times, in order. */
  function TickAll(s: Stats, times: seq<real>): Stats
    decreases |times|
  {
    if times == [] then s else TickAll(Tick(s, times[0]), times[1..])
  }

  /** The window closes exactly when 1000 ms have passed: then the count restarts
      at now and fps is the count of that window, this frame included, per second,
      within half a frame. Otherwise the frame is counted and fps and the start of
      the window are kept. */
  lemma TickSpec(s: Stats, now: real)
    requires 0 <= s.frameCount
    ensures var t := Tick(s, now);
      && (now - s.lastTime >= Window <==> t.frameCount == 0)
      && (now - s.lastTime >= Window ==>
            && t.lastTime == now
            && -0.5 <= (s.frameCount + 1) as real * 1000.0 / (now - s.lastTime) - t.fps as real < 0.5
            && 0 <= t.fps <= s.frameCount + 1)
      && (now - s.lastTime < Window ==>
            t == Stats(s.frameCount + 1, s.fps, s.lastTime))
  {
    if now - s.lastTime >= Window {
      RateBound((s.frameCount + 1) as real, now - s.lastTime);
    }
  }

  /** Over a window of at least 1000 ms, F frames make a rate in [0, F]. */
  lemma RateBound(frames: real, elapsed: real)
    requires 0.0 <= frames && Window <= elapsed
    ensures 0.0 <= frames * 1000.0 / elapsed <= frames
  {
    var x := frames * 1000.0 / elapsed;
    assert x * elapsed == frames * 1000.0;
    ScaleUp(frames, elapsed);
    assert (frames - x) * elapsed == frames * elapsed - x * elapsed;
    NonNegFactor(frames - x, elapsed);
    NonNegFactor(x, elapsed);
  }

  lemma ScaleUp(frames: real, elapsed: real)
    requires 0.0 <= frames && Window <= elapsed
    ensures frames * 1000.0 <= frames * elapsed
  {
    assert frames * elapsed - frames * 1000.0 == frames * (elapsed - 1000.0);
  }

  lemma NonNegFactor(a: real, b: real)
    requires 0.0 < b && 0.0 <= a * b
    ensures 0.0 <= a
  {
  }

  /** Frames that all fall inside the open window only add to the count. */
  lemma {:induction false} InsideWindow(s: Stats, times: seq<real>)
    requires forall k | 0 <= k < |times| :: times[k] - s.lastTime < Window
    ensures TickAll(s, times) == Stats(s.frameCount + |times|, s.fps, s.lastTime)
    decreases |times|
  {
    if times != [] {
      var t := Tick(s, times[0]);
      assert t == Stats(s.frameCount + 1, s.fps, s.lastTime);
      forall k | 0 <= k < |times[1..]| ensures times[1..][k] - t.lastTime < Window {
        assert times[1..][k] == times[k + 1];
      }
      InsideWindow(t, times[1..]);
    }
  }

  /** A window that closes at the last of the given frames: fps becomes the
      rounded rate of all frames since the window opened, and a new window
      opens at that frame. */
  lemma WindowCloses(s: Stats, times: seq<real>)
    requires times != []
    requires forall k | 0 <= k < |times| - 1 :: times[k] - s.lastTime < Window
    requires times[|times| - 1] - s.lastTime >= Window
    ensures var last := times[|times| - 1];
      TickAll(s, times) ==
        Stats(0, Round((s.frameCount + |times|) as real * 1000.0 / (last - s.lastTime)), last)
  {
    var front := times[..|times| - 1];
    var last := times[|times| - 1];
    forall k | 0 <= k < |front| ensures front[k] - s.lastTime < Window {
      assert front[k] == times[k];
    }
    InsideWindow(s, front);
    var u := TickAll(s, front);
    assert times == front + [last];
    TickAllConcat(s, front, [last]);
    assert TickAll(u, [last]) == TickAll(Tick(u, last), []) by {
      assert [last][0] == last && [last][1..] == [];
    }
  }

  lemma {:induction false} TickAllConcat(s: Stats, a: seq<real>, b: seq<real>)
    ensures TickAll(s, a + b) == TickAll(TickAll(s, a), b)
    decreases |a|
  {
    if a == [] {
      assert a + b == b;
    } else {
      assert (a + b)[0] == a[0];
      assert (a + b)[1..] == a[1..] + b;
      TickAllConcat(Tick(s, a[0]), a[1..], b);
    }
  }

  /** Sixty frames, the sixtieth exactly 1000 ms after the window opened, show
      60 fps; the count restarts at the sixtieth frame. */
  lemma SixtyFrames(s: Stats, times: seq<real>)
    requires s.frameCount == 0 && |times| == 60
    requires forall k | 0 <= k < 59 :: times[k] - s.lastTime < Window
    requires times[59] == s.lastTime + 1000.0
    ensures TickAll(s, times) == Stats(0, 60, times[59])
  {
    WindowCloses(s, times);
    assert 60.0 * 1000.0 / 1000.0 == 60.0;
  }
}
