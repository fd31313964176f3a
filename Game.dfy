/** The game window's own state: the flags the event handler flips, the
    quit guard, the fixed-timestep update loop with its one-second statistics
    window, and the rasteriser state set up for the 3D and 2D passes.
    Times are integer microseconds. */
module Game {

  /** Length of one simulation tick, in microseconds. */
  const TickLength: int := 20000

  /** Most ticks simulated in one frame; any further due ticks are dropped. */
  const MaxTicksPerFrame: nat := 5

  /** Length of the statistics window, in microseconds. */
  const StatsInterval: int := 1000000

  datatype ViewMode = Normal | InsideWireframe | Wireframe

  datatype Key = Escape | Tab | Space | Num1 | Num2 | Num3 | F11 | R | OtherKey

  /** The window events the handler distinguishes. `Resized` and a press of
      `R` change no flag. */
  datatype Event =
    | Closed
    | Resized
    | KeyPressed(key: Key)
    | WheelScrolled(delta: real)
    | OtherEvent

  /** The window flags that events change. */
  datatype Flags = Flags(
    fullscreen: bool,
    mouseLocked: bool,
    quitting: bool,
    paused: bool,
    viewMode: ViewMode,
    zoom: bool)

  // ---------------------------------------------------------------------
  // Event state machine
  // ---------------------------------------------------------------------

  /** The quit request: honoured when it comes from inside the program or
      when quitting is allowed at all; a set flag is never cleared. */
  function RequestQuit(f: Flags, internal: bool, allowQuit: bool): (r: Flags)
    ensures r.quitting <==> f.quitting || internal || allowQuit
    ensures r.(quitting := f.quitting) == f
  {
    if internal || allowQuit then f.(quitting := true) else f
  }

  /** The effect of one event on the flags. A close request and Escape ask
      to quit (not internally); Tab toggles the mouse lock; Space toggles
      pause; 1, 2 and 3 choose the view mode; F11 toggles fullscreen and
      restores the mouse lock it had; the wheel sets or clears zoom by the
      sign of its delta. */
  function React(f: Flags, allowQuit: bool, e: Event): Flags {
    match e
    case Closed => RequestQuit(f, false, allowQuit)
    case KeyPressed(k) =>
      (match k
       case Escape => RequestQuit(f, false, allowQuit)
       case Tab => f.(mouseLocked := !f.mouseLocked)
       case Space => f.(paused := !f.paused)
       case Num1 => f.(viewMode := Normal)
       case Num2 => f.(viewMode := InsideWireframe)
       case Num3 => f.(viewMode := Wireframe)
       case F11 => f.(fullscreen := !f.fullscreen)
       case _ => f)
    case WheelScrolled(d) =>
      if d > 0.0 then f.(zoom := true) else if d < 0.0 then f.(zoom := false) else f
    case _ => f
  }

  /** A queue of events, handled in order. A set quit flag survives any
      queue, and no queue sets it while quitting is not allowed. */
  function ReactAll(f: Flags, allowQuit: bool, events: seq<Event>): (r: Flags)
    ensures f.quitting ==> r.quitting
    ensures !allowQuit ==> r.quitting == f.quitting
    decreases |events|
  {
    if events == [] then f
    else React(ReactAll(f, allowQuit, events[..|events| - 1]), allowQuit, events[|events| - 1])
  }

  predicate IsQuitRequest(e: Event) {
    e == Closed || e == KeyPressed(Escape)
  }

  function CountEvent(events: seq<Event>, e: Event): nat
    decreases |events|
  {
    if events == [] then 0
    else CountEvent(events[..|events| - 1], e) + (if events[|events| - 1] == e then 1 else 0)
  }

  /** Each flag changes only on its own event: quitting is set exactly by
      an allowed close request or Escape, pause flips exactly on Space, the
      mouse lock exactly on Tab, fullscreen exactly on F11; the view mode
      changes only on 1, 2 or 3, and zoom only on a non-zero wheel delta. */
  lemma ReactFlags(f: Flags, allowQuit: bool, e: Event)
    ensures var r := React(f, allowQuit, e);
      && (r.quitting <==> f.quitting || (allowQuit && IsQuitRequest(e)))
      && (r.paused != f.paused <==> e == KeyPressed(Space))
      && (r.mouseLocked != f.mouseLocked <==> e == KeyPressed(Tab))
      && (r.fullscreen != f.fullscreen <==> e == KeyPressed(F11))
      && (r.viewMode != f.viewMode ==> e.KeyPressed? && e.key in {Num1, Num2, Num3})
      && (r.zoom != f.zoom ==> e.WheelScrolled? && e.delta != 0.0)
  {
    match e {
      case KeyPressed(k) =>
        match k {
          case Escape =>
          case Tab =>
          case Space =>
          case Num1 =>
          case Num2 =>
          case Num3 =>
          case F11 =>
          case R =>
          case OtherKey =>
        }
      case _ =>
    }
  }

  /** Pressing Space twice restores every flag. */
  lemma SpaceTwiceRestores(f: Flags, allowQuit: bool)
    ensures React(React(f, allowQuit, KeyPressed(Space)), allowQuit, KeyPressed(Space)) == f
  {
  }

  /** After any event queue, the pause flag has flipped exactly when Space
      was pressed an odd number of times. */
  lemma {:induction false} PauseParity(f: Flags, allowQuit: bool, events: seq<Event>)
    ensures ReactAll(f, allowQuit, events).paused
      <==> (f.paused != (CountEvent(events, KeyPressed(Space)) % 2 == 1))
  {
    if events != [] {
      var init, last := events[..|events| - 1], events[|events| - 1];
      PauseParity(f, allowQuit, init);
      ReactFlags(ReactAll(f, allowQuit, init), allowQuit, last);
    }
  }

  /** The number keys set the view mode whatever it was, and change nothing
      else. */
  lemma ViewModeKeys(f: Flags, allowQuit: bool)
    ensures React(f, allowQuit, KeyPressed(Num1)) == f.(viewMode := Normal)
    ensures React(f, allowQuit, KeyPressed(Num2)) == f.(viewMode := InsideWireframe)
    ensures React(f, allowQuit, KeyPressed(Num3)) == f.(viewMode := Wireframe)
  {
  }

  /** F11 flips fullscreen and leaves the mouse lock, like every other flag,
      as it was. */
  lemma FullscreenKeepsMouseLock(f: Flags, allowQuit: bool)
    ensures React(f, allowQuit, KeyPressed(F11)) == f.(fullscreen := !f.fullscreen)
  {
  }

  /** A positive wheel delta sets zoom, a negative one clears it, and a zero
      delta changes nothing. */
  lemma WheelZoom(f: Flags, allowQuit: bool, delta: real)
    ensures delta > 0.0 ==> React(f, allowQuit, WheelScrolled(delta)) == f.(zoom := true)
    ensures delta < 0.0 ==> React(f, allowQuit, WheelScrolled(delta)) == f.(zoom := false)
    ensures delta == 0.0 ==> React(f, allowQuit, WheelScrolled(delta)) == f
  {
  }

  /** After any event queue the window is quitting exactly when it already
      was, or quitting is allowed and the queue held a close request or an
      Escape press. */
  lemma {:induction false} QuitOnlyOnRequest(f: Flags, allowQuit: bool, events: seq<Event>)
    ensures ReactAll(f, allowQuit, events).quitting
      <==> f.quitting || (allowQuit && exists i :: 0 <= i < |events| && IsQuitRequest(events[i]))
  {
    if events != [] {
      var init, last := events[..|events| - 1], events[|events| - 1];
      QuitOnlyOnRequest(f, allowQuit, init);
      ReactFlags(ReactAll(f, allowQuit, init), allowQuit, last);
      if exists i :: 0 <= i < |init| && IsQuitRequest(init[i]) {
        var i :| 0 <= i < |init| && IsQuitRequest(init[i]);
        assert events[i] == init[i];
      }
      if exists i :: 0 <= i < |events| && IsQuitRequest(events[i]) {
        var i :| 0 <= i < |events| && IsQuitRequest(events[i]);
        if i < |init| {
          assert init[i] == events[i];
        }
      }
    }
  }

  /** The flags after a sequence of frames, each handling its own event
      queue. */
  function AfterFrames(f: Flags, allowQuit: bool, frames: seq<Frame>): Flags
    decreases |frames|
  {
    if frames == [] then f
    else ReactAll(AfterFrames(f, allowQuit, frames[..|frames| - 1]), allowQuit, frames[|frames| - 1].events)
  }

  /** What one pass of the main loop reads from outside: the time since the
      previous pass and the events queued meanwhile. */
  datatype Frame = Frame(delta: int, events: seq<Event>)

  // ---------------------------------------------------------------------
  // Fixed timestep
  // ---------------------------------------------------------------------

  function Min(a: nat, b: nat): nat {
    if a <= b then a else b
  }

  /** Whole ticks contained in an accumulated time. */
  function TicksDue(acc: int): (n: nat)
    ensures acc >= 0 ==> n * TickLength <= acc < (n + 1) * TickLength
    ensures acc < TickLength ==> n == 0
  {
    if acc < TickLength then 0 else acc / TickLength
  }

  /** The remainder the tick loop leaves: a non-negative accumulator keeps
      less than one tick, the time its whole ticks did not use; a negative
      one is left alone. */
  function TickRemainder(acc: int): (rest: int)
    ensures acc >= 0 ==> 0 <= rest < TickLength && rest == acc - TicksDue(acc) * TickLength
    ensures acc < 0 ==> rest == acc
  {
    if acc < 0 then acc else acc % TickLength
  }

  // ---------------------------------------------------------------------
  // Frame statistics
  // ---------------------------------------------------------------------

  /** The counters of the main loop: the tick accumulator, and the ticks,
      frames and time counted in the current statistics window. */
  datatype Stats = Stats(tickAccum: int, tickCount: nat, frameCount: nat, fpsAccum: int)

  const NoStats: Stats := Stats(0, 0, 0, 0)

  /** The statistics window alone: ticks, frames and time counted since
      the last reset. */
  datatype Window = Window(tickCount: nat, frameCount: nat, fpsAccum: int)

  const EmptyWindow: Window := Window(0, 0, 0)

  /** Closes one frame of the statistics window: the frame's ticks and the
      frame itself are counted and its time added, unless that time fills
      the window, in which case the tick counter, the frame counter and the
      window time all restart from zero together. */
  function CloseFrame(w: Window, ticks: nat, delta: int): (r: Window)
    ensures r == EmptyWindow <==> w.fpsAccum + delta >= StatsInterval
    ensures w.fpsAccum + delta < StatsInterval ==>
      r == Window(w.tickCount + ticks, w.frameCount + 1, w.fpsAccum + delta)
  {
    if w.fpsAccum + delta >= StatsInterval then EmptyWindow
    else Window(w.tickCount + ticks, w.frameCount + 1, w.fpsAccum + delta)
  }

  /** The ticks simulated in a frame of length `delta` after counters `s`. */
  function FrameTicks(s: Stats, delta: int): (n: nat)
    ensures n <= MaxTicksPerFrame
    ensures s.tickAccum + delta >= 0 ==> n * TickLength <= s.tickAccum + delta
  {
    Min(MaxTicksPerFrame, TicksDue(s.tickAccum + delta))
  }

  /** The counters after one frame of length `delta`. */
  function FrameStep(s: Stats, delta: int): Stats {
    var w := CloseFrame(Window(s.tickCount, s.frameCount, s.fpsAccum), FrameTicks(s, delta), delta);
    Stats(TickRemainder(s.tickAccum + delta), w.tickCount, w.frameCount, w.fpsAccum)
  }

  /** The counters after a sequence of frames, starting from zero. */
  function StatsAfter(frames: seq<Frame>): Stats
    decreases |frames|
  {
    if frames == [] then NoStats
    else FrameStep(StatsAfter(frames[..|frames| - 1]), frames[|frames| - 1].delta)
  }

  /** The clock never runs backwards. */
  predicate ForwardClock(frames: seq<Frame>) {
    forall i :: 0 <= i < |frames| ==> frames[i].delta >= 0
  }

  function SumDelta(frames: seq<Frame>): int
    decreases |frames|
  {
    if frames == [] then 0 else SumDelta(frames[..|frames| - 1]) + frames[|frames| - 1].delta
  }

  lemma ForwardClockPrefix(frames: seq<Frame>, n: nat)
    requires ForwardClock(frames) && n <= |frames|
    ensures ForwardClock(frames[..n])
  {
    forall i | 0 <= i < n
      ensures frames[..n][i].delta >= 0
    {
      assert frames[..n][i] == frames[i];
    }
  }

  /** With a forward clock, after any frames the tick accumulator holds less
      than one tick, the window holds less than one second, at most five
      ticks are counted per frame of the window, and the window never counts
      more frames than were run. */
  lemma {:induction false} StatsBounds(frames: seq<Frame>)
    requires ForwardClock(frames)
    ensures var s := StatsAfter(frames);
      && 0 <= s.tickAccum < TickLength
      && 0 <= s.fpsAccum < StatsInterval
      && s.tickCount <= MaxTicksPerFrame * s.frameCount
      && s.frameCount <= |frames|
  {
    if frames != [] {
      ForwardClockPrefix(frames, |frames| - 1);
      StatsBounds(frames[..|frames| - 1]);
    }
  }

  lemma StatsBoundsPrefix(frames: seq<Frame>, n: nat)
    requires ForwardClock(frames) && n <= |frames|
    ensures var s := StatsAfter(frames[..n]);
      && 0 <= s.tickAccum < TickLength
      && 0 <= s.fpsAccum < StatsInterval
      && s.tickCount <= MaxTicksPerFrame * s.frameCount
      && s.frameCount <= n
  {
    ForwardClockPrefix(frames, n);
    StatsBounds(frames[..n]);
  }

  /** Until a second has elapsed, no reset happens: every frame is counted
      and the window holds the total elapsed time. */
  lemma {:induction false} StatsWithinWindow(frames: seq<Frame>)
    requires ForwardClock(frames) && SumDelta(frames) < StatsInterval
    ensures StatsAfter(frames).frameCount == |frames|
    ensures StatsAfter(frames).fpsAccum == SumDelta(frames)
  {
    if frames != [] {
      var init := frames[..|frames| - 1];
      ForwardClockPrefix(frames, |frames| - 1);
      assert frames[|frames| - 1].delta >= 0;
      StatsWithinWindow(init);
    }
  }

  /** The flags the main loop starts from: not quitting, and with the mouse
      locked when the window had the focus at start-up. */
  function StartFlags(f: Flags, focused: bool): (r: Flags)
    ensures !r.quitting && (focused ==> r.mouseLocked)
    ensures r.(quitting := f.quitting, mouseLocked := f.mouseLocked) == f
  {
    f.(quitting := false, mouseLocked := f.mouseLocked || focused)
  }

  /** The play time one frame adds: its simulated ticks, unless the frame's
      events left the window paused (`after` are the flags once they have
      been handled, `s` the counters before the frame). */
  function FrameGain(after: Flags, s: Stats, delta: int): (gain: int)
    ensures 0 <= gain <= MaxTicksPerFrame * TickLength
    ensures after.paused ==> gain == 0
  {
    if after.paused then 0 else FrameTicks(s, delta) * TickLength
  }

  /** The play time gained over a sequence of frames. */
  function PlayGain(start: Flags, allowQuit: bool, frames: seq<Frame>): int
    decreases |frames|
  {
    if frames == [] then 0
    else
      var init := frames[..|frames| - 1];
      PlayGain(start, allowQuit, init)
      + FrameGain(AfterFrames(start, allowQuit, frames), StatsAfter(init), frames[|frames| - 1].delta)
  }

  /** The loop went on past each of the first `n` frame boundaries: the quit
      flag was clear after every prefix shorter than `n`. */
  predicate NoQuitBefore(start: Flags, allowQuit: bool, frames: seq<Frame>, n: nat)
    requires n <= |frames|
  {
    forall j :: 0 <= j < n ==> !AfterFrames(start, allowQuit, frames[..j]).quitting
  }

  lemma NoQuitStep(start: Flags, allowQuit: bool, frames: seq<Frame>, n: nat)
    requires n < |frames| && NoQuitBefore(start, allowQuit, frames, n)
    requires !AfterFrames(start, allowQuit, frames[..n]).quitting
    ensures NoQuitBefore(start, allowQuit, frames, n + 1)
  {
  }

  /** One more frame: how the flags, the counters and the play time after a
      prefix of `n + 1` frames follow from those after `n`. */
  lemma RunStep(start: Flags, allowQuit: bool, frames: seq<Frame>, n: nat)
    requires n < |frames|
    ensures AfterFrames(start, allowQuit, frames[..n + 1])
      == ReactAll(AfterFrames(start, allowQuit, frames[..n]), allowQuit, frames[n].events)
    ensures StatsAfter(frames[..n + 1]) == FrameStep(StatsAfter(frames[..n]), frames[n].delta)
    ensures PlayGain(start, allowQuit, frames[..n + 1]) == PlayGain(start, allowQuit, frames[..n])
      + FrameGain(AfterFrames(start, allowQuit, frames[..n + 1]), StatsAfter(frames[..n]), frames[n].delta)
  {
    assert frames[..n + 1][..n] == frames[..n];
  }

  /** Play time never goes backwards, and gains at most five ticks a frame. */
  lemma {:induction false} PlayGainBounds(start: Flags, allowQuit: bool, frames: seq<Frame>)
    ensures 0 <= PlayGain(start, allowQuit, frames) <= MaxTicksPerFrame * TickLength * |frames|
  {
    if frames != [] {
      PlayGainBounds(start, allowQuit, frames[..|frames| - 1]);
    }
  }

  // ---------------------------------------------------------------------
  // Rasteriser state
  // ---------------------------------------------------------------------

  datatype PolygonMode = Fill | Line

  /** The part of the rasteriser state the two passes set. */
  datatype RasterState = RasterState(
    depthTest: bool,
    cullFace: bool,
    frontMode: PolygonMode,
    backMode: PolygonMode,
    arrayBuffer: nat)

  /** 3D pass set-up: depth testing on, then face culling in the normal
      view, back faces as lines in the inside wireframe view, and all faces
      as lines in the wireframe view. Nothing else is reset. */
  function Start3D(s: RasterState, mode: ViewMode): (r: RasterState)
    ensures r.depthTest && r.arrayBuffer == s.arrayBuffer
    ensures mode == Normal ==> r == s.(depthTest := true, cullFace := true)
    ensures mode == InsideWireframe ==> r == s.(depthTest := true, backMode := Line)
    ensures mode == Wireframe ==> r == s.(depthTest := true, frontMode := Line, backMode := Line)
  {
    var d := s.(depthTest := true);
    match mode
    case Normal => d.(cullFace := true)
    case InsideWireframe => d.(backMode := Line)
    case Wireframe => d.(frontMode := Line, backMode := Line)
  }

  /** 2D pass set-up: depth testing and culling off, all faces filled, no
      vertex buffer bound, whatever the state was. */
  function Start2D(s: RasterState): (r: RasterState)
    ensures !r.depthTest && !r.cullFace && r.frontMode == Fill && r.backMode == Fill && r.arrayBuffer == 0
  {
    RasterState(false, false, Fill, Fill, 0)
  }

  /** Once a frame has run its 2D pass (whose state the end of the pass
      restores), the next 3D pass runs with a state fixed by the view mode
      alone: culled and filled, back faces as unculled lines, or all faces
      as unculled lines. */
  lemma FrameRasterState(s: RasterState, mode: ViewMode)
    ensures Start3D(Start2D(s), mode).depthTest
    ensures Start3D(Start2D(s), mode).cullFace <==> mode == Normal
    ensures Start3D(Start2D(s), mode).frontMode == (if mode == Wireframe then Line else Fill)
    ensures Start3D(Start2D(s), mode).backMode == (if mode == Normal then Fill else Line)
    ensures Start3D(Start2D(s), mode).arrayBuffer == 0
  {
  }

  /** Without the 2D pass in between, the 3D set-up alone would not undo a
      wireframe view: switching back to the normal view keeps lines. */
  lemma Start3DDoesNotResetPolygonMode(s: RasterState)
    ensures Start3D(Start3D(s, Wireframe), Normal).frontMode == Line
    ensures Start3D(Start3D(s, Wireframe), Normal).cullFace
  {
  }

  // ---------------------------------------------------------------------
  // The window
  // ---------------------------------------------------------------------

  class GameWindow {
    var fullscreen: bool
    var mouseLocked: bool
    const allowQuit: bool
    var quitting: bool
    var paused: bool
    var viewMode: ViewMode
    var zoom: bool
    /** Simulated time, advanced only by unpaused updates. */
    var playTime: int

    constructor ()
      ensures State() == Flags(false, false, false, false, Normal, false)
      ensures allowQuit && playTime == 0
    {
      fullscreen, mouseLocked, allowQuit, quitting, paused := false, false, true, false, false;
      viewMode, zoom, playTime := Normal, false, 0;
    }

    function State(): Flags
      reads this
    {
      Flags(fullscreen, mouseLocked, quitting, paused, viewMode, zoom)
    }

    method Quit(internal: bool)
      modifies this`quitting
      ensures quitting <==> old(quitting) || internal || allowQuit
      ensures State() == RequestQuit(old(State()), internal, allowQuit)
    {
      if internal || allowQuit {
        quitting := true;
      }
    }

    /** The public quit: a request from outside the program. */
    method QuitExternal()
      modifies this`quitting
      ensures State() == RequestQuit(old(State()), false, allowQuit)
    {
      Quit(false);
    }

    /** Locks the mouse (and re-centres the pointer, not modelled). */
    method LockMouse()
      modifies this`mouseLocked
      ensures mouseLocked
    {
      mouseLocked := true;
    }

    method UnlockMouse()
      modifies this`mouseLocked
      ensures !mouseLocked
    {
      mouseLocked := false;
    }

    method HandleEvent(e: Event)
      modifies this`fullscreen, this`mouseLocked, this`quitting, this`paused, this`viewMode, this`zoom
      ensures State() == React(old(State()), allowQuit, e)
    {
      match e {
        case Closed =>
          QuitExternal();
        case KeyPressed(k) =>
          match k {
            case Escape =>
              QuitExternal();
            case Tab =>
              if mouseLocked {
                UnlockMouse();
              } else {
                LockMouse();
              }
            case Space =>
              paused := !paused;
            case Num1 =>
              viewMode := Normal;
            case Num2 =>
              viewMode := InsideWireframe;
            case Num3 =>
              viewMode := Wireframe;
            case F11 =>
              var wasLocked := mouseLocked;
              if wasLocked {
                UnlockMouse();
              }
              fullscreen := !fullscreen;
              if wasLocked {
                LockMouse();
              }
            case R =>
            case OtherKey =>
          }
        case WheelScrolled(d) =>
          if d > 0.0 {
            zoom := true;
          } else if d < 0.0 {
            zoom := false;
          }
        case Resized =>
        case OtherEvent =>
      }
    }

    /** Drains the event queue, handling each event in order. */
    method HandleEvents(events: seq<Event>)
      modifies this`fullscreen, this`mouseLocked, this`quitting, this`paused, this`viewMode, this`zoom
      ensures State() == ReactAll(old(State()), allowQuit, events)
    {
      var i := 0;
      while i < |events|
        invariant 0 <= i <= |events|
        invariant State() == ReactAll(old(State()), allowQuit, events[..i])
      {
        assert events[..i + 1][..i] == events[..i];
        HandleEvent(events[i]);
        i := i + 1;
      }
      assert events[..|events|] == events;
    }

    /** One simulation step: play time advances unless paused. */
    method Update(delta: int)
      modifies this`playTime
      ensures playTime == old(playTime) + (if paused then 0 else delta)
    {
      if !paused {
        playTime := playTime + delta;
      }
    }

    /** The tick loop of one frame: every whole tick is drained from the
        accumulator, but only the first `MaxTicksPerFrame` of them are
        simulated and counted. */
    method RunTicks(acc: int, ticksBefore: nat) returns (rest: int, tickCount: nat)
      modifies this`playTime
      ensures acc >= 0 ==> rest == acc % TickLength && 0 <= rest < TickLength
      ensures acc < 0 ==> rest == acc
      ensures rest == TickRemainder(acc)
      ensures tickCount == ticksBefore + Min(MaxTicksPerFrame, TicksDue(acc))
      ensures playTime == old(playTime) + (if paused then 0 else (tickCount - ticksBefore) * TickLength)
    {
      rest, tickCount := acc, ticksBefore;
      var frameTicks: nat := MaxTicksPerFrame;
      ghost var drained: nat := 0;
      while rest >= TickLength
        invariant rest == acc - drained * TickLength
        invariant drained > 0 ==> rest >= 0
        invariant tickCount - ticksBefore == Min(MaxTicksPerFrame, drained)
        invariant frameTicks == MaxTicksPerFrame - Min(MaxTicksPerFrame, drained)
        invariant playTime == old(playTime) + (if paused then 0 else (tickCount - ticksBefore) * TickLength)
        decreases rest
      {
        rest := rest - TickLength;
        drained := drained + 1;
        if frameTicks > 0 {
          Update(TickLength);
          tickCount := tickCount + 1;
          frameTicks := frameTicks - 1;
        }
      }
      if acc >= TickLength {
        DivisionOfAccumulator(acc, drained, rest);
      }
    }

    /** One pass of the main loop, over frame `n` after the frames before it:
        handles the frame's events, feeds its time to the tick loop, and
        closes the frame's statistics. */
    method RunFrame(ghost start: Flags, frames: seq<Frame>, n: nat,
                    tickAccum: int, tickCount: nat, frameCount: nat, fpsAccum: int)
      returns (next: nat, tickAccum': int, tickCount': nat, frameCount': nat, fpsAccum': int)
      requires n < |frames|
      requires State() == AfterFrames(start, allowQuit, frames[..n])
      requires Stats(tickAccum, tickCount, frameCount, fpsAccum) == StatsAfter(frames[..n])
      modifies this`fullscreen, this`mouseLocked, this`quitting, this`paused, this`viewMode, this`zoom, this`playTime
      ensures next == n + 1 <= |frames|
      ensures State() == AfterFrames(start, allowQuit, frames[..next])
      ensures Stats(tickAccum', tickCount', frameCount', fpsAccum') == StatsAfter(frames[..next])
      ensures playTime - old(playTime)
        == PlayGain(start, allowQuit, frames[..next]) - PlayGain(start, allowQuit, frames[..n])
    {
      RunStep(start, allowQuit, frames, n);
      next := n + 1;
      HandleEvents(frames[n].events);
      tickAccum', tickCount', frameCount', fpsAccum' :=
        AdvanceClock(frames[n].delta, tickAccum, tickCount, frameCount, fpsAccum);
    }

    /** The rest of a pass, once its events are handled: the frame time is
        fed to the tick loop and the frame's statistics are closed. */
    method AdvanceClock(delta: int, tickAccum: int, tickCount: nat, frameCount: nat, fpsAccum: int)
      returns (tickAccum': int, tickCount': nat, frameCount': nat, fpsAccum': int)
      modifies this`playTime
      ensures Stats(tickAccum', tickCount', frameCount', fpsAccum')
        == FrameStep(Stats(tickAccum, tickCount, frameCount, fpsAccum), delta)
      ensures playTime == old(playTime) + FrameGain(State(), Stats(tickAccum, tickCount, frameCount, fpsAccum), delta)
    {
      ghost var before := Stats(tickAccum, tickCount, frameCount, fpsAccum);
      tickAccum' := tickAccum + delta;
      fpsAccum' := fpsAccum + delta;
      tickAccum', tickCount' := RunTicks(tickAccum', tickCount);
      ghost var ticks := tickCount' - tickCount;
      assert ticks == FrameTicks(before, delta);
      frameCount' := frameCount + 1;
      if fpsAccum' >= StatsInterval {
        tickCount', frameCount' := 0, 0;
        fpsAccum' := 0;
      }
      assert Window(tickCount', frameCount', fpsAccum')
        == CloseFrame(Window(tickCount, frameCount, fpsAccum), ticks, delta);
    }

    /** The main loop over the frames the environment supplies, after a
        start-up that can fail and that locks the mouse when the window has
        the focus. Each pass handles its events, feeds the frame time to the
        tick loop, and closes the frame's statistics; the loop ends only when
        it finds the quit flag set at its head, so the frame that requested
        quitting still runs to its end. */
    method Run(initOk: bool, focused: bool, frames: seq<Frame>)
      returns (framesRun: nat, tickAccum: int, tickCount: nat, frameCount: nat, fpsAccum: int)
      requires ForwardClock(frames)
      modifies this`fullscreen, this`mouseLocked, this`quitting, this`paused, this`viewMode, this`zoom, this`playTime
      ensures !initOk ==> framesRun == 0 && State() == old(State()).(quitting := false) && playTime == old(playTime)
      ensures framesRun <= |frames|
      ensures initOk ==> framesRun == |frames| || quitting
      ensures initOk ==> State() == AfterFrames(StartFlags(old(State()), focused), allowQuit, frames[..framesRun])
      ensures initOk ==> NoQuitBefore(StartFlags(old(State()), focused), allowQuit, frames, framesRun)
      ensures initOk ==>
        playTime == old(playTime) + PlayGain(StartFlags(old(State()), focused), allowQuit, frames[..framesRun])
      ensures Stats(tickAccum, tickCount, frameCount, fpsAccum) == StatsAfter(frames[..framesRun])
      ensures 0 <= tickAccum < TickLength
      ensures 0 <= fpsAccum < StatsInterval
      ensures tickCount <= MaxTicksPerFrame * frameCount
      ensures frameCount <= framesRun
    {
      tickAccum, tickCount, frameCount, fpsAccum := 0, 0, 0, 0;
      framesRun := 0;
      quitting := false;
      if !initOk {
        return;
      }
      if focused {
        LockMouse();
      }
      ghost var start := State();
      while !quitting && framesRun < |frames|
        invariant framesRun <= |frames|
        invariant State() == AfterFrames(start, allowQuit, frames[..framesRun])
        invariant NoQuitBefore(start, allowQuit, frames, framesRun)
        invariant playTime == old(playTime) + PlayGain(start, allowQuit, frames[..framesRun])
        invariant Stats(tickAccum, tickCount, frameCount, fpsAccum) == StatsAfter(frames[..framesRun])
        decreases |frames| - framesRun
      {
        NoQuitStep(start, allowQuit, frames, framesRun);
        framesRun, tickAccum, tickCount, frameCount, fpsAccum :=
          RunFrame(start, frames, framesRun, tickAccum, tickCount, frameCount, fpsAccum);
      }
      ghost var stats := StatsAfter(frames[..framesRun]);
      StatsBoundsPrefix(frames, framesRun);
      assert stats == Stats(tickAccum, tickCount, frameCount, fpsAccum);
    }
  }

  /** An accumulator drained of `drained` whole ticks down to a remainder
      below one tick holds that remainder modulo the tick length, and
      `drained` is its number of whole ticks. */
  lemma DivisionOfAccumulator(acc: int, drained: nat, rest: int)
    requires acc >= 0 && 0 <= rest < TickLength && rest == acc - drained * TickLength
    ensures rest == acc % TickLength && drained == acc / TickLength
  {
  }
}
