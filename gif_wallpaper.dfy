/** GifWallpaperEngine (AnimatedWallpaperService.kt): an animated image decoded once into a
    Movie and painted by a tick that re-posts itself on the main handler while the
    wallpaper is visible.

    The handler queue is a count of pending ticks, the clock is a parameter `now`, and
    every lock, frame and post on the surface's canvas is appended to a log. */
module GifWallpaper {
  import opened Wrappers

  /** The decoded android.graphics.Movie; only its duration (ms) matters to the timing. */
  datatype Movie = Movie(duration: nat)

  /** What loadGif ends with. */
  datatype LoadOutcome =
    | OpenFailed                          // the input stream could not be opened: nothing assigned
    | Decoded(decoded: Option<Movie>)     // decodeStream returned (null for unreadable data); movieStart := now
    | CloseFailed(decoded: Option<Movie>) // close() threw after the movie was assigned: movieStart kept

  /** What happens on the surface's canvas. */
  datatype CanvasEvent =
    | Locked              // lockCanvas() returned a canvas
    | Frame(relTime: int) // movie.setTime(relTime) and the scaled draw
    | Posted              // unlockCanvasAndPost(canvas)

  // ---------------------------------------------------------------------------
  // Frame timing

  /** Kotlin's `/` on Long: division truncated toward zero. */
  function TruncDiv(a: int, d: int): int
    requires d > 0
  {
    if a >= 0 then a / d else -((-a) / d)
  }

  /** Kotlin's `%` on Long: the remainder of the truncated division, with the sign of `a`. */
  function TruncRem(a: int, d: int): (r: int)
    requires d > 0
    ensures a == TruncDiv(a, d) * d + r
    ensures a >= 0 ==> 0 <= r < d
    ensures a < 0 ==> -d < r <= 0
  {
    if a >= 0 then a % d else -((-a) % d)
  }

  /** `relTime = ((now - movieStart) % movie.duration()).toInt()` for a positive duration.
      The remainder lies strictly between -duration and duration, so `toInt()` keeps it. */
  function RelTime(now: int, movieStart: int, duration: nat): (r: int)
    requires duration > 0
    ensures now >= movieStart ==> 0 <= r < duration
    ensures -(duration as int) < r < duration
  {
    TruncRem(now - movieStart, duration)
  }

  lemma {:induction false} ModUnique(x: int, q: int, r: int, d: int)
    requires d > 0 && 0 <= r < d && x == q * d + r
    ensures x % d == r
  {
    var q', r' := x / d, x % d;
    assert (q - q') * d == r' - r;
    if q - q' >= 1 {
      assert false;
    } else if q - q' <= -1 {
      assert false;
    }
  }

  /** Adding whole loops does not change the position within the loop. */
  lemma ModShift(a: int, k: int, d: int)
    requires d > 0
    ensures (a + k * d) % d == a % d
  {
    var q, r := a / d, a % d;
    assert a + k * d == (q + k) * d + r;
    ModUnique(a + k * d, q + k, r, d);
  }

  /** Drift-free timing: between any two ticks, the frame position advances by the
      elapsed wall-clock time, modulo the loop duration, however late the ticks ran. */
  lemma DriftFree(movieStart: int, now1: int, now2: int, duration: nat)
    requires duration > 0
    ensures (RelTime(now2, movieStart, duration) - RelTime(now1, movieStart, duration)) % duration
            == (now2 - now1) % duration
  {
    var q1, q2 := TruncDiv(now1 - movieStart, duration), TruncDiv(now2 - movieStart, duration);
    var r1, r2 := RelTime(now1, movieStart, duration), RelTime(now2, movieStart, duration);
    assert r2 - r1 == (now2 - now1) + (q1 - q2) * duration;
    ModShift(now2 - now1, q1 - q2, duration);
  }

  /** The frame position depends only on the time elapsed since the epoch. */
  lemma TimeShift(now: int, movieStart: int, duration: nat, k: int)
    requires duration > 0
    ensures RelTime(now + k, movieStart + k, duration) == RelTime(now, movieStart, duration)
  {
  }

  /** The frame position drawn; a movie of duration 0 (a single-frame image) shows time 0
      instead of dividing by zero. */
  function FrameTime(now: int, movieStart: int, duration: nat): (r: int)
    ensures duration == 0 ==> r == 0
    ensures duration > 0 ==> r == RelTime(now, movieStart, duration)
    ensures now >= movieStart ==> 0 <= r && (duration > 0 ==> r < duration)
  {
    if duration == 0 then 0 else RelTime(now, movieStart, duration)
  }

  // ---------------------------------------------------------------------------
  // Canvas discipline

  /** Every Locked is followed by its Posted before the next Locked, frames are drawn only
      on a locked canvas, and nothing is left locked (`open` says a canvas is locked). */
  ghost predicate PairedFrom(events: seq<CanvasEvent>, open: bool)
    decreases |events|
  {
    if events == [] then !open
    else match events[0]
      case Locked => !open && PairedFrom(events[1..], true)
      case Frame(_) => open && PairedFrom(events[1..], true)
      case Posted => open && PairedFrom(events[1..], false)
  }

  ghost predicate Paired(events: seq<CanvasEvent>)
  {
    PairedFrom(events, false)
  }

  lemma {:induction false} PairedConcat(a: seq<CanvasEvent>, b: seq<CanvasEvent>, open: bool)
    requires PairedFrom(a, open) && Paired(b)
    ensures PairedFrom(a + b, open)
    decreases |a|
  {
    if a == [] {
      assert a + b == b;
    } else {
      assert (a + b)[0] == a[0] && (a + b)[1..] == a[1..] + b;
      PairedConcat(a[1..], b, if a[0].Posted? then false else true);
    }
  }

  function Count(events: seq<CanvasEvent>, e: CanvasEvent): nat
    decreases |events|
  {
    if events == [] then 0 else (if events[0] == e then 1 else 0) + Count(events[1..], e)
  }

  /** drawFrame: with no holder or no canvas it returns at once; otherwise it locks, draws
      the frame when there is a movie, and posts in `finally` (also on the early return
      for a null movie). */
  function FrameEvents(hasSurfaceHolder: bool, canvasFree: bool, movie: Option<Movie>, movieStart: int, now: int)
    : (events: seq<CanvasEvent>)
    ensures Paired(events)
    ensures Count(events, Locked) == Count(events, Posted) == (if hasSurfaceHolder && canvasFree then 1 else 0)
    ensures events != [] ==> events[0] == Locked && events[|events| - 1] == Posted
    ensures hasSurfaceHolder && canvasFree ==> |events| == (if movie.Some? then 3 else 2)
    ensures hasSurfaceHolder && canvasFree && movie.Some? ==>
              events[1] == Frame(FrameTime(now, movieStart, movie.value.duration))
    ensures movie.None? ==> forall e <- events :: !e.Frame?
  {
    if !hasSurfaceHolder || !canvasFree then []
    else if movie.None? then [Locked, Posted]
    else
      var t := FrameTime(now, movieStart, movie.value.duration);
      assert [Locked, Frame(t), Posted][1..] == [Frame(t), Posted] && [Frame(t), Posted][1..] == [Posted];
      assert Count([Posted], Posted) == 1 && Count([Posted], Locked) == 0;
      [Locked, Frame(t), Posted]
  }

  /** drawFrame exactly as written: a movie of duration 0 makes `%` throw an
      ArithmeticException after the canvas was locked. */
  datatype Drawn = Drawn(events: seq<CanvasEvent>, threw: bool)

  function DrawFrameAsWritten(hasSurfaceHolder: bool, canvasFree: bool, movie: Option<Movie>, movieStart: int, now: int)
    : (d: Drawn)
    ensures Paired(d.events)
    ensures Count(d.events, Locked) == Count(d.events, Posted) == (if hasSurfaceHolder && canvasFree then 1 else 0)
    ensures d.threw <==> hasSurfaceHolder && canvasFree && movie.Some? && movie.value.duration == 0
  {
    if !hasSurfaceHolder || !canvasFree then Drawn([], false)
    else match movie
      case None => Drawn([Locked, Posted], false)
      case Some(m) =>
        if m.duration == 0 then Drawn([Locked, Posted], true)
        else
          var t := RelTime(now, movieStart, m.duration);
          assert PairedFrom([Frame(t), Posted], true) by {
            assert [Frame(t), Posted][1..] == [Posted];
          }
          Drawn([Locked, Frame(t), Posted], false)
  }

  /** A single-frame image (duration 0) throws out of the tick, after `finally` posted. */
  lemma ZeroDurationThrows(movieStart: int, now: int)
    ensures DrawFrameAsWritten(true, true, Some(Movie(0)), movieStart, now) == Drawn([Locked, Posted], true)
    ensures FrameEvents(true, true, Some(Movie(0)), movieStart, now) == [Locked, Frame(0), Posted]
  {
  }

  /** Wherever the code as written does not throw, it draws what FrameEvents gives. */
  lemma AsWrittenAgrees(hasSurfaceHolder: bool, canvasFree: bool, movie: Option<Movie>, movieStart: int, now: int)
    requires movie.Some? ==> movie.value.duration > 0
    ensures DrawFrameAsWritten(hasSurfaceHolder, canvasFree, movie, movieStart, now)
            == Drawn(FrameEvents(hasSurfaceHolder, canvasFree, movie, movieStart, now), false)
  {
  }

  // ---------------------------------------------------------------------------
  // Engine state

  datatype GifState = GifState(
    movie: Option<Movie>,
    hasSurfaceHolder: bool,
    isVisible: bool,
    movieStart: int,
    pending: nat,             // frameRunnable posts waiting on the handler
    canvas: seq<CanvasEvent>)

  const Initial := GifState(None, false, false, 0, 0, [])

  /** onCreate: keep the surface holder, then loadGif. */
  function AfterCreate(s: GifState, load: LoadOutcome, now: int): (r: GifState)
    ensures r.hasSurfaceHolder
    ensures r.movie == (if load.OpenFailed? then s.movie else load.decoded)
    ensures r.movieStart == (if load.Decoded? then now else s.movieStart)
    ensures r.isVisible == s.isVisible && r.pending == s.pending && r.canvas == s.canvas
  {
    var held := s.(hasSurfaceHolder := true);
    match load
    case OpenFailed => held
    case Decoded(m) => held.(movie := m, movieStart := now)
    case CloseFailed(m) => held.(movie := m)
  }

  /** onVisibilityChanged: showing resets the epoch and posts a tick (without removing one
      already pending); hiding removes every pending tick. */
  function AfterVisibilityChanged(s: GifState, visible: bool, now: int): (r: GifState)
    ensures r.isVisible == visible
    ensures visible ==> r.movieStart == now && r.pending == s.pending + 1
    ensures visible && r.movie.Some? ==> FrameTime(now, r.movieStart, r.movie.value.duration) == 0
    ensures !visible ==> r.pending == 0 && r.movieStart == s.movieStart
    ensures r.movie == s.movie && r.hasSurfaceHolder == s.hasSurfaceHolder && r.canvas == s.canvas
  {
    if visible then s.(isVisible := true, movieStart := now, pending := s.pending + 1)
    else s.(isVisible := false, pending := 0)
  }

  /** frameRunnable.run, taking one pending tick off the queue: it draws and re-posts
      itself only while visible with a movie. */
  function AfterTick(s: GifState, now: int, canvasFree: bool): (r: GifState)
    requires s.pending > 0
    ensures s.isVisible && s.movie.Some? ==>
              r.pending == s.pending
              && r.canvas == s.canvas + FrameEvents(s.hasSurfaceHolder, canvasFree, s.movie, s.movieStart, now)
    ensures !(s.isVisible && s.movie.Some?) ==> r.pending == s.pending - 1 && r.canvas == s.canvas
    ensures r.movie == s.movie && r.isVisible == s.isVisible && r.movieStart == s.movieStart
    ensures r.hasSurfaceHolder == s.hasSurfaceHolder
  {
    if s.isVisible && s.movie.Some? then
      s.(canvas := s.canvas + FrameEvents(s.hasSurfaceHolder, canvasFree, s.movie, s.movieStart, now))
    else
      s.(pending := s.pending - 1)
  }

  /** onSurfaceDestroyed and onDestroy: remove every pending tick and drop the movie. */
  function AfterTeardown(s: GifState): (r: GifState)
    ensures r.pending == 0 && r.movie.None?
    ensures r.isVisible == s.isVisible && r.movieStart == s.movieStart && r.canvas == s.canvas
    ensures r.hasSurfaceHolder == s.hasSurfaceHolder
  {
    s.(pending := 0, movie := None)
  }

  /** Tearing down twice is the same as tearing down once. */
  lemma TeardownIdempotent(s: GifState)
    ensures AfterTeardown(AfterTeardown(s)) == AfterTeardown(s)
  {
  }

  datatype Callback =
    | OnCreate(load: LoadOutcome, now: int)
    | OnVisibilityChanged(visible: bool, now: int)
    | FrameTick(now: int, canvasFree: bool)
    | OnSurfaceDestroyed
    | OnDestroy

  /** One callback; the handler runs a tick only when one is pending. */
  function Step(s: GifState, c: Callback): (r: GifState)
    ensures c.FrameTick? && s.pending == 0 ==> r == s
    ensures |s.canvas| <= |r.canvas| && r.canvas[..|s.canvas|] == s.canvas
    ensures r.canvas != s.canvas ==> c.FrameTick? && s.pending > 0 && s.isVisible && s.movie.Some?
  {
    match c
    case OnCreate(load, now) => AfterCreate(s, load, now)
    case OnVisibilityChanged(visible, now) => AfterVisibilityChanged(s, visible, now)
    case FrameTick(now, canvasFree) => if s.pending > 0 then AfterTick(s, now, canvasFree) else s
    case OnSurfaceDestroyed => AfterTeardown(s)
    case OnDestroy => AfterTeardown(s)
  }

  function Run(s: GifState, cs: seq<Callback>): GifState
    decreases |cs|
  {
    if cs == [] then s else Run(Step(s, cs[0]), cs[1..])
  }

  /** The canvas is always locked and posted in pairs, and no tick is queued while hidden. */
  ghost predicate Inv(s: GifState)
  {
    Paired(s.canvas) && (!s.isVisible ==> s.pending == 0)
  }

  lemma StepKeepsInv(s: GifState, c: Callback)
    requires Inv(s)
    ensures Inv(Step(s, c))
  {
    if c.FrameTick? && s.pending > 0 && s.isVisible && s.movie.Some? {
      PairedConcat(s.canvas, FrameEvents(s.hasSurfaceHolder, c.canvasFree, s.movie, s.movieStart, c.now), false);
    }
  }

  lemma {:induction false} RunKeepsInv(s: GifState, cs: seq<Callback>)
    requires Inv(s)
    ensures Inv(Run(s, cs))
    decreases |cs|
  {
    if cs != [] {
      StepKeepsInv(s, cs[0]);
      RunKeepsInv(Step(s, cs[0]), cs[1..]);
    }
  }

  /** No paint while hidden: from a hidden state, nothing touches the canvas until the
      wallpaper is shown again. */
  lemma {:induction false} HiddenStaysBlank(s: GifState, cs: seq<Callback>)
    requires !s.isVisible
    requires forall i :: 0 <= i < |cs| ==> !(cs[i].OnVisibilityChanged? && cs[i].visible)
    ensures Run(s, cs).canvas == s.canvas && !Run(s, cs).isVisible
    decreases |cs|
  {
    if cs != [] {
      HiddenStaysBlank(Step(s, cs[0]), cs[1..]);
    }
  }

  /** After teardown, and short of another onCreate, nothing is ever painted again. */
  lemma {:induction false} TornDownStaysBlank(s: GifState, cs: seq<Callback>)
    requires s.movie.None?
    requires forall i :: 0 <= i < |cs| ==> !cs[i].OnCreate?
    ensures Run(s, cs).canvas == s.canvas && Run(s, cs).movie.None?
    decreases |cs|
  {
    if cs != [] {
      TornDownStaysBlank(Step(s, cs[0]), cs[1..]);
    }
  }

  /** The engine object: the same state, held in fields and updated by its callbacks. */
  class GifWallpaperEngine {
    const gifPath: string
    var movie: Option<Movie>
    var hasSurfaceHolder: bool
    var isVisible: bool
    var movieStart: int
    var pending: nat
    var canvas: seq<CanvasEvent>

    function State(): GifState
      reads this
    {
      GifState(movie, hasSurfaceHolder, isVisible, movieStart, pending, canvas)
    }

    ghost predicate Valid()
      reads this
    {
      Inv(State())
    }

    constructor (gifPath: string)
      ensures this.gifPath == gifPath && State() == Initial && Valid()
    {
      this.gifPath := gifPath;
      movie := None;
      hasSurfaceHolder := false;
      isVisible := false;
      movieStart := 0;
      pending := 0;
      canvas := [];
    }

    method OnCreate(load: LoadOutcome, now: int)
      requires Valid()
      modifies this
      ensures Valid() && State() == AfterCreate(old(State()), load, now)
    {
      hasSurfaceHolder := true;
      LoadGif(load, now);
    }

    method LoadGif(load: LoadOutcome, now: int)
      requires Valid()
      modifies this
      ensures Valid()
      ensures State() == old(State()).(
                movie := if load.OpenFailed? then old(movie) else load.decoded,
                movieStart := if load.Decoded? then now else old(movieStart))
    {
      match load
      case OpenFailed =>
      case Decoded(m) =>
        movie := m;
        movieStart := now;
      case CloseFailed(m) =>
        movie := m;
    }

    method OnVisibilityChanged(visible: bool, now: int)
      requires Valid()
      modifies this
      ensures Valid() && State() == AfterVisibilityChanged(old(State()), visible, now)
    {
      isVisible := visible;
      if visible {
        movieStart := now;
        pending := pending + 1;
      } else {
        pending := 0;
      }
    }

    /** frameRunnable.run, as the handler delivers one pending post. */
    method RunFrame(now: int, canvasFree: bool)
      requires Valid() && pending > 0
      modifies this
      ensures Valid() && State() == AfterTick(old(State()), now, canvasFree)
    {
      StepKeepsInv(State(), FrameTick(now, canvasFree));
      pending := pending - 1;
      if isVisible && movie.Some? {
        DrawFrame(now, canvasFree);
        pending := pending + 1;
      }
    }

    method DrawFrame(now: int, canvasFree: bool)
      modifies this`canvas
      ensures canvas == old(canvas) + FrameEvents(hasSurfaceHolder, canvasFree, movie, movieStart, now)
    {
      if !hasSurfaceHolder || !canvasFree {
        return;
      }
      canvas := canvas + [Locked];
      if movie.Some? {
        var relTime := FrameTime(now, movieStart, movie.value.duration);
        canvas := canvas + [Frame(relTime)];
      }
      canvas := canvas + [Posted];
    }

    method OnSurfaceDestroyed()
      requires Valid()
      modifies this
      ensures Valid() && State() == AfterTeardown(old(State()))
    {
      pending := 0;
      movie := None;
    }

    method OnDestroy()
      requires Valid()
      modifies this
      ensures Valid() && State() == AfterTeardown(old(State()))
    {
      pending := 0;
      movie := None;
    }
  }
}
