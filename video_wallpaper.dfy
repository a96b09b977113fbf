/** VideoWallpaperEngine (AnimatedWallpaperService.kt): a media player bound to the
    wallpaper surface, driven by the surface lifecycle callbacks and by the player's own
    prepared and completion callbacks, all delivered on one thread.

    The engine's fields are `mediaPlayer`, `isVisible` and `wasPlaying`. The player is
    abstracted to a record, and every call the engine makes on a player is appended to a
    log, so that what the engine did (and did not do) to its players can be stated. */
module VideoWallpaper {
  import opened Wrappers

  /** Abstract view of an android.media.MediaPlayer. */
  datatype Player = Player(prepared: bool, playing: bool, position: nat)

  /** The calls the engine makes on its players, in order. */
  datatype PlayerCall =
    | Acquire                     // a player is built, bound to the surface and prepareAsync() issued
    | Start(whilePrepared: bool)  // start(); false when issued before preparation completed
    | Pause
    | SeekTo(ms: nat)
    | Release

  datatype EngineState = EngineState(
    mediaPlayer: Option<Player>,
    isVisible: bool,
    wasPlaying: bool,
    calls: seq<PlayerCall>)

  const Initial := EngineState(None, false, false, [])

  /** start() on the abstract player: playback begins only once preparation has completed. */
  function Started(p: Player): (r: Player)
    ensures r.prepared == p.prepared && r.position == p.position
    ensures r.playing <==> p.playing || p.prepared
    ensures !p.prepared ==> r == p
  {
    p.(playing := p.playing || p.prepared)
  }

  /** onCreate / initializePlayer: when building and configuring the player throws, the
      field is never assigned; otherwise it holds a fresh, still preparing player. */
  function AfterCreate(s: EngineState, acquired: bool): (r: EngineState)
    ensures acquired ==> r.mediaPlayer == Some(Player(false, false, 0)) && r.calls == s.calls + [Acquire]
    ensures !acquired ==> r == s
    ensures r.isVisible == s.isVisible && r.wasPlaying == s.wasPlaying
  {
    if acquired then s.(mediaPlayer := Some(Player(false, false, 0)), calls := s.calls + [Acquire]) else s
  }

  /** onVisibilityChanged */
  function AfterVisibilityChanged(s: EngineState, visible: bool): (r: EngineState)
    ensures r.isVisible == visible
    ensures r.mediaPlayer.Some? == s.mediaPlayer.Some?
    ensures s.mediaPlayer.None? ==> r == s.(isVisible := visible)
    ensures s.mediaPlayer.Some? ==>
              r.mediaPlayer.value.prepared == s.mediaPlayer.value.prepared
              && r.mediaPlayer.value.position == s.mediaPlayer.value.position
    // shown: the player plays (once prepared); start() is issued exactly when
    // wasPlaying held or the player was not playing
    ensures s.mediaPlayer.Some? && visible ==>
              r.mediaPlayer.value.playing == (s.mediaPlayer.value.playing || s.mediaPlayer.value.prepared)
              && if s.wasPlaying || !s.mediaPlayer.value.playing
                 then r.wasPlaying && r.calls == s.calls + [Start(s.mediaPlayer.value.prepared)]
                 else r == s.(isVisible := visible)
    // hidden: the player does not play; a playing player is paused
    ensures s.mediaPlayer.Some? && !visible ==>
              !r.mediaPlayer.value.playing
              && if s.mediaPlayer.value.playing
                 then !r.wasPlaying && r.calls == s.calls + [Pause]
                 else r == s.(isVisible := visible)
  {
    var shown := s.(isVisible := visible);
    match s.mediaPlayer
    case None => shown
    case Some(player) =>
      if visible then
        if s.wasPlaying || !player.playing then
          shown.(mediaPlayer := Some(Started(player)), wasPlaying := true,
                 calls := s.calls + [Start(player.prepared)])
        else shown
      else if player.playing then
        shown.(mediaPlayer := Some(player.(playing := false)), wasPlaying := false,
               calls := s.calls + [Pause])
      else shown
  }

  /** The prepared listener: the player is ready; it starts only if the wallpaper is visible. */
  function AfterPrepared(s: EngineState): (r: EngineState)
    requires s.mediaPlayer.Some?
    ensures r.mediaPlayer.Some? && r.mediaPlayer.value.prepared
    ensures r.mediaPlayer.value.position == s.mediaPlayer.value.position
    ensures r.mediaPlayer.value.playing == (s.isVisible || s.mediaPlayer.value.playing)
    ensures r.wasPlaying == (s.isVisible || s.wasPlaying)
    ensures r.calls == s.calls + (if s.isVisible then [Start(true)] else [])
    ensures r.isVisible == s.isVisible
  {
    var ready := s.mediaPlayer.value.(prepared := true);
    if s.isVisible then
      s.(mediaPlayer := Some(Started(ready)), wasPlaying := true, calls := s.calls + [Start(true)])
    else
      s.(mediaPlayer := Some(ready))
  }

  /** The completion listener: playback stopped at `at`; only while visible is the player
      rewound and restarted. */
  function AfterCompletion(s: EngineState, at: nat): (r: EngineState)
    requires s.mediaPlayer.Some?
    ensures r.mediaPlayer.Some? && r.mediaPlayer.value.prepared == s.mediaPlayer.value.prepared
    ensures s.isVisible ==>
              r.mediaPlayer.value.position == 0
              && r.mediaPlayer.value.playing == s.mediaPlayer.value.prepared
              && r.calls == s.calls + [SeekTo(0), Start(s.mediaPlayer.value.prepared)]
    ensures !s.isVisible ==>
              r.mediaPlayer.value.position == at && !r.mediaPlayer.value.playing && r.calls == s.calls
    ensures r.isVisible == s.isVisible && r.wasPlaying == s.wasPlaying
  {
    var stopped := s.mediaPlayer.value.(playing := false, position := at);
    if s.isVisible then
      s.(mediaPlayer := Some(Started(stopped.(position := 0))),
         calls := s.calls + [SeekTo(0)] + [Start(stopped.prepared)])
    else
      s.(mediaPlayer := Some(stopped))
  }

  /** releasePlayer: `mediaPlayer?.release()`, then the handle and wasPlaying are cleared. */
  function AfterRelease(s: EngineState): (r: EngineState)
    ensures r.mediaPlayer.None? && !r.wasPlaying && r.isVisible == s.isVisible
    ensures r.calls == s.calls + (if s.mediaPlayer.Some? then [Release] else [])
  {
    EngineState(None, s.isVisible, false, s.calls + (if s.mediaPlayer.Some? then [Release] else []))
  }

  /** Releasing twice (surface destroyed, then engine destroyed) is the same as releasing once. */
  lemma ReleaseIdempotent(s: EngineState)
    ensures AfterRelease(AfterRelease(s)) == AfterRelease(s)
  {
  }

  /** Every callback the engine can receive. */
  datatype Callback =
    | OnCreate(acquired: bool)
    | OnVisibilityChanged(visible: bool)
    | OnPrepared
    | OnCompletion(at: nat)
    | OnSurfaceDestroyed
    | OnDestroy

  /** One callback. A released player calls back nothing, so its listeners do not fire. */
  function Step(s: EngineState, c: Callback): (r: EngineState)
    ensures s.mediaPlayer.None? && (c.OnPrepared? || c.OnCompletion?) ==> r == s
    ensures s.mediaPlayer.None? && r.mediaPlayer.Some? ==> c.OnCreate?
    ensures (c.OnSurfaceDestroyed? || c.OnDestroy?) ==> r.mediaPlayer.None?
    ensures |s.calls| <= |r.calls| && r.calls[..|s.calls|] == s.calls
  {
    match c
    case OnCreate(acquired) => AfterCreate(s, acquired)
    case OnVisibilityChanged(visible) => AfterVisibilityChanged(s, visible)
    case OnPrepared => if s.mediaPlayer.Some? then AfterPrepared(s) else s
    case OnCompletion(at) => if s.mediaPlayer.Some? then AfterCompletion(s, at) else s
    case OnSurfaceDestroyed => AfterRelease(s)
    case OnDestroy => AfterRelease(s)
  }

  function Run(s: EngineState, cs: seq<Callback>): EngineState
    decreases |cs|
  {
    if cs == [] then s else Run(Step(s, cs[0]), cs[1..])
  }

  /** Whether the log leaves a player held: its last Acquire or Release is an Acquire. */
  ghost function Held(calls: seq<PlayerCall>): bool
    decreases |calls|
  {
    if calls == [] then false
    else if calls[|calls| - 1] == Acquire then true
    else if calls[|calls| - 1] == Release then false
    else Held(calls[..|calls| - 1])
  }

  /** Every Release in the log is issued while a player is held: no player is released twice. */
  ghost predicate ReleasesHeld(calls: seq<PlayerCall>)
    decreases |calls|
  {
    calls == []
    || ((calls[|calls| - 1] == Release ==> Held(calls[..|calls| - 1])) && ReleasesHeld(calls[..|calls| - 1]))
  }

  /** The engine's invariant: only a prepared player plays, no intent to play survives the
      player, the handle is present exactly while the log holds a player, and no player
      was ever released twice. */
  ghost predicate Inv(s: EngineState)
  {
    (s.mediaPlayer.Some? && s.mediaPlayer.value.playing ==> s.mediaPlayer.value.prepared)
    && (s.mediaPlayer.None? ==> !s.wasPlaying)
    && s.mediaPlayer.Some? == Held(s.calls)
    && ReleasesHeld(s.calls)
  }

  lemma HeldAppend(calls: seq<PlayerCall>, c: PlayerCall)
    ensures Held(calls + [c]) == (if c == Acquire then true else if c == Release then false else Held(calls))
    ensures ReleasesHeld(calls + [c]) == ((c == Release ==> Held(calls)) && ReleasesHeld(calls))
  {
    assert (calls + [c])[..|calls|] == calls;
  }

  /** Every callback keeps the invariant. */
  lemma StepKeepsInv(s: EngineState, c: Callback)
    requires Inv(s)
    ensures Inv(Step(s, c))
  {
    match c
    case OnCreate(acquired) =>
      HeldAppend(s.calls, Acquire);
    case OnVisibilityChanged(visible) =>
      if s.mediaPlayer.Some? {
        HeldAppend(s.calls, Start(s.mediaPlayer.value.prepared));
        HeldAppend(s.calls, Pause);
      }
    case OnPrepared =>
      HeldAppend(s.calls, Start(true));
    case OnCompletion(at) =>
      if s.mediaPlayer.Some? {
        HeldAppend(s.calls, SeekTo(0));
        HeldAppend(s.calls + [SeekTo(0)], Start(s.mediaPlayer.value.prepared));
      }
    case OnSurfaceDestroyed =>
      ReleaseKeepsInv(s);
    case OnDestroy =>
      ReleaseKeepsInv(s);
  }

  lemma ReleaseKeepsInv(s: EngineState)
    requires Inv(s)
    ensures Inv(AfterRelease(s))
  {
    if s.mediaPlayer.Some? {
      HeldAppend(s.calls, Release);
    } else {
      assert AfterRelease(s).calls == s.calls;
    }
  }

  /** From the initial state, any order of callbacks keeps the invariant; in particular no
      player is ever released twice and none is called after its release. */
  lemma {:induction false} RunKeepsInv(s: EngineState, cs: seq<Callback>)
    requires Inv(s)
    ensures Inv(Run(s, cs))
    decreases |cs|
  {
    if cs != [] {
      StepKeepsInv(s, cs[0]);
      RunKeepsInv(Step(s, cs[0]), cs[1..]);
    }
  }

  /** Once released, and until the next onCreate, the engine calls no player at all. */
  lemma {:induction false} ReleasedStaysSilent(s: EngineState, cs: seq<Callback>)
    requires s.mediaPlayer.None?
    requires forall i :: 0 <= i < |cs| ==> !cs[i].OnCreate?
    ensures Run(s, cs).mediaPlayer.None? && Run(s, cs).calls == s.calls
    decreases |cs|
  {
    if cs != [] {
      ReleasedStaysSilent(Step(s, cs[0]), cs[1..]);
    }
  }

  function Visibilities(vs: seq<bool>): (cs: seq<Callback>)
    ensures |cs| == |vs|
    ensures forall i :: 0 <= i < |vs| ==> cs[i] == OnVisibilityChanged(vs[i])
    decreases |vs|
  {
    if vs == [] then [] else [OnVisibilityChanged(vs[0])] + Visibilities(vs[1..])
  }

  /** Resume on show: through any run of hide/show changes of a prepared player, the
      player plays exactly when the last change showed the wallpaper, whatever wasPlaying
      was before the run. */
  lemma {:induction false} VisibilityRunPlays(s: EngineState, vs: seq<bool>)
    requires s.mediaPlayer.Some? && s.mediaPlayer.value.prepared && |vs| > 0
    ensures Run(s, Visibilities(vs)).mediaPlayer.Some?
    ensures Run(s, Visibilities(vs)).mediaPlayer.value.playing == vs[|vs| - 1]
    decreases |vs|
  {
    var s' := AfterVisibilityChanged(s, vs[0]);
    assert Visibilities(vs)[1..] == Visibilities(vs[1..]);
    if |vs| > 1 {
      VisibilityRunPlays(s', vs[1..]);
    }
  }

  /** The engine object: the same state, held in fields and updated by its callbacks. */
  class VideoWallpaperEngine {
    const videoPath: string
    var mediaPlayer: Option<Player>
    var isVisible: bool
    var wasPlaying: bool
    var calls: seq<PlayerCall>

    function State(): EngineState
      reads this
    {
      EngineState(mediaPlayer, isVisible, wasPlaying, calls)
    }

    ghost predicate Valid()
      reads this
    {
      Inv(State())
    }

    constructor (videoPath: string)
      ensures this.videoPath == videoPath && State() == Initial && Valid()
    {
      this.videoPath := videoPath;
      mediaPlayer := None;
      isVisible := false;
      wasPlaying := false;
      calls := [];
    }

    /** onCreate; `acquireThrows` is the outcome of building and configuring the player. */
    method OnCreate(acquireThrows: bool)
      requires Valid()
      modifies this
      ensures Valid() && State() == AfterCreate(old(State()), !acquireThrows)
    {
      StepKeepsInv(State(), Callback.OnCreate(!acquireThrows));
      if !acquireThrows {
        mediaPlayer := Some(Player(false, false, 0));
        calls := calls + [Acquire];
      }
    }

    method OnVisibilityChanged(visible: bool)
      requires Valid()
      modifies this
      ensures Valid() && State() == AfterVisibilityChanged(old(State()), visible)
    {
      StepKeepsInv(State(), Callback.OnVisibilityChanged(visible));
      isVisible := visible;
      if mediaPlayer.None? {
        return;
      }
      var player := mediaPlayer.value;
      if visible {
        if wasPlaying || !player.playing {
          calls := calls + [Start(player.prepared)];
          mediaPlayer := Some(Started(player));
          wasPlaying := true;
        }
      } else {
        if player.playing {
          calls := calls + [Pause];
          mediaPlayer := Some(player.(playing := false));
          wasPlaying := false;
        }
      }
    }

    /** The prepared listener, called back by the player the engine holds. */
    method OnPrepared()
      requires Valid() && mediaPlayer.Some?
      modifies this
      ensures Valid() && State() == AfterPrepared(old(State()))
    {
      StepKeepsInv(State(), Callback.OnPrepared);
      mediaPlayer := Some(mediaPlayer.value.(prepared := true));
      if isVisible {
        calls := calls + [Start(true)];
        mediaPlayer := Some(Started(mediaPlayer.value));
        wasPlaying := true;
      }
    }

    /** The completion listener, called back by the player the engine holds. */
    method OnCompletion(at: nat)
      requires Valid() && mediaPlayer.Some?
      modifies this
      ensures Valid() && State() == AfterCompletion(old(State()), at)
    {
      StepKeepsInv(State(), Callback.OnCompletion(at));
      mediaPlayer := Some(mediaPlayer.value.(playing := false, position := at));
      if isVisible {
        calls := calls + [SeekTo(0)];
        mediaPlayer := Some(mediaPlayer.value.(position := 0));
        calls := calls + [Start(mediaPlayer.value.prepared)];
        mediaPlayer := Some(Started(mediaPlayer.value));
      }
    }

    method OnSurfaceDestroyed()
      requires Valid()
      modifies this
      ensures Valid() && State() == AfterRelease(old(State()))
    {
      ReleasePlayer();
    }

    method OnDestroy()
      requires Valid()
      modifies this
      ensures Valid() && State() == AfterRelease(old(State()))
    {
      ReleasePlayer();
    }

    method ReleasePlayer()
      requires Valid()
      modifies this
      ensures Valid() && State() == AfterRelease(old(State()))
    {
      StepKeepsInv(State(), Callback.OnDestroy);
      if mediaPlayer.Some? {
        calls := calls + [Release];
      }
      mediaPlayer := None;
      wasPlaying := false;
    }
  }
}
