/** MainActivity's method-channel handler (MainActivity.kt): a `setWallpaper` request is
    routed to the live-wallpaper path (store the file in the preferences, launch the
    picker) or the static path (decode a bitmap, hand it to the wallpaper manager).

    Everything the handler does to the outside world is appended to an effect log:
    preference writes, the picker launch, setBitmap calls and replies to the caller.
    The outcomes of the platform calls it cannot see are parameters (Platform). */
module Activity {
  import opened Wrappers
  import opened MediaRouting
  import WallpaperPreferences
  import WallpaperService

  const SetWallpaperMethod := "setWallpaper"
  const ErrorCode := "WALLPAPER_ERROR"

  /** WallpaperManager.FLAG_SYSTEM and FLAG_LOCK. */
  const FlagSystem: bv32 := 1
  const FlagLock: bv32 := 2

  /** Build.VERSION_CODES.N: the first SDK level with per-screen wallpapers. */
  const SdkN := 24

  /** The wallpaper types setStaticWallpaper knows. */
  const TargetTypes: set<string> := {"home", "lock", "both"}

  datatype Reply = Success(ok: bool) | Error(code: string) | NotImplemented

  datatype Effect =
    | PutString(key: string, value: string)  // a preference write
    | LaunchLivePicker                       // startActivity(ACTION_CHANGE_LIVE_WALLPAPER)
    | SetBitmap(which: Option<bv32>)         // setBitmap(bitmap, null, true, which), or setBitmap(bitmap)
    | Replied(reply: Reply)                  // result.success / error / notImplemented

  /** What the platform does when called: the SDK level, whether the frame source yields
      a bitmap, and whether setBitmap or the picker launch throws. */
  datatype Platform = Platform(sdk: int, frameDecodes: bool, setBitmapThrows: bool, pickerThrows: bool)

  /** The effects answer the caller once, with their last effect. */
  predicate RepliesOnceAtEnd(effects: seq<Effect>)
  {
    |effects| > 0 && effects[|effects| - 1].Replied?
    && forall i :: 0 <= i < |effects| - 1 ==> !effects[i].Replied?
  }

  /** The effects end with a `success(true)` reply. */
  predicate Succeeded(effects: seq<Effect>)
  {
    |effects| > 0 && effects[|effects| - 1] == Replied(Success(true))
  }

  predicate WritesNothing(effects: seq<Effect>)
  {
    forall i :: 0 <= i < |effects| ==> !effects[i].PutString?
  }

  /** extractBitmapFromFile(filePath) != null */
  predicate HasBitmap(filePath: string, files: set<string>, p: Platform): (b: bool)
    ensures b <==> filePath in files && p.frameDecodes
  {
    BitmapSource(filePath, files).Some? && p.frameDecodes
  }

  // ---------------------------------------------------------------------------
  // setStaticWallpaper

  /** The setBitmap call setStaticWallpaper makes for a wallpaper type, if any: on SDK N
      and later with the flags of the chosen screens, before it the flag-less call for
      "home" and "both", and none for "lock" (or an unknown type). */
  function BitmapCall(wallpaperType: string, sdk: int): (call: Option<Effect>)
    ensures call.Some? <==> wallpaperType in TargetTypes && !(wallpaperType == "lock" && sdk < SdkN)
    ensures call.Some? ==> call.value.SetBitmap?
    ensures call.Some? && sdk < SdkN ==> call.value.which.None?
    ensures call.Some? && sdk >= SdkN ==>
              call.value.which.Some?
              && (call.value.which.value & FlagSystem != 0 <==> wallpaperType != "lock")
              && (call.value.which.value & FlagLock != 0 <==> wallpaperType != "home")
              && call.value.which.value & !(FlagSystem | FlagLock) == 0
  {
    if wallpaperType == "home" then
      Some(SetBitmap(if sdk >= SdkN then Some(FlagSystem) else None))
    else if wallpaperType == "lock" then
      if sdk >= SdkN then Some(SetBitmap(Some(FlagLock))) else None
    else if wallpaperType == "both" then
      Some(SetBitmap(if sdk >= SdkN then Some(FlagSystem | FlagLock) else None))
    else
      None
  }

  /** setStaticWallpaper, with the lock screen on SDKs before N answered by one
      `success(false)`: the request succeeds exactly when there is a bitmap, the type is
      settable on this SDK and setBitmap does not throw; it then sets the bitmap once,
      and otherwise sets nothing. */
  function StaticEffects(hasBitmap: bool, wallpaperType: string, p: Platform): (r: seq<Effect>)
    ensures RepliesOnceAtEnd(r) && WritesNothing(r)
    ensures Succeeded(r) <==> hasBitmap && BitmapCall(wallpaperType, p.sdk).Some? && !p.setBitmapThrows
    ensures Succeeded(r) ==> r == [BitmapCall(wallpaperType, p.sdk).value, Replied(Success(true))]
    ensures !Succeeded(r) ==> |r| == 1
    ensures r[|r| - 1] == Replied(Error(ErrorCode)) <==>
              hasBitmap && BitmapCall(wallpaperType, p.sdk).Some? && p.setBitmapThrows
    ensures !Succeeded(r) && !(hasBitmap && BitmapCall(wallpaperType, p.sdk).Some? && p.setBitmapThrows) ==>
              r == [Replied(Success(false))]
  {
    if !hasBitmap then [Replied(Success(false))]
    else match BitmapCall(wallpaperType, p.sdk)
      case None => [Replied(Success(false))]
      case Some(call) =>
        if p.setBitmapThrows then [Replied(Error(ErrorCode))] else [call, Replied(Success(true))]
  }

  /** setStaticWallpaper exactly as written: on SDKs before N a "lock" request replies
      `success(false)` and then, after the `if`, `success(true)`. */
  function StaticEffectsAsWritten(hasBitmap: bool, wallpaperType: string, p: Platform): (r: seq<Effect>)
    ensures |r| > 0 && r[|r| - 1].Replied?
  {
    if !hasBitmap then [Replied(Success(false))]
    else if wallpaperType == "home" then
      if p.setBitmapThrows then [Replied(Error(ErrorCode))]
      else [SetBitmap(if p.sdk >= SdkN then Some(FlagSystem) else None), Replied(Success(true))]
    else if wallpaperType == "lock" then
      if p.sdk >= SdkN then
        if p.setBitmapThrows then [Replied(Error(ErrorCode))]
        else [SetBitmap(Some(FlagLock)), Replied(Success(true))]
      else [Replied(Success(false)), Replied(Success(true))]
    else if wallpaperType == "both" then
      if p.setBitmapThrows then [Replied(Error(ErrorCode))]
      else [SetBitmap(if p.sdk >= SdkN then Some(FlagSystem | FlagLock) else None), Replied(Success(true))]
    else
      [Replied(Success(false))]
  }

  /** The double reply: a "lock" request on an SDK before N answers twice, first false,
      then true, although no wallpaper was set. */
  lemma LockBeforeNRepliesTwice(p: Platform)
    requires p.sdk < SdkN
    ensures StaticEffectsAsWritten(true, "lock", p) == [Replied(Success(false)), Replied(Success(true))]
    ensures !RepliesOnceAtEnd(StaticEffectsAsWritten(true, "lock", p))
    ensures StaticEffects(true, "lock", p) == [Replied(Success(false))]
  {
    assert StaticEffectsAsWritten(true, "lock", p)[0].Replied?;
  }

  /** Everywhere else the code as written does what StaticEffects does. */
  lemma StaticAsWrittenAgrees(hasBitmap: bool, wallpaperType: string, p: Platform)
    requires !(hasBitmap && wallpaperType == "lock" && p.sdk < SdkN)
    ensures StaticEffectsAsWritten(hasBitmap, wallpaperType, p) == StaticEffects(hasBitmap, wallpaperType, p)
  {
  }

  // ---------------------------------------------------------------------------
  // setLiveWallpaper and the handler

  /** setLiveWallpaper: store the path, then the kind, then launch the picker and reply
      true; when the launch throws, fall back to a static "home" wallpaper (the two
      preference writes have already happened). */
  function LiveEffects(filePath: string, kind: string, hasBitmap: bool, p: Platform): (r: seq<Effect>)
    ensures RepliesOnceAtEnd(r) && |r| >= 3
    ensures r[0] == PutString(WallpaperPreferences.KeyMediaPath, filePath)
    ensures r[1] == PutString(WallpaperPreferences.KeyMediaType, kind)
    ensures WritesNothing(r[2..])
    ensures !p.pickerThrows ==> r[2..] == [LaunchLivePicker, Replied(Success(true))]
    ensures p.pickerThrows ==> r[2..] == StaticEffects(hasBitmap, "home", p)
  {
    var stored := [PutString(WallpaperPreferences.KeyMediaPath, filePath),
                   PutString(WallpaperPreferences.KeyMediaType, kind)];
    var rest := if p.pickerThrows then StaticEffects(hasBitmap, "home", p)
                else [LaunchLivePicker, Replied(Success(true))];
    assert (stored + rest)[2..] == rest;
    stored + rest
  }

  /** The method-channel handler, for a call with the given (already cast) arguments. */
  function CallEffects(callMethod: string, filePath: string, wallpaperType: string, mediaType: Option<string>,
                       files: set<string>, p: Platform): (r: seq<Effect>)
    ensures RepliesOnceAtEnd(r)
    ensures callMethod != SetWallpaperMethod ==> r == [Replied(NotImplemented)]
    ensures callMethod == SetWallpaperMethod && filePath !in files ==> r == [Replied(Success(false))]
    ensures !WritesNothing(r) <==>
              callMethod == SetWallpaperMethod && filePath in files
              && ChooseRoute(Classify(filePath), mediaType, wallpaperType).Live?
    ensures callMethod == SetWallpaperMethod && filePath in files ==>
              r == match ChooseRoute(Classify(filePath), mediaType, wallpaperType)
                   case Live(kind) => LiveEffects(filePath, kind, HasBitmap(filePath, files, p), p)
                   case Static(t) => StaticEffects(HasBitmap(filePath, files, p), wallpaperType, p)
  {
    if callMethod != SetWallpaperMethod then [Replied(NotImplemented)]
    else if filePath !in files then [Replied(Success(false))]
    else
      var hasBitmap := HasBitmap(filePath, files, p);
      match ChooseRoute(Classify(filePath), mediaType, wallpaperType)
      case Live(kind) =>
        var r := LiveEffects(filePath, kind, hasBitmap, p);
        assert r[0].PutString?;
        r
      case Static(t) => StaticEffects(hasBitmap, t, p)
  }

  // ---------------------------------------------------------------------------
  // The preferences the effects leave behind

  /** The store after the log's preference writes. */
  function ApplyWrites(store: WallpaperPreferences.Store, effects: seq<Effect>): (r: WallpaperPreferences.Store)
    ensures store.Keys <= r.Keys
    ensures |effects| > 0 && effects[|effects| - 1].PutString? ==>
              effects[|effects| - 1].key in r && r[effects[|effects| - 1].key] == effects[|effects| - 1].value
    decreases |effects|
  {
    if effects == [] then store
    else
      var next := if effects[0].PutString? then store[effects[0].key := effects[0].value] else store;
      ApplyWrites(next, effects[1..])
  }

  lemma {:induction false} ApplyWritesConcat(store: WallpaperPreferences.Store, a: seq<Effect>, b: seq<Effect>)
    ensures ApplyWrites(store, a + b) == ApplyWrites(ApplyWrites(store, a), b)
    decreases |a|
  {
    if a == [] {
      assert a + b == b;
    } else {
      assert (a + b)[0] == a[0] && (a + b)[1..] == a[1..] + b;
      var next := if a[0].PutString? then store[a[0].key := a[0].value] else store;
      ApplyWritesConcat(next, a[1..], b);
    }
  }

  lemma {:induction false} ApplyNoWrites(store: WallpaperPreferences.Store, effects: seq<Effect>)
    requires WritesNothing(effects)
    ensures ApplyWrites(store, effects) == store
    decreases |effects|
  {
    if effects != [] {
      ApplyNoWrites(store, effects[1..]);
    }
  }

  /** A live request leaves the path and the kind in the store, and nothing else changed. */
  lemma ApplyLiveWrites(store: WallpaperPreferences.Store, filePath: string, kind: string, hasBitmap: bool, p: Platform)
    ensures ApplyWrites(store, LiveEffects(filePath, kind, hasBitmap, p))
            == store[WallpaperPreferences.KeyMediaPath := filePath][WallpaperPreferences.KeyMediaType := kind]
  {
    var r := LiveEffects(filePath, kind, hasBitmap, p);
    assert r == [r[0]] + ([r[1]] + r[2..]);
    ApplyWritesConcat(store, [r[0]], [r[1]] + r[2..]);
    var once := store[WallpaperPreferences.KeyMediaPath := filePath];
    assert ApplyWrites(store, [r[0]]) == once;
    ApplyWritesConcat(once, [r[1]], r[2..]);
    assert ApplyWrites(once, [r[1]]) == once[WallpaperPreferences.KeyMediaType := kind];
    ApplyNoWrites(once[WallpaperPreferences.KeyMediaType := kind], r[2..]);
  }

  /** The bridge and the wallpaper service agree: after a live request for an existing
      video (or GIF), the next onCreateEngine reads back that file and kind and builds
      the video (or GIF) engine for it, whether or not the picker launch threw. */
  lemma LiveRequestSelectsEngine(store: WallpaperPreferences.Store, filePath: string, wallpaperType: string,
                                 mediaType: Option<string>, files: set<string>, p: Platform)
    requires filePath in files
    requires ChooseRoute(Classify(filePath), mediaType, wallpaperType).Live?
    ensures var after := ApplyWrites(store, CallEffects(SetWallpaperMethod, filePath, wallpaperType, mediaType, files, p));
            var engine := WallpaperService.SelectEngine(
              WallpaperPreferences.GetString(after, WallpaperPreferences.KeyMediaType),
              WallpaperPreferences.GetString(after, WallpaperPreferences.KeyMediaPath),
              files);
            engine == if Classify(filePath) == VideoFile then WallpaperService.VideoWallpaperEngine(filePath)
                      else WallpaperService.GifWallpaperEngine(filePath)
  {
    var cls := Classify(filePath);
    var kind := ChooseRoute(cls, mediaType, wallpaperType).kind;
    assert kind == "video" <==> cls == VideoFile;
    var hasBitmap := HasBitmap(filePath, files, p);
    assert CallEffects(SetWallpaperMethod, filePath, wallpaperType, mediaType, files, p)
           == LiveEffects(filePath, kind, hasBitmap, p);
    ApplyLiveWrites(store, filePath, kind, hasBitmap, p);
    var after := store[WallpaperPreferences.KeyMediaPath := filePath][WallpaperPreferences.KeyMediaType := kind];
    assert WallpaperPreferences.GetString(after, WallpaperPreferences.KeyMediaType) == Some(kind);
    assert WallpaperPreferences.GetString(after, WallpaperPreferences.KeyMediaPath) == Some(filePath);
  }

  // ---------------------------------------------------------------------------
  // The activity

  class MainActivity {
    var prefs: WallpaperPreferences.Store
    var effects: seq<Effect>

    constructor (prefs: WallpaperPreferences.Store)
      ensures this.prefs == prefs && effects == []
    {
      this.prefs := prefs;
      effects := [];
    }

    /** Records one effect; a preference write also updates the store. */
    method Emit(e: Effect)
      modifies this
      ensures effects == old(effects) + [e]
      ensures prefs == ApplyWrites(old(prefs), [e])
    {
      effects := effects + [e];
      if e.PutString? {
        prefs := prefs[e.key := e.value];
      }
    }

    method SetStaticWallpaper(filePath: string, wallpaperType: string, files: set<string>, p: Platform)
      modifies this
      ensures effects == old(effects) + StaticEffects(HasBitmap(filePath, files, p), wallpaperType, p)
      ensures prefs == old(prefs)
    {
      var hasBitmap := HasBitmap(filePath, files, p);
      if !hasBitmap {
        Emit(Replied(Success(false)));
        return;
      }
      if wallpaperType == "home" || wallpaperType == "both" {
        if p.setBitmapThrows {
          Emit(Replied(Error(ErrorCode)));
        } else {
          var which := if wallpaperType == "home" then FlagSystem else FlagSystem | FlagLock;
          Emit(SetBitmap(if p.sdk >= SdkN then Some(which) else None));
          Emit(Replied(Success(true)));
        }
      } else if wallpaperType == "lock" {
        if p.sdk >= SdkN {
          if p.setBitmapThrows {
            Emit(Replied(Error(ErrorCode)));
          } else {
            Emit(SetBitmap(Some(FlagLock)));
            Emit(Replied(Success(true)));
          }
        } else {
          Emit(Replied(Success(false)));
        }
      } else {
        Emit(Replied(Success(false)));
      }
    }

    method SetLiveWallpaper(filePath: string, kind: string, files: set<string>, p: Platform)
      modifies this
      ensures effects == old(effects) + LiveEffects(filePath, kind, HasBitmap(filePath, files, p), p)
      ensures prefs == old(prefs)[WallpaperPreferences.KeyMediaPath := filePath][WallpaperPreferences.KeyMediaType := kind]
    {
      Emit(PutString(WallpaperPreferences.KeyMediaPath, filePath));
      Emit(PutString(WallpaperPreferences.KeyMediaType, kind));
      if p.pickerThrows {
        SetStaticWallpaper(filePath, "home", files, p);
      } else {
        Emit(LaunchLivePicker);
        Emit(Replied(Success(true)));
      }
    }

    /** The handler installed in configureFlutterEngine. */
    method OnMethodCall(callMethod: string, filePath: string, wallpaperType: string, mediaType: Option<string>,
                        files: set<string>, p: Platform)
      modifies this
      ensures effects == old(effects) + CallEffects(callMethod, filePath, wallpaperType, mediaType, files, p)
      ensures prefs == ApplyWrites(old(prefs), CallEffects(callMethod, filePath, wallpaperType, mediaType, files, p))
    {
      if callMethod != SetWallpaperMethod {
        Emit(Replied(NotImplemented));
        return;
      }
      if filePath !in files {
        Emit(Replied(Success(false)));
        return;
      }
      var cls := Classify(filePath);
      var isVideo := cls == VideoFile;
      var isGif := cls == GifFile;
      if (isVideo || isGif) && mediaType != Some("image") {
        var kind := if isVideo then "video" else "gif";
        SetLiveWallpaper(filePath, kind, files, p);
        ApplyLiveWrites(old(prefs), filePath, kind, HasBitmap(filePath, files, p), p);
      } else {
        SetStaticWallpaper(filePath, wallpaperType, files, p);
        ApplyNoWrites(old(prefs), StaticEffects(HasBitmap(filePath, files, p), wallpaperType, p));
      }
    }
  }
}
