# NeumoWall live wallpaper: a verified model

This project models the core of the NeumoWall Android app in Dafny. The core has two parts.

1. The live-wallpaper service, `AnimatedWallpaperService`:
   - the choice of engine in `onCreateEngine`;
   - the video engine, which drives a media player from the surface-lifecycle callbacks and the player's own callbacks;
   - the GIF engine, which paints a decoded `Movie` from a tick that re-posts itself on the main handler.
2. The method-channel bridge in `MainActivity`. It routes a `setWallpaper` request to one of two paths:
   - the live path stores the file in the preferences and launches the live-wallpaper picker;
   - the static path decodes a bitmap and hands it to the wallpaper manager.

All callbacks run on one thread. Each engine is modelled twice:
- as a value state with one pure step function per callback (`After…`), plus `Run` over any sequence of callbacks;
- as a class with the source's fields, whose methods update those fields in place and are proved equal to the step functions.

The external world is abstracted as follows:
- The media player is a record `{prepared, playing, position}`.
- Every call the video engine makes on a player goes into a log. This includes a `start()` issued before preparation finished, logged as `Start(false)`.
- The handler queue is a count of pending ticks.
- Each lock, frame and post on the canvas goes into a log.
- The clock is a parameter `now`.
- The file system is the set of existing paths.
- Every effect of the bridge goes into one appended log: preference writes, the picker launch, `setBitmap` calls and replies to the caller.
- The outcomes of platform calls are parameters: the SDK level, whether a bitmap decodes, whether `setBitmap` throws, and whether the picker launch throws.

Three details of the code that the model keeps:
- `wasPlaying` is set to true on a `start()` issued before preparation completed (AnimatedWallpaperService.kt:85-87). The model does the same.
- Showing the GIF engine posts a tick without removing one already pending (line 184). Two shows in a row therefore leave two self-reposting ticks queued. `AfterVisibilityChanged` states this as `pending + 1`.
- A GIF `Movie` whose duration is 0 throws on `%`. The model corrects this (see Findings).

## Model

| member | source | states |
|---|---|---|
| `WallpaperPreferences.GetString` | android/app/src/main/kotlin/com/example/neumowall/WallpaperPreferences.kt:19-29 | `getString(key, null)`: null exactly when the key was never written, otherwise the value last written. |
| `WallpaperService.SelectEngine` | android/app/src/main/kotlin/com/example/neumowall/AnimatedWallpaperService.kt:22-38 | The video engine is chosen exactly when the type is "video" and the path is non-null and exists. The GIF engine is chosen likewise for "gif". Either engine is bound to the path that was read. |
| `WallpaperService.EmptyUnlessPlayable` | android/app/src/main/kotlin/com/example/neumowall/AnimatedWallpaperService.kt:22-38 | An absent or unknown type, or a missing path or file, always yields the empty engine. |
| `WallpaperService.AnimatedWallpaperService.OnCreateEngine` | android/app/src/main/kotlin/com/example/neumowall/AnimatedWallpaperService.kt:17-38 | Both preferences are read into the service's fields, and the engine is the selection made from them. |
| `VideoWallpaper.Started` | android/app/src/main/kotlin/com/example/neumowall/AnimatedWallpaperService.kt:84-88 | `start()` on the abstract player: a prepared player plays, an unprepared one is left exactly as it was, and preparation and position never change. |
| `VideoWallpaper.AfterCreate` | android/app/src/main/kotlin/com/example/neumowall/AnimatedWallpaperService.kt:47-77 | When acquisition throws, the handle is never assigned and nothing changes. Otherwise the engine holds a fresh, unprepared, non-playing player, and the acquisition is logged. |
| `VideoWallpaper.AfterVisibilityChanged` | android/app/src/main/kotlin/com/example/neumowall/AnimatedWallpaperService.kt:79-95 | `isVisible` is always set. With no player, nothing else changes. On show, a prepared player plays. `start` is issued and `wasPlaying` set exactly when `wasPlaying` held or the player was not playing; otherwise nothing else changes. On hide, the player does not play. A playing player is paused and `wasPlaying` cleared; otherwise nothing else changes. |
| `VideoWallpaper.AfterPrepared` | android/app/src/main/kotlin/com/example/neumowall/AnimatedWallpaperService.kt:59-64 | The player becomes prepared. It starts, and `wasPlaying` is set, only if the wallpaper is visible. |
| `VideoWallpaper.AfterCompletion` | android/app/src/main/kotlin/com/example/neumowall/AnimatedWallpaperService.kt:66-71 | Only while visible is the player rewound to 0 and restarted. While hidden it stays stopped where it ended, and no call is made. |
| `VideoWallpaper.AfterRelease` | android/app/src/main/kotlin/com/example/neumowall/AnimatedWallpaperService.kt:107-111 | The handle becomes null and `wasPlaying` false. `release` is logged only when a player was held. |
| `VideoWallpaper.ReleaseIdempotent` | android/app/src/main/kotlin/com/example/neumowall/AnimatedWallpaperService.kt:97-111 | Surface destroyed followed by engine destroyed is the same as one release. |
| `VideoWallpaper.Step` | android/app/src/main/kotlin/com/example/neumowall/AnimatedWallpaperService.kt:42-111 | The callbacks the platform can deliver. A prepared or completion callback with no player held changes nothing, because a released player calls back nothing. Only `onCreate` brings a player back. Surface destroyed and engine destroyed always leave no player. The call log is only ever appended to. |
| `VideoWallpaper.StepKeepsInv` | android/app/src/main/kotlin/com/example/neumowall/AnimatedWallpaperService.kt:42-111 | Every callback keeps four facts: only a prepared player plays; `wasPlaying` is false without a player; the handle is present exactly while the call log holds a player; no player was released twice. |
| `VideoWallpaper.RunKeepsInv` | android/app/src/main/kotlin/com/example/neumowall/AnimatedWallpaperService.kt:42-111 | The invariant holds after any sequence of callbacks. |
| `VideoWallpaper.ReleasedStaysSilent` | android/app/src/main/kotlin/com/example/neumowall/AnimatedWallpaperService.kt:97-111 | After a release, no callback short of another `onCreate` calls any player or brings a handle back. |
| `VideoWallpaper.VisibilityRunPlays` | android/app/src/main/kotlin/com/example/neumowall/AnimatedWallpaperService.kt:79-95 | Through any run of hide and show changes, a prepared player plays exactly when the last change was a show, whatever `wasPlaying` was before. |
| `VideoWallpaper.VideoWallpaperEngine.constructor` | android/app/src/main/kotlin/com/example/neumowall/AnimatedWallpaperService.kt:42-45 | A new engine has no player and is neither visible nor playing. |
| `VideoWallpaper.VideoWallpaperEngine.OnCreate` | android/app/src/main/kotlin/com/example/neumowall/AnimatedWallpaperService.kt:47-77 | The fields change as `AfterCreate` says, and the invariant is kept. |
| `VideoWallpaper.VideoWallpaperEngine.OnVisibilityChanged` | android/app/src/main/kotlin/com/example/neumowall/AnimatedWallpaperService.kt:79-95 | The fields change as `AfterVisibilityChanged` says, and the invariant is kept. |
| `VideoWallpaper.VideoWallpaperEngine.OnPrepared` | android/app/src/main/kotlin/com/example/neumowall/AnimatedWallpaperService.kt:59-64 | The fields change as `AfterPrepared` says. |
| `VideoWallpaper.VideoWallpaperEngine.OnCompletion` | android/app/src/main/kotlin/com/example/neumowall/AnimatedWallpaperService.kt:66-71 | The fields change as `AfterCompletion` says. |
| `VideoWallpaper.VideoWallpaperEngine.OnSurfaceDestroyed` | android/app/src/main/kotlin/com/example/neumowall/AnimatedWallpaperService.kt:97-100 | Releases the player as `AfterRelease` says. |
| `VideoWallpaper.VideoWallpaperEngine.OnDestroy` | android/app/src/main/kotlin/com/example/neumowall/AnimatedWallpaperService.kt:102-105 | Releases the player as `AfterRelease` says. |
| `VideoWallpaper.VideoWallpaperEngine.ReleasePlayer` | android/app/src/main/kotlin/com/example/neumowall/AnimatedWallpaperService.kt:107-111 | `release` is issued only on a held player; the handle is cleared and `wasPlaying` reset. |
| `GifWallpaper.TruncRem` | android/app/src/main/kotlin/com/example/neumowall/AnimatedWallpaperService.kt:156 | Kotlin's Long `%`: the dividend equals the truncated quotient times the divisor plus the remainder. The remainder has the sign of the dividend and is smaller than the divisor in magnitude. |
| `GifWallpaper.RelTime` | android/app/src/main/kotlin/com/example/neumowall/AnimatedWallpaperService.kt:156 | For a positive duration, `relTime` lies strictly between -duration and duration, so `toInt()` keeps it. When `now >= movieStart`, it lies in `[0, duration)`. |
| `GifWallpaper.DriftFree` | android/app/src/main/kotlin/com/example/neumowall/AnimatedWallpaperService.kt:155-156 | Between any two ticks, the frame time advances by the elapsed clock time modulo the duration, however late the ticks ran. |
| `GifWallpaper.TimeShift` | android/app/src/main/kotlin/com/example/neumowall/AnimatedWallpaperService.kt:156 | The frame time depends only on `now - movieStart`. |
| `GifWallpaper.FrameTime` | android/app/src/main/kotlin/com/example/neumowall/AnimatedWallpaperService.kt:156 | Corrected frame time: 0 for a duration of 0, otherwise `relTime`. It is non-negative, and below the duration, once the epoch has passed. |
| `GifWallpaper.PairedConcat` | android/app/src/main/kotlin/com/example/neumowall/AnimatedWallpaperService.kt:149-177 | Appending one well-paired run of lock, frame and post events to another keeps the whole log well paired. |
| `GifWallpaper.FrameEvents` | android/app/src/main/kotlin/com/example/neumowall/AnimatedWallpaperService.kt:149-177 | Whenever a holder exists and `lockCanvas` yields a canvas, the canvas is locked once and posted exactly once, even when the movie is null. With a movie, exactly one frame is drawn in between, at the corrected frame time. With no movie, no frame is drawn. Otherwise nothing happens. |
| `GifWallpaper.DrawFrameAsWritten` | android/app/src/main/kotlin/com/example/neumowall/AnimatedWallpaperService.kt:149-177 | As written, `drawFrame` throws exactly when it has a canvas and a movie of duration 0. With a canvas it locks once and posts once, even when it throws, because of the `finally`. |
| `GifWallpaper.ZeroDurationThrows` | android/app/src/main/kotlin/com/example/neumowall/AnimatedWallpaperService.kt:156 | For a single-frame movie, the code as written locks, posts and throws. The corrected frame draws time 0. |
| `GifWallpaper.AsWrittenAgrees` | android/app/src/main/kotlin/com/example/neumowall/AnimatedWallpaperService.kt:149-177 | Wherever the code as written does not throw, it produces the same canvas events as `FrameEvents`. |
| `GifWallpaper.AfterCreate` | android/app/src/main/kotlin/com/example/neumowall/AnimatedWallpaperService.kt:132-147 | The holder is kept. If opening the stream fails, nothing else changes. A decode (possibly to null) sets the movie, and the epoch is set only if `close()` also succeeded. |
| `GifWallpaper.AfterVisibilityChanged` | android/app/src/main/kotlin/com/example/neumowall/AnimatedWallpaperService.kt:179-188 | Show resets the epoch to `now`, so the next frame time at that instant is 0. It adds one pending tick without removing any. Hide removes every pending tick. |
| `GifWallpaper.AfterTick` | android/app/src/main/kotlin/com/example/neumowall/AnimatedWallpaperService.kt:123-130 | A tick draws and re-posts itself exactly when the engine is visible with a movie. Otherwise it is consumed and the queue shrinks by one. |
| `GifWallpaper.AfterTeardown` | android/app/src/main/kotlin/com/example/neumowall/AnimatedWallpaperService.kt:190-200 | Destruction removes every pending tick and drops the movie. |
| `GifWallpaper.TeardownIdempotent` | android/app/src/main/kotlin/com/example/neumowall/AnimatedWallpaperService.kt:190-200 | Surface destroyed followed by engine destroyed is the same as one teardown. |
| `GifWallpaper.Step` | android/app/src/main/kotlin/com/example/neumowall/AnimatedWallpaperService.kt:123-200 | A tick is delivered only while one is pending; with none pending it changes nothing. The canvas log is only ever appended to. Only a pending tick on a visible engine with a movie paints. |
| `GifWallpaper.StepKeepsInv` | android/app/src/main/kotlin/com/example/neumowall/AnimatedWallpaperService.kt:115-200 | Every callback keeps the canvas log well paired (each lock followed by its post) and keeps the queue empty while hidden. |
| `GifWallpaper.RunKeepsInv` | android/app/src/main/kotlin/com/example/neumowall/AnimatedWallpaperService.kt:115-200 | The invariant holds after any sequence of callbacks. |
| `GifWallpaper.HiddenStaysBlank` | android/app/src/main/kotlin/com/example/neumowall/AnimatedWallpaperService.kt:123-188 | From a hidden state, no callback short of a show locks, draws or posts anything. |
| `GifWallpaper.TornDownStaysBlank` | android/app/src/main/kotlin/com/example/neumowall/AnimatedWallpaperService.kt:190-200 | After teardown, nothing is ever painted again short of another `onCreate`. |
| `GifWallpaper.GifWallpaperEngine.constructor` | android/app/src/main/kotlin/com/example/neumowall/AnimatedWallpaperService.kt:115-121 | A new engine has no movie, no holder, epoch 0 and nothing queued. |
| `GifWallpaper.GifWallpaperEngine.OnCreate` | android/app/src/main/kotlin/com/example/neumowall/AnimatedWallpaperService.kt:132-136 | The fields change as `AfterCreate` says. |
| `GifWallpaper.GifWallpaperEngine.LoadGif` | android/app/src/main/kotlin/com/example/neumowall/AnimatedWallpaperService.kt:138-147 | Only the movie and the epoch change, each according to how far loading got. |
| `GifWallpaper.GifWallpaperEngine.OnVisibilityChanged` | android/app/src/main/kotlin/com/example/neumowall/AnimatedWallpaperService.kt:179-188 | The fields change as `AfterVisibilityChanged` says. |
| `GifWallpaper.GifWallpaperEngine.RunFrame` | android/app/src/main/kotlin/com/example/neumowall/AnimatedWallpaperService.kt:123-130 | The fields change as `AfterTick` says, drawing with the corrected frame time, and the invariant is kept. |
| `GifWallpaper.GifWallpaperEngine.DrawFrame` | android/app/src/main/kotlin/com/example/neumowall/AnimatedWallpaperService.kt:149-177 | Appends exactly the events of `FrameEvents` to the canvas log, using the corrected frame time. |
| `GifWallpaper.GifWallpaperEngine.OnSurfaceDestroyed` | android/app/src/main/kotlin/com/example/neumowall/AnimatedWallpaperService.kt:190-194 | The fields change as `AfterTeardown` says. |
| `GifWallpaper.GifWallpaperEngine.OnDestroy` | android/app/src/main/kotlin/com/example/neumowall/AnimatedWallpaperService.kt:196-200 | The fields change as `AfterTeardown` says. |
| `MediaRouting.LastIndexOf` | android/app/src/main/kotlin/com/example/neumowall/MainActivity.kt:36 | Returns the position of the last occurrence of the character, with none after it, or -1 when it does not occur. |
| `MediaRouting.FileName` | android/app/src/main/kotlin/com/example/neumowall/MainActivity.kt:36 | The file name is the suffix of the path that starts just after the last '/' (the whole path when it has none), and it contains no '/'. |
| `MediaRouting.Extension` | android/app/src/main/kotlin/com/example/neumowall/MainActivity.kt:36 | The extension is a suffix of the path, contains no '.' or '/', and follows the last '.' of the file name (empty when there is none). |
| `MediaRouting.Lower` | android/app/src/main/kotlin/com/example/neumowall/MainActivity.kt:36 | Lower-cases every letter A-Z and keeps every other character. |
| `MediaRouting.LowerMatches` | android/app/src/main/kotlin/com/example/neumowall/MainActivity.kt:36-38 | Lower-casing an extension and comparing it with a lower-case word is the same as comparing it letter by letter, ignoring case. |
| `MediaRouting.Classify` | android/app/src/main/kotlin/com/example/neumowall/MainActivity.kt:36-38 | A file is a video iff its extension, ignoring case, is one of mp4, mov, avi, mkv, webm, 3gp, flv. It is a GIF iff its extension, ignoring case, is gif. |
| `MediaRouting.BitmapSource` | android/app/src/main/kotlin/com/example/neumowall/MainActivity.kt:121-143 | Null exactly for a missing file. Otherwise the video-frame or GIF-frame decoder is chosen exactly when the routing classification says video or GIF. |
| `MediaRouting.ChooseRoute` | android/app/src/main/kotlin/com/example/neumowall/MainActivity.kt:41-46 | The live path is taken iff the file is a video or GIF and the media type is not "image". Its kind is "video" for a video and "gif" otherwise. The static path keeps the caller's wallpaper type. |
| `Activity.HasBitmap` | android/app/src/main/kotlin/com/example/neumowall/MainActivity.kt:121-143 | `extractBitmapFromFile` yields a bitmap exactly when the file exists and its frame source decodes. |
| `Activity.BitmapCall` | android/app/src/main/kotlin/com/example/neumowall/MainActivity.kt:62-87 | On SDK N and later: home sets `FLAG_SYSTEM`, lock sets `FLAG_LOCK`, and both sets `FLAG_SYSTEM | FLAG_LOCK`, with no other bit. Before N, home and both use the flag-less call and lock makes no call. Unknown types make no call. |
| `Activity.StaticEffects` | android/app/src/main/kotlin/com/example/neumowall/MainActivity.kt:56-95 | Corrected static path. It replies exactly once, last, and writes no preference. It succeeds exactly when there is a bitmap, the type is settable on this SDK and `setBitmap` does not throw; it then sets the bitmap once. It replies the error code exactly when `setBitmap` throws. In every other failing case it replies only `success(false)`. |
| `Activity.StaticEffectsAsWritten` | android/app/src/main/kotlin/com/example/neumowall/MainActivity.kt:56-95 | The static path as written; its last effect is a reply. |
| `Activity.LockBeforeNRepliesTwice` | android/app/src/main/kotlin/com/example/neumowall/MainActivity.kt:71-78 | As written, "lock" before SDK N replies `success(false)` then `success(true)`, which breaks reply-once. The corrected path replies `success(false)` only. |
| `Activity.StaticAsWrittenAgrees` | android/app/src/main/kotlin/com/example/neumowall/MainActivity.kt:56-95 | Outside that case, the code as written and the corrected path produce the same effects. |
| `Activity.LiveEffects` | android/app/src/main/kotlin/com/example/neumowall/MainActivity.kt:97-115 | Stores the path, then the kind, then launches the picker and replies true. If the launch throws, it falls back to a static "home" wallpaper after the writes. It replies exactly once. |
| `Activity.CallEffects` | android/app/src/main/kotlin/com/example/neumowall/MainActivity.kt:21-54 | Another method replies `notImplemented`. A missing file replies `success(false)` and sets nothing. An existing file produces exactly the live path's effects for its kind, or the corrected static path's effects with the caller's wallpaper type, as the route decides. With the corrected static path, every call replies exactly once. Preferences are written exactly when the request is routed live. |
| `Activity.ApplyWrites` | android/app/src/main/kotlin/com/example/neumowall/WallpaperPreferences.kt:15-25 | The store after the `putString` writes of an effect log: writes never remove a key, and the last write leaves its value under its key. |
| `Activity.ApplyLiveWrites` | android/app/src/main/kotlin/com/example/neumowall/MainActivity.kt:97-101 | A live request leaves the store with the path and the kind written, and nothing else changed. |
| `Activity.LiveRequestSelectsEngine` | android/app/src/main/kotlin/com/example/neumowall/MainActivity.kt:97-101 | After a live request for an existing video or GIF, `onCreateEngine` reads that file back and builds the video or GIF engine for it, even when the picker launch threw. |
| `Activity.MainActivity.SetStaticWallpaper` | android/app/src/main/kotlin/com/example/neumowall/MainActivity.kt:56-95 | Appends exactly the effects of the corrected `StaticEffects` and leaves the preferences alone. |
| `Activity.MainActivity.SetLiveWallpaper` | android/app/src/main/kotlin/com/example/neumowall/MainActivity.kt:97-115 | Appends the effects of `LiveEffects` (its fallback is the corrected static path); the store gains the path and the kind. |
| `Activity.MainActivity.OnMethodCall` | android/app/src/main/kotlin/com/example/neumowall/MainActivity.kt:21-54 | Appends the effects of `CallEffects` (with the corrected static path) and applies their preference writes to the store. |

## Left out

- `VideoWallpaper.AfterVisibilityChanged`: "after a show the player is playing" is stated only for a prepared player. A `start()` issued before preparation completed is logged as `Start(false)` and leaves the model's player not playing. What the platform player really does in that case (an error state, and the completion callback after the error listener returns false) is not modelled.
- The video player's playback position does not advance. Only the position where a completion stopped it and the `seekTo(0)` are modelled. The `isLooping` flag, the error listener and surface binding are not modelled.
- A player built by a failed acquisition is not modelled. The source never assigns it and never releases it. The callbacks of a player orphaned by a second `onCreate` are not modelled either.
- The scale and translate float arithmetic of `drawFrame` is not modelled (AnimatedWallpaperService.kt:161-170). Neither are `canvas.save`/`restore` or the `Paint`.
- Handler timing is not modelled: the 16 ms cadence and real-time scheduling become a count of pending ticks.
- Overflow of `now - movieStart` in a 64-bit Long is not modelled, because uptime in milliseconds never comes near it.
- `Movie` decoding is not modelled. The stream open, the decode and the close are the three outcomes of `LoadOutcome`.
- `EmptyWallpaperEngine` has no behaviour of its own to model.
- WallpaperPreferences.kt is modelled only by its two keys, used as a map for reads and writes. The persistence, the asynchronous `apply()` and `clear()` are not modelled.
- `MediaRouting.Lower` maps only the letters A-Z. Other Unicode lower-casing that `lowercase()` performs is not modelled, such as the Kelvin sign becoming 'k'.
- `java.io.File` path normalisation is not modelled. The file name is simply what follows the last '/'.
- Method-channel argument casts are not modelled. They sit before the `try` (MainActivity.kt:24-27); the model takes the arguments already cast.
- The handler's outer `catch` (MainActivity.kt:47-49) is not modelled.
- What Flutter does with a second reply is not modelled.
- Of the exceptions in `setStaticWallpaper`, only a throwing `setBitmap` is modelled. `WallpaperManager.getInstance` is not. The frame extractors catch their own exceptions and appear only as a bitmap that decodes or not.
- The `Intent` and `startActivity` are modelled only as the picker launch succeeding or throwing.
- Logging (`printStackTrace`) is not modelled.

## Findings

| source | as written | input that shows it | evidently intended | confidence | as-written member | corrected member |
|---|---|---|---|---|---|---|
| android/app/src/main/kotlin/com/example/neumowall/MainActivity.kt:71-78 | On SDK < N, a "lock" request replies `success(false)` inside the `if`, then `success(true)` after it. | A request for an existing image with `wallpaperType` "lock" on SDK 23 (`LockBeforeNRepliesTwice`) | One reply, `success(false)` ("lock screen not supported") | high; not executed | `Activity.StaticEffectsAsWritten` | `Activity.StaticEffects` |
| android/app/src/main/kotlin/com/example/neumowall/AnimatedWallpaperService.kt:156 | `(now - movieStart) % movie.duration()` throws when the duration is 0, as it is for a single-frame GIF. The exception escapes the frame tick after the `finally` posts. | A visible GIF engine whose `Movie` has duration 0 (`ZeroDurationThrows`) | Draw the single frame at time 0 | medium; not executed | `GifWallpaper.DrawFrameAsWritten` | `GifWallpaper.FrameTime` |
