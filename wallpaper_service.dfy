/** AnimatedWallpaperService.onCreateEngine: the choice of the engine that renders one
    wallpaper session, from the media type and path read from the preferences and
    whether that file exists. */
module WallpaperService {
  import opened Wrappers
  import WallpaperPreferences

  /** The engine constructed, with the path it is bound to. */
  datatype Engine =
    | VideoWallpaperEngine(videoPath: string)
    | GifWallpaperEngine(gifPath: string)
    | EmptyWallpaperEngine

  /** `mediaPath != null && File(mediaPath).exists()`; `files` is the set of existing paths. */
  predicate Present(mediaPath: Option<string>, files: set<string>)
  {
    mediaPath.Some? && mediaPath.value in files
  }

  /** The `when (mediaType)` of onCreateEngine. */
  function SelectEngine(mediaType: Option<string>, mediaPath: Option<string>, files: set<string>): (e: Engine)
    ensures e.VideoWallpaperEngine? <==> mediaType == Some("video") && Present(mediaPath, files)
    ensures e.GifWallpaperEngine? <==> mediaType == Some("gif") && Present(mediaPath, files)
    ensures e.VideoWallpaperEngine? ==> mediaPath == Some(e.videoPath)
    ensures e.GifWallpaperEngine? ==> mediaPath == Some(e.gifPath)
  {
    if mediaType == Some("video") then
      if Present(mediaPath, files) then VideoWallpaperEngine(mediaPath.value) else EmptyWallpaperEngine
    else if mediaType == Some("gif") then
      if Present(mediaPath, files) then GifWallpaperEngine(mediaPath.value) else EmptyWallpaperEngine
    else
      EmptyWallpaperEngine
  }

  /** An engine never animates a file that is absent, and an unknown or missing type
      always yields the empty engine, whatever the path. */
  lemma EmptyUnlessPlayable(mediaType: Option<string>, mediaPath: Option<string>, files: set<string>)
    ensures mediaType !in {Some("video"), Some("gif")} ==> SelectEngine(mediaType, mediaPath, files) == EmptyWallpaperEngine
    ensures !Present(mediaPath, files) ==> SelectEngine(mediaType, mediaPath, files) == EmptyWallpaperEngine
  {
  }

  class AnimatedWallpaperService {
    var mediaPath: Option<string>
    var mediaType: Option<string>

    constructor ()
      ensures mediaPath == None && mediaType == None
    {
      mediaPath := None;
      mediaType := None;
    }

    /** Reads the two preferences into the service's fields, then selects the engine. */
    method OnCreateEngine(prefs: WallpaperPreferences.Store, files: set<string>) returns (e: Engine)
      modifies this
      ensures mediaPath == WallpaperPreferences.GetString(prefs, WallpaperPreferences.KeyMediaPath)
      ensures mediaType == WallpaperPreferences.GetString(prefs, WallpaperPreferences.KeyMediaType)
      ensures e == SelectEngine(mediaType, mediaPath, files)
    {
      mediaPath := WallpaperPreferences.GetString(prefs, WallpaperPreferences.KeyMediaPath);
      mediaType := WallpaperPreferences.GetString(prefs, WallpaperPreferences.KeyMediaType);
      e := SelectEngine(mediaType, mediaPath, files);
    }
  }
}
