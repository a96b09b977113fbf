/** The shared-preferences store through which the method-channel bridge hands a media
    file to the wallpaper service (WallpaperPreferences.kt). Only the two keys and the
    reads and writes of strings are modelled; the store itself is a map. */
module WallpaperPreferences {
  import opened Wrappers

  const KeyMediaPath := "media_path"
  const KeyMediaType := "media_type"

  type Store = map<string, string>

  /** getString(key, null) */
  function GetString(store: Store, key: string): (r: Option<string>)
    ensures r.Some? <==> key in store
    ensures r.Some? ==> r.value == store[key]
  {
    if key in store then Some(store[key]) else None
  }
}
