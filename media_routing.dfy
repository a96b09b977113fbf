/** The pure decisions of MainActivity (MainActivity.kt): the file extension and its
    classification, the choice between a live and a static wallpaper, and the frame
    source extractBitmapFromFile dispatches to. */
module MediaRouting {
  import opened Wrappers

  /** The index of the last `c` in `s`, or -1. */
  function LastIndexOf(s: string, c: char): (r: int)
    ensures -1 <= r < |s|
    ensures r >= 0 ==> s[r] == c
    ensures forall k :: r < k < |s| ==> s[k] != c
    decreases |s|
  {
    if s == [] then -1
    else if s[|s| - 1] == c then |s| - 1
    else LastIndexOf(s[..|s| - 1], c)
  }

  /** java.io.File's name: what follows the last '/' (all of the path when it has none). */
  function FileName(path: string): (name: string)
    ensures '/' !in name
    ensures |name| <= |path| && name == path[|path| - |name|..]
    ensures |name| == |path| - 1 - LastIndexOf(path, '/')
  {
    path[LastIndexOf(path, '/') + 1..]
  }

  /** Kotlin's File.extension: what follows the last '.' of the file's name, or "". */
  function Extension(path: string): (ext: string)
    ensures '.' !in ext && '/' !in ext
    ensures |ext| <= |path| && ext == path[|path| - |ext|..]
    ensures ext != [] ==> |ext| < |path| && path[|path| - |ext| - 1] == '.'
    ensures '.' in FileName(path) ==> FileName(path)[|FileName(path)| - |ext| - 1] == '.'
  {
    var name := FileName(path);
    var dot := LastIndexOf(name, '.');
    if dot < 0 then "" else name[dot + 1..]
  }

  predicate IsUpper(c: char)
  {
    'A' <= c <= 'Z'
  }

  function LowerChar(c: char): char
  {
    if IsUpper(c) then (c as int + 32) as char else c
  }

  /** String.lowercase(), on the letters A to Z. */
  function Lower(s: string): (r: string)
    ensures |r| == |s|
    ensures forall i :: 0 <= i < |s| ==> r[i] == LowerChar(s[i])
    decreases |s|
  {
    if s == [] then [] else [LowerChar(s[0])] + Lower(s[1..])
  }

  /** `x` spells the lower-case word `w`, each letter in either case. */
  predicate CaseVariant(x: string, w: string)
  {
    |x| == |w|
    && forall i :: 0 <= i < |x| ==> x[i] == w[i] || (IsUpper(x[i]) && x[i] as int + 32 == w[i] as int)
  }

  predicate LowerWord(w: string)
  {
    forall i :: 0 <= i < |w| ==> !IsUpper(w[i])
  }

  /** Lower-casing first and then comparing with a lower-case word is comparing while
      ignoring case. */
  lemma LowerMatches(x: string, w: string)
    requires LowerWord(w)
    ensures Lower(x) == w <==> CaseVariant(x, w)
  {
    if CaseVariant(x, w) {
      forall i | 0 <= i < |x|
        ensures Lower(x)[i] == w[i]
      {
        assert !IsUpper(w[i]);
      }
    }
  }

  const VideoExtensions: seq<string> := ["mp4", "mov", "avi", "mkv", "webm", "3gp", "flv"]
  const GifExtension: string := "gif"

  datatype MediaClass = VideoFile | GifFile | OtherFile

  /** `isVideo` and `isGif` of setWallpaper: the extension, lower-cased, is in the video
      list, or is "gif". */
  function Classify(path: string): (r: MediaClass)
    ensures r == VideoFile <==> exists w :: w in VideoExtensions && CaseVariant(Extension(path), w)
    ensures r == GifFile <==> CaseVariant(Extension(path), GifExtension)
  {
    var ext := Lower(Extension(path));
    forall w | w in VideoExtensions + [GifExtension]
      ensures ext == w <==> CaseVariant(Extension(path), w)
    {
      LowerMatches(Extension(path), w);
    }
    if ext in VideoExtensions then VideoFile
    else if ext == GifExtension then GifFile
    else OtherFile
  }

  /** The frame source extractBitmapFromFile uses. */
  datatype FrameSource = VideoFrame | GifFirstFrame | ImageDecode

  /** extractBitmapFromFile's dispatch: null for a missing file, otherwise by its own
      `when` on the lower-cased extension, which agrees with Classify. */
  function BitmapSource(path: string, files: set<string>): (r: Option<FrameSource>)
    ensures r.None? <==> path !in files
    ensures r == Some(VideoFrame) <==> path in files && Classify(path) == VideoFile
    ensures r == Some(GifFirstFrame) <==> path in files && Classify(path) == GifFile
  {
    if path !in files then None
    else
      var ext := Lower(Extension(path));
      assert Classify(path) == if ext in VideoExtensions then VideoFile else if ext == GifExtension then GifFile else OtherFile;
      assert ext in VideoExtensions <==>
        ext == "mp4" || ext == "mov" || ext == "avi" || ext == "mkv" || ext == "webm" || ext == "3gp" || ext == "flv";
      if ext == "mp4" || ext == "mov" || ext == "avi" || ext == "mkv" || ext == "webm" || ext == "3gp" || ext == "flv"
      then Some(VideoFrame)
      else if ext == "gif" then Some(GifFirstFrame)
      else Some(ImageDecode)
  }

  /** Where setWallpaper sends a request for an existing file. */
  datatype Route = Live(kind: string) | Static(wallpaperType: string)

  /** Videos and GIFs go live unless the caller asked for "image"; the live kind is
      "video" or "gif"; everything else goes static with the caller's wallpaper type. */
  function ChooseRoute(cls: MediaClass, mediaType: Option<string>, wallpaperType: string): (r: Route)
    ensures r.Live? <==> cls != OtherFile && mediaType != Some("image")
    ensures r.Live? ==> r.kind == (if cls == VideoFile then "video" else "gif")
    ensures r.Static? ==> r.wallpaperType == wallpaperType
  {
    var isVideo := cls == VideoFile;
    var isGif := cls == GifFile;
    if (isVideo || isGif) && mediaType != Some("image") then Live(if isVideo then "video" else "gif")
    else Static(wallpaperType)
  }
}
