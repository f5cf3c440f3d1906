/**
 * The browser fallbacks of the `useElectron` hook, used when the page does not
 * run inside Electron: the platform guess from the user agent, the download
 * name of a saved file, and the results of saving and opening.
 */
module Electron {
  import opened Text

  /** `getPlatform` outside Electron: the lower-cased user agent is searched for `win`, then `mac`, then `linux`. */
  function PlatformOf(userAgent: string): (r: string)
    ensures r in ["win32", "darwin", "linux", "unknown"]
  {
    var ua := ToLower(userAgent);
    if Contains(ua, "win") then "win32"
    else if Contains(ua, "mac") then "darwin"
    else if Contains(ua, "linux") then "linux"
    else "unknown"
  }

  /** Each platform is reported exactly when its marker is the first of the three to be found. */
  lemma PlatformOrder(userAgent: string)
    ensures var ua := ToLower(userAgent);
      (PlatformOf(userAgent) == "win32" <==> Contains(ua, "win"))
      && (PlatformOf(userAgent) == "darwin" <==> !Contains(ua, "win") && Contains(ua, "mac"))
      && (PlatformOf(userAgent) == "linux" <==> !Contains(ua, "win") && !Contains(ua, "mac") && Contains(ua, "linux"))
      && (PlatformOf(userAgent) == "unknown" <==> !Contains(ua, "win") && !Contains(ua, "mac") && !Contains(ua, "linux"))
  {
  }

  /** The platform does not depend on the letter case of the user agent. */
  lemma {:induction false} PlatformIgnoresCase(userAgent: string)
    ensures PlatformOf(ToLower(userAgent)) == PlatformOf(userAgent)
  {
    ToLowerIdempotent(userAgent);
  }

  /** A Windows user agent is reported as Windows even when it also names another system. */
  lemma {:induction false} WindowsWins(before: string, after: string)
    ensures PlatformOf(before + "Win" + after) == "win32"
  {
    var s := before + "Win" + after;
    var ua := ToLower(s);
    assert ua[|before|..|before| + 3] == "win";
    assert OccursAt(ua, "win", |before|);
    ContainsIffOccurs(ua, "win");
  }

  /** `path.split('/').pop()`: the text after the last `/`, or the whole path without one. */
  function LastSegment(path: string): (r: string)
    ensures '/' !in r
    ensures |r| <= |path| && r == path[|path| - |r|..]
    ensures |r| < |path| ==> path[|path| - |r| - 1] == '/'
    decreases |path|
  {
    if path == [] || path[|path| - 1] == '/' then []
    else LastSegment(path[..|path| - 1]) + [path[|path| - 1]]
  }

  /** A name without `/` is its own last segment. */
  lemma {:induction false} LastSegmentOfName(name: string)
    requires '/' !in name
    ensures LastSegment(name) == name
    decreases |name|
  {
    if name != [] {
      var init := name[..|name| - 1];
      LastSegmentOfName(init);
      assert name == init + [name[|name| - 1]];
    }
  }

  /** A name without `/` after a directory ending in `/` is the last segment. */
  lemma {:induction false} LastSegmentAfterSlash(dir: string, name: string)
    requires dir != [] && dir[|dir| - 1] == '/' && '/' !in name
    ensures LastSegment(dir + name) == name
    decreases |name|
  {
    if name == [] {
      assert dir + name == dir;
    } else {
      var init := name[..|name| - 1];
      LastSegmentAfterSlash(dir, init);
      var p := dir + name;
      assert p[..|p| - 1] == dir + init;
      assert name == init + [name[|name| - 1]];
    }
  }

  /** Joining a directory and a name with `/` and taking the last segment gives the name back. */
  lemma LastSegmentOfJoin(dir: string, name: string)
    requires '/' !in name
    ensures LastSegment(dir + "/" + name) == name
  {
    LastSegmentAfterSlash(dir + "/", name);
  }

  datatype SaveResult = SaveResult(success: bool, downloadName: string)

  /** `saveFile` outside Electron: a download named after the last segment, always reported as a success. */
  function SaveFileFallback(defaultPath: string): (r: SaveResult)
    ensures r.success && '/' !in r.downloadName
    ensures |r.downloadName| <= |defaultPath| && r.downloadName == defaultPath[|defaultPath| - |r.downloadName|..]
  {
    SaveResult(true, LastSegment(defaultPath))
  }

  /** `openFile` outside Electron always fails. */
  function OpenFileFallback(defaultPath: string): (success: bool)
    ensures !success
  {
    false
  }
}
