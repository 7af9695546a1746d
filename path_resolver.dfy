/** The path resolver handed to the script compiler: both `getPath`
    overloads of `createPathResolver` (BasicTest.java:119-159). */
module PathResolver {
  import opened Wrappers
  import opened JavaLang

  /** What `new URI(s).getPath()` yields: a syntax error (`URISyntaxException`),
      or the URI's path component, which is null for an opaque URI. */
  datatype UriParse = Malformed | Parsed(path: Option<string>)

  const SharedNotSupported := "Path \"shared:\" is not supported."

  function InvalidUri(path: string): string
  {
    "Invalid syntax of URI: " + path
  }

  predicate IsHttp(path: string)
  {
    StartsWith(path, "http:") || StartsWith(path, "https:")
  }

  predicate IsFileUri(path: string)
  {
    StartsWith(path, "file:")
  }

  predicate IsRooted(path: string)
  {
    StartsWith(path, "/")
  }

  predicate IsShared(path: string)
  {
    StartsWith(path, "shared:")
  }

  /** The condition under which a current directory is prepended: no leading
      `/` and none of the schemes `file:`, `http:`, `https:`. */
  predicate IsPlainRelative(path: string)
  {
    !IsRooted(path) && !IsFileUri(path) && !IsHttp(path)
  }

  /** A `shared:` path never starts with `/`, `file:`, `http:` or `https:`. */
  lemma SharedIsPlainRelative(path: string)
    ensures IsShared(path) ==> IsPlainRelative(path)
  {
    PrefixChar(path, "shared:", 0);
    PrefixChar(path, "/", 0);
    PrefixChar(path, "file:", 0);
    PrefixChar(path, "http:", 0);
    PrefixChar(path, "https:", 0);
  }

  /** The rooted, file-URI and http(s) prefixes exclude each other. */
  lemma SchemesDisjoint(path: string)
    ensures IsRooted(path) ==> !IsFileUri(path) && !IsHttp(path)
    ensures IsFileUri(path) ==> !IsHttp(path)
  {
    PrefixChar(path, "shared:", 0);
    PrefixChar(path, "/", 0);
    PrefixChar(path, "file:", 0);
    PrefixChar(path, "http:", 0);
    PrefixChar(path, "https:", 0);
  }

  /** `getPath(strPath, strCurrentDir)`. The working directory
      (`System.getProperty("user.dir")`) and the URI parser are parameters.
      The result is the returned string, possibly null, or the message of
      the `RuntimeException` thrown. */
  function GetPath(path: string, currentDir: Option<string>, userDir: Option<string>,
                   parseUri: string -> UriParse): (r: Result<Option<string>>)
    // A current directory is joined to any plain relative path, `shared:` ones included, with no separator.
    ensures currentDir.Some? && IsPlainRelative(path) ==> r == Ok(Some(currentDir.value + path))
    ensures IsShared(path) ==> (r.Failure? <==> currentDir.None?)
    ensures IsShared(path) && currentDir.None? ==> r == Failure(SharedNotSupported)
    // Web URLs are returned unchanged whether or not a current directory is given.
    ensures IsHttp(path) ==> r == Ok(Some(path))
    ensures IsFileUri(path) && parseUri(path).Malformed? ==> r == Failure(InvalidUri(path))
    ensures IsFileUri(path) && parseUri(path).Parsed? ==> r == Ok(parseUri(path).path)
    // A rooted path is resolved against the working directory even when a current directory is given.
    ensures IsRooted(path) ==> r == Ok(Some(Show(userDir) + path))
    ensures currentDir.None? && IsPlainRelative(path) && !IsShared(path) ==> r == Ok(Some(path))
    // The only failures: `shared:` without a current directory, and a malformed `file:` URI.
    ensures r.Failure? <==> (IsShared(path) && currentDir.None?) || (IsFileUri(path) && parseUri(path).Malformed?)
    // Only a `file:` URI can resolve to null.
    ensures r == Ok(None) ==> IsFileUri(path)
  {
    SchemesDisjoint(path);
    SharedIsPlainRelative(path);
    if currentDir.Some? && IsPlainRelative(path) then
      Ok(Some(currentDir.value + path))
    else if IsShared(path) then
      Failure(SharedNotSupported)
    else if IsHttp(path) then
      Ok(Some(path))
    else if IsFileUri(path) then
      match parseUri(path)
      case Malformed => Failure(InvalidUri(path))
      case Parsed(p) => Ok(p)
    else if IsRooted(path) then
      Ok(Some(Show(userDir) + path))
    else
      Ok(Some(path))
  }

  /** `getPath(strPath)`: the two-argument form with a null current directory. */
  function GetPathNoDir(path: string, userDir: Option<string>, parseUri: string -> UriParse): (r: Result<Option<string>>)
    // Without a current directory a `shared:` path is always rejected ...
    ensures IsShared(path) ==> r == Failure(SharedNotSupported)
    // ... and any other plain relative path comes back as it was.
    ensures IsPlainRelative(path) && !IsShared(path) ==> r == Ok(Some(path))
    ensures IsHttp(path) ==> r == Ok(Some(path))
    ensures IsRooted(path) ==> r == Ok(Some(Show(userDir) + path))
    ensures IsFileUri(path) && parseUri(path).Parsed? ==> r == Ok(parseUri(path).path)
    ensures r.Failure? <==> IsShared(path) || (IsFileUri(path) && parseUri(path).Malformed?)
    // The one-argument form is the two-argument form with a null current directory.
    ensures r == GetPath(path, None, userDir, parseUri)
  {
    GetPath(path, None, userDir, parseUri)
  }

  /** Examples of the resolver's behaviour, one lemma each,
      with a stand-in URI parser that returns the text after `file://`. */
  lemma JoinsCurrentDirectory(userDir: Option<string>)
    ensures GetPath("foo.te2", Some("/base/"), userDir, FileUrlPath) == Ok(Some("/base/foo.te2"))
  {
    PlainByFirstChar("foo.te2");
    assert "/base/" + "foo.te2" == "/base/foo.te2";
  }

  lemma KeepsWebUrl(userDir: Option<string>)
    ensures GetPathNoDir("http://x/y", userDir, FileUrlPath) == Ok(Some("http://x/y"))
  {
    assert IsHttp("http://x/y");
  }

  lemma RejectsShared(userDir: Option<string>)
    ensures GetPathNoDir("shared:x", userDir, FileUrlPath) == Failure(SharedNotSupported)
  {
    assert IsShared("shared:x");
  }

  lemma JoinsSharedToCurrentDirectory(userDir: Option<string>)
    ensures GetPath("shared:x", Some("/base/"), userDir, FileUrlPath) == Ok(Some("/base/shared:x"))
  {
    assert IsShared("shared:x");
    assert "/base/" + "shared:x" == "/base/shared:x";
  }

  lemma TakesFileUriPath(userDir: Option<string>)
    ensures GetPathNoDir("file:///tmp/a", userDir, FileUrlPath) == Ok(Some("/tmp/a"))
  {
    assert IsFileUri("file:///tmp/a");
    assert StartsWith("file:///tmp/a", "file://");
  }

  lemma RootsAtWorkingDirectory(userDir: string)
    ensures GetPath("/abs/path", None, Some(userDir), FileUrlPath) == Ok(Some(userDir + "/abs/path"))
  {
    assert IsRooted("/abs/path");
  }

  /** A path that starts with neither `/`, `h` nor `fi` is plain relative. */
  lemma PlainByFirstChar(path: string)
    requires |path| > 1 && path[0] != '/' && path[0] != 'h' && !(path[0] == 'f' && path[1] == 'i')
    ensures IsPlainRelative(path)
  {
    PrefixChar(path, "/", 0);
    PrefixChar(path, "file:", 1);
    PrefixChar(path, "http:", 0);
    PrefixChar(path, "https:", 0);
  }

  /** A stand-in for `URI.getPath` on `file://` URLs with an empty authority. */
  function FileUrlPath(s: string): UriParse
  {
    if StartsWith(s, "file://") then Parsed(Some(s[7..])) else Malformed
  }
}
