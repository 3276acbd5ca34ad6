/** api_key_file.py: the API key read from `~/.tgpt/api` once and then kept.
    The file system is an input: `files(path)` is what reading `path`
    returns, or `None` when `open` fails. */
module ApiKey {
  import opened Wrappers
  import opened PyText
  import opened Http

  /** The file system as the key file sees it at the moment of a read. */
  type Files = string -> Option<string>

  /** `home` with its trailing `/` separators removed, as `expanduser`
      does with `$HOME` (`rstrip(sep)`). */
  function WithoutTrailingSeparators(home: string): (h: string)
    ensures h <= home
    ensures h == [] || h[|h| - 1] != '/'
    ensures forall i :: |h| <= i < |home| ==> home[i] == '/'
    decreases |home|
  {
    if home != [] && home[|home| - 1] == '/' then WithoutTrailingSeparators(home[..|home| - 1]) else home
  }

  /** `os.path.expanduser("~/.tgpt/api")` when `$HOME` is `home`: the home
      directory without trailing separators, then `/.tgpt/api`. */
  function KeyPath(home: string): (path: string)
    ensures |path| >= 10 && path[|path| - 10..] == "/.tgpt/api"
    ensures var dir := path[..|path| - 10];
            && dir <= home
            && (dir == [] || dir[|dir| - 1] != '/')
            && forall i :: |dir| <= i < |home| ==> home[i] == '/'
  {
    var dir := WithoutTrailingSeparators(home);
    assert (dir + "/.tgpt/api")[..|dir|] == dir;
    dir + "/.tgpt/api"
  }

  /** The key object: where the key lives and the key once read. */
  class ApiKeyFile {
    const filename: string
    var apiKey: Option<string>

    /** `ApiKeyFile()`: nothing cached yet. */
    constructor (home: string)
      ensures filename == KeyPath(home) && apiKey == None
    {
      filename := KeyPath(home);
      apiKey := None;
    }

    /** `get_api_key()`: the cached key if there is one, without touching
        the file; otherwise the file's text stripped of surrounding
        whitespace, which is cached, even when it is empty. When the file
        cannot be opened the error escapes and nothing is cached. */
    method GetApiKey(files: Files) returns (key: Result<string, Error>)
      modifies this`apiKey
      ensures old(apiKey).Some? ==> key == Ok(old(apiKey).value) && apiKey == old(apiKey)
      ensures old(apiKey).None? && files(filename).None? ==> key == Err(FileNotFoundError) && apiKey == None
      ensures old(apiKey).None? && files(filename).Some? ==>
                key == Ok(Strip(files(filename).value)) && apiKey == Some(Strip(files(filename).value))
    {
      if apiKey.None? {
        var contents := files(filename);
        if contents.None? {
          return Err(FileNotFoundError);
        }
        apiKey := Some(Strip(contents.value));
      }
      key := Ok(apiKey.value);
    }
  }

  /** A new object reads the key on its first call and keeps it: a second
      call returns the same key even when the file has changed in between,
      a key that was read is stripped, and a failed first read leaves the
      second to read the file after all. */
  method ReadOnceThenCached(home: string, before: Files, after: Files)
    returns (first: Result<string, Error>, second: Result<string, Error>)
    ensures before(KeyPath(home)).None? ==>
              && first == Err(FileNotFoundError)
              && second == (if after(KeyPath(home)).None? then Err(FileNotFoundError) else Ok(Strip(after(KeyPath(home)).value)))
    ensures before(KeyPath(home)).Some? ==> first == Ok(Strip(before(KeyPath(home)).value)) && second == first
    ensures first.Ok? ==> Strip(first.value) == first.value
  {
    var keyFile := new ApiKeyFile(home);
    first := keyFile.GetApiKey(before);
    second := keyFile.GetApiKey(after);
    if before(KeyPath(home)).Some? {
      StripIdempotent(before(KeyPath(home)).value);
    }
  }

  /** Putting `None` back into `api_key` makes the next call read the file
      again and see its new contents. */
  method ResetForcesReread(home: string, before: Files, after: Files)
    returns (first: Result<string, Error>, reread: Result<string, Error>)
    requires before(KeyPath(home)).Some? && after(KeyPath(home)).Some?
    ensures first == Ok(Strip(before(KeyPath(home)).value))
    ensures reread == Ok(Strip(after(KeyPath(home)).value))
  {
    var keyFile := new ApiKeyFile(home);
    first := keyFile.GetApiKey(before);
    keyFile.apiKey := None;
    reread := keyFile.GetApiKey(after);
  }
}
