/** `BaseClient`: what every request of the client carries. The API base is derived from the
    region, every request gets the authentication header merged with the caller's headers,
    and uploaded files are described by their basename and a content type from their extension. */
module Client {
  import opened Wrappers
  import opened Paths

  /** A client: its region, its key, and the header name the key is sent under
      (`_auth_keyname`, which each concrete client defines). */
  datatype BaseClient = BaseClient(region: string, key: string, authKeyName: string)

  type Header = (string, string)

  /** `('file', (filename, fobj, content_type))`; the file object is represented by its path. */
  datatype HttpFile = HttpFile(field: string, filename: string, path: string, contentType: string)

  /** What a request sends besides its headers. `OpaqueFile` is a file formatted by
      `_format_file`, a helper no modelled file defines. */
  datatype Body = NoBody | JsonUrl(url: string) | Files(files: seq<HttpFile>) | OpaqueFile(path: string)

  /** The call `requests.<verb>(url, headers=..., ...)` that `_make_json_request` makes. */
  datatype Request = Request(verb: string, url: string, headers: map<string, string>, body: Body)

  const ApiHost := ".api.cognitive.microsoft.com"

  /** `_format_api_base`: the region between "https://" and the service host, nothing else. */
  function ApiBase(c: BaseClient): (r: string)
    ensures |r| == 8 + |c.region| + 28
    ensures r[..8] == "https://"
    ensures r[8..8 + |c.region|] == c.region
    ensures r[8 + |c.region|..] == ".api.cognitive.microsoft.com"
  {
    "https://" + c.region + ApiHost
  }

  /** The headers `_format_headers(kv)` builds: `{auth: key}`, then every pair of `kv`
      stored in turn, a later pair overwriting an earlier one. */
  function Merged(c: BaseClient, kv: seq<Header>): map<string, string>
  {
    if kv == [] then map[c.authKeyName := c.key]
    else
      var last := kv[|kv| - 1];
      Merged(c, kv[..|kv| - 1])[last.0 := last.1]
  }

  /** `kv[i]` is the last pair of `kv` with its key. */
  ghost predicate LastFor(kv: seq<Header>, i: int) {
    0 <= i < |kv| && forall j :: i < j < |kv| ==> kv[j].0 != kv[i].0
  }

  /** The merged headers' names are exactly the authentication header name and the keys of `kv`. */
  lemma {:induction false} MergedKeys(c: BaseClient, kv: seq<Header>)
    ensures Merged(c, kv).Keys == {c.authKeyName} + set i | 0 <= i < |kv| :: kv[i].0
  {
    if kv != [] {
      var init := kv[..|kv| - 1];
      MergedKeys(c, init);
      var all := set i | 0 <= i < |kv| :: kv[i].0;
      var before := set i | 0 <= i < |init| :: init[i].0;
      forall x | x in all ensures x in before || x == kv[|kv| - 1].0 {
        var i :| 0 <= i < |kv| && kv[i].0 == x;
        if i < |init| {
          assert init[i] == kv[i];
        }
      }
      forall x | x in before ensures x in all {
        var i :| 0 <= i < |init| && init[i].0 == x;
        assert init[i] == kv[i];
      }
      assert all == before + {kv[|kv| - 1].0};
    }
  }

  /** A key of `kv` gets the value of its last pair, even the authentication header, which the
      caller can override. */
  lemma {:induction false} MergedLastWins(c: BaseClient, kv: seq<Header>, i: int)
    requires LastFor(kv, i)
    ensures kv[i].0 in Merged(c, kv) && Merged(c, kv)[kv[i].0] == kv[i].1
  {
    var init := kv[..|kv| - 1];
    if i < |init| {
      assert LastFor(init, i) by {
        forall j | i < j < |init| ensures init[j].0 != init[i].0 {
          assert init[j] == kv[j];
        }
      }
      MergedLastWins(c, init, i);
      assert init[i] == kv[i];
    }
  }

  /** When no pair of `kv` names the authentication header, it keeps the client's key. */
  lemma {:induction false} MergedAuthDefault(c: BaseClient, kv: seq<Header>)
    requires forall i :: 0 <= i < |kv| ==> kv[i].0 != c.authKeyName
    ensures c.authKeyName in Merged(c, kv) && Merged(c, kv)[c.authKeyName] == c.key
  {
    if kv != [] {
      var init := kv[..|kv| - 1];
      assert forall i :: 0 <= i < |init| ==> init[i] == kv[i];
      MergedAuthDefault(c, init);
    }
  }

  /** `_format_headers`. */
  method FormatHeaders(c: BaseClient, kv: seq<Header>) returns (headers: map<string, string>)
    ensures headers == Merged(c, kv)
  {
    headers := map[c.authKeyName := c.key];
    var n := 0;
    while n < |kv|
      invariant 0 <= n <= |kv|
      invariant headers == Merged(c, kv[..n])
    {
      var (key, value) := kv[n];
      assert kv[..n + 1][..n] == kv[..n];
      headers := headers[key := value];
      n := n + 1;
    }
    assert kv[..n] == kv;
  }

  /** The description `_format_files` gives one file. */
  function FileEntry(path: string): HttpFile
  {
    var filename := Basename(path);
    HttpFile("file", filename, path, "application/" + SplitExt(filename).1)
  }

  /** What a file's description holds: field "file", the file's basename, the file itself and
      "application/" followed by the basename's extension, dot included, which is empty
      exactly when the basename has none. */

  lemma FileEntryMeaning(path: string)
    ensures FileEntry(path).field == "file" && FileEntry(path).path == path
    ensures IsBasename(path, FileEntry(path).filename)
    ensures FileEntry(path).contentType == "application/" + SplitExt(FileEntry(path).filename).1
    ensures var name := FileEntry(path).filename; var ext := SplitExt(name).1;
      && name == SplitExt(name).0 + ext
      && (ext != "" <==> exists i :: ExtensionAt(name, i))
      && (ext != "" ==> ExtensionAt(name, |name| - |ext|))
  {
    var name := Basename(path);
    assert IsBasename(path, name);
    SplitExtMeaning(name);
  }

  /** `_format_files`: one description per file, in the order given. */
  method FormatFiles(paths: seq<string>) returns (files: seq<HttpFile>)
    ensures |files| == |paths|
    ensures forall i :: 0 <= i < |paths| ==> files[i] == FileEntry(paths[i])
  {
    files := [];
    var n := 0;
    while n < |paths|
      invariant 0 <= n <= |paths|
      invariant |files| == n
      invariant forall i :: 0 <= i < n ==> files[i] == FileEntry(paths[i])
    {
      files := files + [FileEntry(paths[n])];
      n := n + 1;
    }
  }

  /** `_make_json_request`: the caller's `headers` (none given: `[]`) are replaced by
      `_format_headers` of them before the request is made; the rest is passed on. */
  method MakeJsonRequest(c: BaseClient, verb: string, url: string, headers: Option<seq<Header>>, body: Body)
    returns (req: Request)
    ensures req.verb == verb && req.url == url && req.body == body
    ensures req.headers == Merged(c, headers.GetOr([]))
  {
    var merged := FormatHeaders(c, headers.GetOr([]));
    req := Request(verb, url, merged, body);
  }
}
