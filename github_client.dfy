/**
 * `GitHubRemotePluginClient` from Remote/GithubRemorePluginClient.swift:
 * derives the repository name from its URL, downloads a release archive
 * and looks for a readme, talking to an injected network client.
 */
module GitHubClient {
  import opened Wrappers
  import opened Strings

  // ---------------------------------------------------------------------
  // The network client and the file system, as scripted collaborators
  // ---------------------------------------------------------------------

  /** One answer of the network client: an HTTP response, or an error it throws. */
  datatype Exchange = Response(status: int, body: string) | Thrown

  /** The next answer of a script; a script that has run out throws. */
  function NextReply(replies: seq<Exchange>): Exchange {
    if replies == [] then Thrown else replies[0]
  }

  /** The script after one answer has been given. */
  function Rest(replies: seq<Exchange>): seq<Exchange> {
    if replies == [] then [] else replies[1..]
  }

  /** The `k`-th answer of a script (counting from 0). */
  function ReplyAt(replies: seq<Exchange>, k: nat): Exchange {
    if k < |replies| then replies[k] else Thrown
  }

  /** The script after `k` answers have been given. */
  function Drop(replies: seq<Exchange>, k: nat): seq<Exchange> {
    if k <= |replies| then replies[k..] else []
  }

  lemma DropStep(replies: seq<Exchange>, k: nat)
    ensures NextReply(Drop(replies, k)) == ReplyAt(replies, k)
    ensures Rest(Drop(replies, k)) == Drop(replies, k + 1)
  {
  }

  /**
   * `NetworkRequestProtocol`: answers GET requests from a script and logs
   * every URL requested.
   */
  class Network {
    var replies: seq<Exchange>
    var requested: seq<string>

    constructor (script: seq<Exchange>)
      ensures replies == script && requested == []
    {
      replies := script;
      requested := [];
    }

    /** `getRequest(for:)`. */
    method GetRequest(url: string) returns (e: Exchange)
      modifies this
      ensures requested == old(requested) + [url]
      ensures e == NextReply(old(replies)) && replies == Rest(old(replies))
    {
      requested := requested + [url];
      e := NextReply(replies);
      replies := Rest(replies);
    }
  }

  /** The part of the file system the client writes to: file contents by path. */
  class Disk {
    var files: map<string, string>

    constructor (initial: map<string, string>)
      ensures files == initial
    {
      files := initial;
    }

    /** `data.write(to:)`. */
    method Write(path: string, data: string)
      modifies this
      ensures files == old(files)[path := data]
    {
      files := files[path := data];
    }
  }

  // ---------------------------------------------------------------------
  // getRepoName
  // ---------------------------------------------------------------------

  const Marker: string := "github.com/"

  /**
   * "github.com/" starts at `i` and a non-whitespace character follows it:
   * the regular expression `(?:https?://)?(?:www\.)?github\.com/(\S+)` can
   * match with its group starting right after it. The optional scheme and
   * "www." prefix only move where the match starts, never where the group
   * starts: neither contains a 'g', so no "github.com/" begins inside them.
   */
  predicate MarkerAt(s: string, i: int) {
    0 <= i && i + |Marker| < |s| && s[i..i + |Marker|] == Marker && !IsWhitespace(s[i + |Marker|])
  }

  lemma MarkerHead(s: string, i: int)
    ensures MarkerAt(s, i) ==> s[i] == 'g'
  {
    if MarkerAt(s, i) {
      assert s[i..i + |Marker|][0] == s[i];
    }
  }

  /** The leftmost `MarkerAt` position at or after `from`. */
  function FindMarker(s: string, from: nat): (r: Option<nat>)
    ensures r.Some? ==> from <= r.value && MarkerAt(s, r.value)
    ensures r.Some? ==> forall j :: from <= j < r.value ==> !MarkerAt(s, j)
    ensures r.None? ==> forall j :: from <= j ==> !MarkerAt(s, j)
    decreases |s| - from
  {
    if from + |Marker| >= |s| then None
    else if MarkerAt(s, from) then Some(from)
    else FindMarker(s, from + 1)
  }

  /** `\S+` matched greedily: the longest prefix of `s` without whitespace. */
  function NonSpaceRun(s: string): (r: string)
    ensures |r| <= |s| && r == s[..|r|]
    ensures forall c :: c in r ==> !IsWhitespace(c)
    ensures |r| < |s| ==> IsWhitespace(s[|r|])
  {
    if s == [] || IsWhitespace(s[0]) then [] else [s[0]] + NonSpaceRun(s[1..])
  }

  /** The regular expression's first match, group 1: what follows the leftmost usable "github.com/". */
  function Capture(url: string): (r: Option<string>)
    ensures r.None? <==> forall i :: !MarkerAt(url, i)
    ensures r.Some? ==> |r.value| > 0 && forall c :: c in r.value ==> !IsWhitespace(c)
  {
    match FindMarker(url, 0)
    case None => None
    case Some(i) => Some(NonSpaceRun(url[i + |Marker|..]))
  }

  /** `getRepoName(from:)`: the captured run with every ".git" deleted. */
  function GetRepoName(url: string): (r: Option<string>)
    ensures r.None? <==> forall i :: !MarkerAt(url, i)
    ensures r.Some? ==> forall c :: c in r.value ==> !IsWhitespace(c)
  {
    match Capture(url)
    case None => None
    case Some(run) => Some(RemoveAll(run, ".git"))
  }

  /** The capture starts right after the leftmost usable "github.com/" and runs to the next whitespace. */
  lemma CaptureIsLeftmostMaximalRun(url: string, i: nat)
    requires MarkerAt(url, i) && forall j :: 0 <= j < i ==> !MarkerAt(url, j)
    ensures Capture(url).Some?
    ensures var run := Capture(url).value; var start := i + |Marker|;
      && start + |run| <= |url| && url[start..start + |run|] == run
      && (start + |run| == |url| || IsWhitespace(url[start + |run|]))
  {
    var tail := url[i + |Marker|..];
    var run := NonSpaceRun(tail);
    assert url[i + |Marker|..i + |Marker| + |run|] == tail[..|run|];
  }

  /** A capture without ".git" is returned as it is. */
  lemma RepoNameIsCaptureWithoutGit(url: string)
    requires Capture(url).Some? && !Occurs(Capture(url).value, ".git")
    ensures GetRepoName(url) == Capture(url)
  {
    RemoveAllAbsent(Capture(url).value, ".git");
  }

  /** The URL "{scheme}github.com/{rest}", with no 'g' in the scheme and no whitespace in `rest`, captures `rest`. */
  lemma {:induction false} CaptureAfterHost(scheme: string, rest: string)
    requires 'g' !in scheme
    requires rest != [] && forall c :: c in rest ==> !IsWhitespace(c)
    ensures Capture(scheme + Marker + rest) == Some(rest)
  {
    var url := scheme + Marker + rest;
    var start := |scheme| + |Marker|;
    assert url[|scheme|..start] == Marker;
    assert url[start] == rest[0] && rest[0] in rest;
    assert MarkerAt(url, |scheme|);
    forall j | 0 <= j < |scheme| ensures !MarkerAt(url, j) {
      MarkerHead(url, j);
      assert url[j] == scheme[j] && scheme[j] in scheme;
    }
    CaptureIsLeftmostMaximalRun(url, |scheme|);
    var run := Capture(url).value;
    assert url[start..] == rest;
    assert run == url[start..start + |run|] == url[start..];
  }

  /** A URL that ends at the host, "{scheme}github.com" with no 'g' in the scheme, has no repository name. */
  lemma {:induction false} NoRepoNameAtBareHost(scheme: string)
    requires 'g' !in scheme
    ensures GetRepoName(scheme + "github.com") == None
  {
    var url := scheme + "github.com";
    forall i ensures !MarkerAt(url, i) {
      MarkerHead(url, i);
      if 0 <= i < |scheme| {
        assert url[i] == scheme[i] && scheme[i] in scheme;
      }
    }
  }

  /** "https://github.com" has nothing after the host, so there is no repository name. */
  lemma RepoNameOfBareHost()
    ensures GetRepoName("https://github.com") == None
  {
    NoRepoNameAtBareHost("https://");
    assert "https://" + "github.com" == "https://github.com";
  }

  /**
   * "{scheme}github.com/{name}" names `name`, for a scheme without 'g' and a
   * name without whitespace or ".git" ("https://github.com/swift-setup/PluginEngine").
   */
  lemma RepoNameOfPlainUrl(scheme: string, name: string)
    requires 'g' !in scheme
    requires name != [] && !Occurs(name, ".git") && forall c :: c in name ==> !IsWhitespace(c)
    ensures GetRepoName(scheme + Marker + name) == Some(name)
  {
    CaptureAfterHost(scheme, name);
    RemoveAllAbsent(name, ".git");
  }

  /**
   * "{scheme}github.com/{name}.git" names `name` as well
   * ("https://github.com/swift-setup/PluginEngine.git").
   */
  lemma RepoNameOfGitUrl(scheme: string, name: string)
    requires 'g' !in scheme
    requires name != [] && '.' !in name && forall c :: c in name ==> !IsWhitespace(c)
    ensures GetRepoName(scheme + Marker + (name + ".git")) == Some(name)
  {
    CaptureAfterHost(scheme, name + ".git");
    RemoveAllSkipsPrefix(name, ".git", ".git");
    RemoveAllLeading(".git", "");
    assert ".git" + "" == ".git";
    assert name + "" == name;
  }

  /** The repository of the client's examples satisfies the conditions of both lemmas above. */
  lemma ExampleRepositoryQualifies()
    ensures 'g' !in "https://"
    ensures '.' !in "swift-setup/PluginEngine"
    ensures forall c :: c in "swift-setup/PluginEngine" ==> !IsWhitespace(c)
  {
  }

  /**
   * The repository URLs of the client's examples, with and without ".git",
   * both name `swift-setup/PluginEngine`.
   */
  lemma RepoNameOfTestUrls()
    ensures GetRepoName("https://" + Marker + "swift-setup/PluginEngine") == Some("swift-setup/PluginEngine")
    ensures GetRepoName("https://" + Marker + ("swift-setup/PluginEngine" + ".git")) == Some("swift-setup/PluginEngine")
  {
    ExampleRepositoryQualifies();
    AbsentForLackOfChar("swift-setup/PluginEngine", ".git", '.');
    RepoNameOfPlainUrl("https://", "swift-setup/PluginEngine");
    RepoNameOfGitUrl("https://", "swift-setup/PluginEngine");
  }
}

module GitHubLoading {
  import opened Wrappers
  import opened Strings
  import opened Package
  import opened Types
  import opened GitHubClient

  // ---------------------------------------------------------------------
  // URLs
  // ---------------------------------------------------------------------

  /** `URL.appendingPathComponent`: joins with exactly one '/' between base and component. */
  function AppendPath(base: string, component: string): (r: string)
    ensures |r| >= |base| && r[..|base|] == base
  {
    if |base| > 0 && base[|base| - 1] == '/' then base + component else base + "/" + component
  }

  const RawContentHost: string := "https://raw.githubusercontent.com"

  /** The candidate readme file names, in the order they are tried. */
  const ReadmeNames: seq<string> := ["README.md", "README", "readme.md", "readme"]

  /** The raw-content URL of readme file `name` of repository `repo` at `version`. */
  function ReadmeUrl(repo: string, version: Version, name: string): string {
    AppendPath(AppendPath(AppendPath(RawContentHost, repo), ToString(version)), name)
  }

  /** `readmeNames.map { ... }`: one URL per candidate name, in the same order. */
  function ReadmeUrls(repo: string, version: Version): (urls: seq<string>)
    ensures |urls| == |ReadmeNames|
    ensures forall i :: 0 <= i < |urls| ==> urls[i] == ReadmeUrl(repo, version, ReadmeNames[i])
  {
    [ ReadmeUrl(repo, version, ReadmeNames[0]), ReadmeUrl(repo, version, ReadmeNames[1]),
      ReadmeUrl(repo, version, ReadmeNames[2]), ReadmeUrl(repo, version, ReadmeNames[3]) ]
  }

  /** The first readme request for version 1.0.0 of "swift-setup/PluginEngine". */
  lemma FirstReadmeUrlExample()
    ensures ReadmeUrl("swift-setup/PluginEngine", Init(1, 0, 0, [], []), ReadmeNames[0])
         == "https://raw.githubusercontent.com/swift-setup/PluginEngine/1.0.0/README.md"
  {
    ToStringOneZeroZero();
    var repoUrl := AppendPath(RawContentHost, "swift-setup/PluginEngine");
    assert repoUrl == "https://raw.githubusercontent.com/swift-setup/PluginEngine";
    var versionUrl := AppendPath(repoUrl, "1.0.0");
    assert versionUrl == "https://raw.githubusercontent.com/swift-setup/PluginEngine/1.0.0";
  }

  /**
   * Every candidate URL is "{host}/{repo}/{version}/{name}", for a repository
   * name that is non-empty and does not end in '/', and an initialized version.
   */
  lemma ReadmeUrlShape(repo: string, version: Version, name: string)
    requires repo != [] && repo[|repo| - 1] != '/'
    requires Constructed(version)
    ensures ReadmeUrl(repo, version, name) == RawContentHost + "/" + repo + "/" + ToString(version) + "/" + name
  {
    var v := ToString(version);
    ToStringEndsInDigit(version);
    var a := AppendPath(RawContentHost, repo);
    assert a == RawContentHost + "/" + repo;
    assert a[|a| - 1] == repo[|repo| - 1];
    var b := AppendPath(a, v);
    assert b == a + "/" + v;
    assert b[|b| - 1] == v[|v| - 1];
  }

  const TargetFileName: string := "macos_arm64.zip"

  /** `releases/download/{version}/macos_arm64.zip`, relative to the repository URL. */
  function ReleasePath(version: Version): string {
    "releases/download/" + ToString(version) + "/" + TargetFileName
  }

  const LocalPosition: string := "./file.dylib"
  const NoReadme: string := "No readme"

  // ---------------------------------------------------------------------
  // The readme search, as a function of the network's answers
  // ---------------------------------------------------------------------

  /** A response that sends the search on to the next candidate: an HTTP answer other than 200. */
  predicate Missed(e: Exchange) {
    e.Response? && e.status != 200
  }

  /** What the readme search yields and how many requests it makes. */
  datatype Scan = Scan(result: Result<Option<string>, Error>, requests: nat)

  /**
   * The readme search over the answers `replies`, having already tried the
   * first `k` candidates: a 200 ends it with the body, a thrown error ends
   * it with that error, anything else moves on; after the last candidate
   * it ends with `nil`.
   */
  function ScanReadme(replies: seq<Exchange>, k: nat): (s: Scan)
    requires k <= |ReadmeNames|
    ensures k <= s.requests <= |ReadmeNames|
    ensures k < |ReadmeNames| ==> k < s.requests
    decreases |ReadmeNames| - k
  {
    if k == |ReadmeNames| then Scan(Success(None), k)
    else
      var e := ReplyAt(replies, k);
      if e.Thrown? then Scan(Failure(TransportFailure), k + 1)
      else if e.status == 200 then Scan(Success(Some(e.body)), k + 1)
      else ScanReadme(replies, k + 1)
  }

  /**
   * When the `j`-th answer is the first that is not a miss, the search
   * makes exactly `j + 1` requests and returns that answer's body (or
   * rethrows its error).
   */
  lemma {:induction false} ScanStopsAtFirstHit(replies: seq<Exchange>, k: nat, j: nat)
    requires k <= j < |ReadmeNames|
    requires forall i :: k <= i < j ==> Missed(ReplyAt(replies, i))
    requires !Missed(ReplyAt(replies, j))
    ensures ScanReadme(replies, k).requests == j + 1
    ensures ReplyAt(replies, j).Thrown? ==> ScanReadme(replies, k).result == Failure(TransportFailure)
    ensures ReplyAt(replies, j).Response? ==> ScanReadme(replies, k).result == Success(Some(ReplyAt(replies, j).body))
    decreases j - k
  {
    if k < j {
      assert Missed(ReplyAt(replies, k));
      ScanStopsAtFirstHit(replies, k + 1, j);
    }
  }

  /** When all four answers are misses, the search makes four requests and returns `nil`. */
  lemma {:induction false} ScanExhausted(replies: seq<Exchange>, k: nat)
    requires k <= |ReadmeNames|
    requires forall i :: k <= i < |ReadmeNames| ==> Missed(ReplyAt(replies, i))
    ensures ScanReadme(replies, k) == Scan(Success(None), |ReadmeNames|)
    decreases |ReadmeNames| - k
  {
    if k < |ReadmeNames| {
      assert Missed(ReplyAt(replies, k));
      ScanExhausted(replies, k + 1);
    }
  }

  /** The search never answers `nil` before all four candidates were requested. */
  lemma {:induction false} ScanNilOnlyWhenExhausted(replies: seq<Exchange>, k: nat)
    requires k <= |ReadmeNames|
    ensures ScanReadme(replies, k).result == Success(None) ==>
      ScanReadme(replies, k).requests == |ReadmeNames| &&
      forall i :: k <= i < |ReadmeNames| ==> Missed(ReplyAt(replies, i))
    decreases |ReadmeNames| - k
  {
    if k < |ReadmeNames| {
      ScanNilOnlyWhenExhausted(replies, k + 1);
    }
  }

  /** Answers 404, 404, 200: the third body comes back after three requests. */
  lemma ScanExample(body: string)
    ensures ScanReadme([Response(404, ""), Response(404, ""), Response(200, body)], 0)
         == Scan(Success(Some(body)), 3)
  {
    ScanStopsAtFirstHit([Response(404, ""), Response(404, ""), Response(200, body)], 0, 2);
  }

  // ---------------------------------------------------------------------
  // The client
  // ---------------------------------------------------------------------

  /** The struct with its injected network client, plus the file system it writes to. */
  class GitHubRemotePluginClient {
    const networkClient: Network
    const disk: Disk
    const temporaryDirectory: string

    constructor (networkClient: Network, disk: Disk, temporaryDirectory: string)
      ensures this.networkClient == networkClient && this.disk == disk
      ensures this.temporaryDirectory == temporaryDirectory
    {
      this.networkClient := networkClient;
      this.disk := disk;
      this.temporaryDirectory := temporaryDirectory;
    }

    /**
     * `downloadPackage(from:to:)`: one GET; a 200 body is written to `to`,
     * any other status throws `downloadError` and writes nothing.
     */
    method DownloadPackage(url: string, to: string) returns (r: Outcome<Error>)
      modifies networkClient, disk
      ensures networkClient.requested == old(networkClient.requested) + [url]
      ensures networkClient.replies == Rest(old(networkClient.replies))
      ensures match NextReply(old(networkClient.replies))
        case Thrown => r == Fail(TransportFailure) && disk.files == old(disk.files)
        case Response(status, body) =>
          if status == 200 then r == Pass && disk.files == old(disk.files)[to := body]
          else r == Fail(RemoteFailure(DownloadError)) && disk.files == old(disk.files)
    {
      var e := networkClient.GetRequest(url);
      if e.Thrown? {
        return Fail(TransportFailure);
      }
      if e.status != 200 {
        return Fail(RemoteFailure(DownloadError));
      }
      disk.Write(to, e.body);
      r := Pass;
    }

    /**
     * The loop of `getReadme`: requests `urls` in order until one answers
     * 200 or one throws, as `ScanReadme` says.
     */
    method RequestFirstFound(urls: seq<string>) returns (r: Result<Option<string>, Error>)
      requires |urls| == |ReadmeNames|
      modifies networkClient
      ensures var scan := ScanReadme(old(networkClient.replies), 0);
        && r == scan.result
        && networkClient.requested == old(networkClient.requested) + urls[..scan.requests]
        && networkClient.replies == Drop(old(networkClient.replies), scan.requests)
    {
      ghost var replies0, requested0 := networkClient.replies, networkClient.requested;
      var i := 0;
      while i < |urls|
        invariant 0 <= i <= |urls|
        invariant networkClient.requested == requested0 + urls[..i]
        invariant networkClient.replies == Drop(replies0, i)
        invariant ScanReadme(replies0, i) == ScanReadme(replies0, 0)
      {
        DropStep(replies0, i);
        assert urls[..i + 1] == urls[..i] + [urls[i]];
        var e := networkClient.GetRequest(urls[i]);
        if e.Thrown? {
          return Failure(TransportFailure);
        }
        if e.status == 200 {
          return Success(Some(e.body));
        }
        i := i + 1;
      }
      r := Success(None);
    }

    /**
     * `getReadme(from:version:)`: no request at all when the URL names no
     * repository; otherwise the four candidate URLs through `RequestFirstFound`.
     */
    method GetReadme(url: string, version: Version) returns (r: Result<Option<string>, Error>)
      modifies networkClient
      ensures GetRepoName(url).None? ==>
        && r == Failure(RemoteFailure(InvalidRepoName))
        && networkClient.requested == old(networkClient.requested)
        && networkClient.replies == old(networkClient.replies)
      ensures GetRepoName(url).Some? ==>
        var scan := ScanReadme(old(networkClient.replies), 0);
        && r == scan.result
        && networkClient.requested
           == old(networkClient.requested) + ReadmeUrls(GetRepoName(url).value, version)[..scan.requests]
        && networkClient.replies == Drop(old(networkClient.replies), scan.requests)
    {
      var repoName := GetRepoName(url);
      if repoName.None? {
        return Failure(RemoteFailure(InvalidRepoName));
      }
      r := RequestFirstFound(ReadmeUrls(repoName.value, version));
    }

    /**
     * `load(from:version:)`: downloads the release archive first, then
     * looks for the readme; the returned repo always names "./file.dylib"
     * and version 1.1.1, whatever version was asked for.
     */
    method Load(remote: string, version: Version) returns (r: Result<PluginRepo, Error>)
      modifies networkClient, disk
      ensures |networkClient.requested| > |old(networkClient.requested)|
      ensures networkClient.requested[..|old(networkClient.requested)| + 1]
           == old(networkClient.requested) + [AppendPath(remote, ReleasePath(version))]
      ensures !IsOk(NextReply(old(networkClient.replies))) ==>
        && r == (if NextReply(old(networkClient.replies)).Thrown? then Failure(TransportFailure)
                 else Failure(RemoteFailure(DownloadError)))
        && networkClient.requested == old(networkClient.requested) + [AppendPath(remote, ReleasePath(version))]
        && disk.files == old(disk.files)
        && networkClient.replies == Rest(old(networkClient.replies))
      ensures IsOk(NextReply(old(networkClient.replies))) ==>
        disk.files == old(disk.files)[AppendPath(temporaryDirectory, TargetFileName) := NextReply(old(networkClient.replies)).body]
      ensures IsOk(NextReply(old(networkClient.replies))) && GetRepoName(remote).None? ==>
        && r == Failure(RemoteFailure(InvalidRepoName))
        && networkClient.requested == old(networkClient.requested) + [AppendPath(remote, ReleasePath(version))]
        && networkClient.replies == Rest(old(networkClient.replies))
      ensures IsOk(NextReply(old(networkClient.replies))) && GetRepoName(remote).Some? ==>
        var scan := ScanReadme(Rest(old(networkClient.replies)), 0);
        && r == (if scan.result.Success?
                 then Success(PluginRepo(LocalPosition, scan.result.value.GetOr(NoReadme), Init(1, 1, 1, [], [])))
                 else Failure(scan.result.error))
        && networkClient.requested
           == old(networkClient.requested) + [AppendPath(remote, ReleasePath(version))]
              + ReadmeUrls(GetRepoName(remote).value, version)[..scan.requests]
        && networkClient.replies == Drop(Rest(old(networkClient.replies)), scan.requests)
      ensures r.Success? ==>
        && r.value.localPosition == LocalPosition
        && r.value.version == Init(1, 1, 1, [], [])
        && GetRepoName(remote).Some?
        && var scan := ScanReadme(Rest(old(networkClient.replies)), 0);
           scan.result.Success? && r.value.readme == scan.result.value.GetOr(NoReadme)
    {
      var downloadUrl := AppendPath(remote, ReleasePath(version));
      var downloadPath := AppendPath(temporaryDirectory, TargetFileName);
      var downloaded := DownloadPackage(downloadUrl, downloadPath);
      if downloaded.Fail? {
        return Failure(downloaded.error);
      }
      ghost var afterDownload := networkClient.requested;
      var readme := GetReadme(remote, version);
      assert networkClient.requested[..|afterDownload|] == afterDownload;
      if readme.Failure? {
        return Failure(readme.error);
      }
      r := Success(PluginRepo(LocalPosition, readme.value.GetOr(NoReadme), Init(1, 1, 1, [], [])));
    }
  }

  /** An answer that lets the download go on: an HTTP 200. */
  predicate IsOk(e: Exchange) {
    e.Response? && e.status == 200
  }
}
