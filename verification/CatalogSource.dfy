/** What the text of a catalog source stands for: a local path, a GitHub repository or a URL. */
module CatalogSource {
  import opened Text
  import opened HostPattern

  datatype Url = Url(host: string, path: string)

  /** The machine the program runs on: its URL parser and its file system. */
  datatype Machine = Machine(parse: string -> Option<Url>, accessible: string -> bool)

  const RAW_HOST := "raw.githubusercontent.com"

  /** The characters of a GitHub owner or repository name. */
  predicate RepoChar(c: char) {
    'a' <= c <= 'z' || 'A' <= c <= 'Z' || '0' <= c <= '9' || c == '.' || c == '_' || c == '-'
  }

  predicate RepoName(s: string) {
    s != "" && forall c | c in s :: RepoChar(c)
  }

  predicate OwnerRepo(s: string) {
    var c := Cut(s, '/');
    c.found && RepoName(c.before) && RepoName(c.after)
  }

  function RawPath(owner: string, repo: string): string {
    "/" + (owner + "/" + (repo + "/main/index.yaml"))
  }

  function RawUrl(owner: string, repo: string): string {
    "https://" + RAW_HOST + RawPath(owner, repo)
  }

  /** The URL parser takes the manifest URLs of GitHub repositories apart as expected. */
  ghost predicate MachineOK(m: Machine) {
    forall owner, repo | RepoName(owner) && RepoName(repo) :: m.parse(RawUrl(owner, repo)) == Some(Url(RAW_HOST, RawPath(owner, repo)))
  }

  function TrimPrefix(s: string, prefix: string): string {
    if HasPrefix(s, prefix) then s[|prefix|..] else s
  }

  predicate LocalPath(s: string) {
    || s == "." || s == ".."
    || HasPrefix(s, "/") || HasPrefix(s, "./") || HasPrefix(s, "../") || HasPrefix(s, "~/")
    || HasPrefix(s, ".\\") || HasPrefix(s, "..\\")
  }

  datatype Resolved = Malformed | Local | Repository(owner: string, repo: string) | Manifest(url: string)

  /** A source that is not written as a URL. */
  function ResolveName(m: Machine, s: string): Resolved {
    var gh := TrimPrefix(s, "github.com/");
    if LocalPath(s) then (if m.accessible(s) then Local else Malformed)
    else if OwnerRepo(gh) then Repository(Cut(gh, '/').before, Cut(gh, '/').after)
    else if m.accessible(s) then Local
    else Malformed
  }

  function ResolveCatalogSource(m: Machine, source: string): Resolved {
    var s := TrimSpace(source);
    if s == "" then Malformed
    else if HasPrefix(s, "https://") then Manifest(s)
    else if HasPrefix(s, "http://") then Malformed
    else ResolveName(m, s)
  }

  /** What the allow-list looks at: nothing remote, a host, or a repository on a GitHub host. */
  datatype Source = NotRemote | Remote(host: string) | GitHub(host: string, owner: string, repo: string)

  /** The first two segments of a path, if there are that many. */
  function FirstTwo(path: string): Option<(string, string)> {
    var first := Cut(TrimPrefix(path, "/"), '/');
    var second := Cut(first.after, '/').before;
    if first.found && first.before != "" && second != "" then Some((first.before, second)) else None
  }

  function GitHubPath(u: Url): Option<(string, string)> {
    if ToLower(u.host) in {RAW_HOST, "github.com"} then FirstTwo(u.path) else None
  }

  function HostOf(m: Machine, r: Resolved): string {
    if r.Malformed? || r.Local? then ""
    else
      var u := m.parse(if r.Repository? then RawUrl(r.owner, r.repo) else r.url);
      if u.Some? then u.value.host else ""
  }

  function RepositoryOf(m: Machine, r: Resolved): Option<(string, string)> {
    match r
    case Malformed => None
    case Local => None
    case Repository(owner, repo) => Some((owner, repo))
    case Manifest(url) => var u := m.parse(url); if u.Some? then GitHubPath(u.value) else None
  }

  function SourceHost(m: Machine, source: string): string {
    HostOf(m, ResolveCatalogSource(m, source))
  }

  function SourceGitHubOwnerRepo(m: Machine, source: string): Option<(string, string)> {
    RepositoryOf(m, ResolveCatalogSource(m, source))
  }

  function Classified(m: Machine, r: Resolved): Source {
    var host, gh := HostOf(m, r), RepositoryOf(m, r);
    if gh.Some? then GitHub(host, gh.value.0, gh.value.1)
    else if host == "" then NotRemote
    else Remote(host)
  }

  function Classify(m: Machine, source: string): Source {
    Classified(m, ResolveCatalogSource(m, source))
  }

  lemma RepoNameSlashFree(s: string)
    requires RepoName(s)
    ensures SlashFree(s)
  {
  }

  /** Remote sources have a host, and owner and repository are single path segments. */
  lemma ClassifiedSource(m: Machine, source: string)
    requires MachineOK(m)
    ensures var c := Classify(m, source);
            !c.NotRemote? ==> c.host != "" && (c.GitHub? ==> SlashFree(c.owner) && SlashFree(c.repo))
  {
    var r := ResolveCatalogSource(m, source);
    if r.Repository? {
      assert RepoName(r.owner) && RepoName(r.repo);
      RepoNameSlashFree(r.owner);
      RepoNameSlashFree(r.repo);
    }
  }

  // ---- The three ways to name a GitHub repository ----

  lemma {:induction false} NoSpaces(s: string)
    requires s != "" && !IsSpace(s[0]) && !IsSpace(s[|s| - 1])
    ensures TrimSpace(s) == s
  {
  }

  lemma RepoNameEnds(s: string)
    requires RepoName(s)
    ensures !IsSpace(s[0]) && !IsSpace(s[|s| - 1]) && s[0] != '/' && s[0] != '~'
  {
    assert s[0] in s && s[|s| - 1] in s;
  }

  lemma RawUrlIsManifest(m: Machine, owner: string, repo: string)
    ensures ResolveCatalogSource(m, RawUrl(owner, repo)) == Manifest(RawUrl(owner, repo))
  {
    var url := RawUrl(owner, repo);
    assert url[0] == 'h' && url[|url| - 1] == 'l' && url[..8] == "https://";
    NoSpaces(url);
  }

  lemma FirstTwoOf(owner: string, repo: string, rest: string)
    requires owner != "" && repo != "" && SlashFree(owner) && SlashFree(repo)
    ensures FirstTwo("/" + (owner + "/" + (repo + "/" + rest))) == Some((owner, repo))
  {
    var tail := owner + "/" + (repo + "/" + rest);
    assert ("/" + tail)[1..] == tail && ("/" + tail)[..1] == "/";
    CutOfJoin(owner, repo + "/" + rest, '/');
    CutOfJoin(repo, rest, '/');
  }

  lemma RawHostLower()
    ensures ToLower(RAW_HOST) == RAW_HOST
  {
  }

  lemma RawPathSegments(owner: string, repo: string)
    requires RepoName(owner) && RepoName(repo)
    ensures GitHubPath(Url(RAW_HOST, RawPath(owner, repo))) == Some((owner, repo))
  {
    RepoNameSlashFree(owner);
    RepoNameSlashFree(repo);
    assert repo + "/main/index.yaml" == repo + "/" + "main/index.yaml";
    FirstTwoOf(owner, repo, "main/index.yaml");
    RawHostLower();
  }

  lemma ManifestClassified(m: Machine, url: string, u: Url, owner: string, repo: string)
    requires m.parse(url) == Some(u) && GitHubPath(u) == Some((owner, repo))
    ensures Classified(m, Manifest(url)) == GitHub(u.host, owner, repo)
  {
  }

  /** The manifest URL of a repository is on GitHub, with that owner and repository. */
  lemma ManifestIsGitHub(m: Machine, owner: string, repo: string)
    requires MachineOK(m) && RepoName(owner) && RepoName(repo)
    ensures Classify(m, RawUrl(owner, repo)) == GitHub(RAW_HOST, owner, repo)
  {
    var url := RawUrl(owner, repo);
    RawUrlIsManifest(m, owner, repo);
    RawPathSegments(owner, repo);
    ManifestClassified(m, url, Url(RAW_HOST, RawPath(owner, repo)), owner, repo);
  }

  lemma PrefixHead(s: string, head: string, rest: string, prefix: string)
    requires s == head + "/" + rest && SlashFree(head) && SlashFree(prefix)
    ensures HasPrefix(s, prefix + "/") <==> head == prefix
    ensures head == prefix ==> s[|prefix| + 1..] == rest
  {
    if HasPrefix(s, prefix + "/") {
      var tail := s[|prefix| + 1..];
      assert s == prefix + "/" + tail;
      JoinInjective(head, rest, prefix, tail, '/');
    }
  }

  lemma NoLocalHead(s: string, head: string, rest: string)
    requires s == head + "/" + rest && RepoName(head)
    ensures LocalPath(s) <==> head == "." || head == ".."
  {
    RepoNameSlashFree(head);
    RepoNameEnds(head);
    PrefixHead(s, head, rest, ".");
    PrefixHead(s, head, rest, "..");
    assert s[|head|] == '/' && s[0] == head[0];
    assert |head| > 1 ==> s[1] == head[1] && head[1] in head;
    assert |head| > 2 ==> s[2] == head[2] && head[2] in head;
  }

  lemma NoColon(head: string)
    requires RepoName(head)
    ensures ':' !in head
  {
  }

  lemma PrefixShorter(s: string, prefix: string, more: string)
    ensures HasPrefix(s, prefix + more) ==> HasPrefix(s, prefix)
  {
    if HasPrefix(s, prefix + more) {
      assert s[..|prefix|] == s[..|prefix + more|][..|prefix|];
    }
  }

  /** A text whose first segment is a name is no URL. */
  lemma NoUrl(s: string, head: string, rest: string)
    requires s == head + "/" + rest && RepoName(head)
    ensures !HasPrefix(s, "https://") && !HasPrefix(s, "http://")
  {
    RepoNameSlashFree(head);
    NoColon(head);
    PrefixHead(s, head, rest, "https:");
    PrefixHead(s, head, rest, "http:");
    assert "https:"[5] == ':' && "http:"[4] == ':';
    PrefixShorter(s, "https:" + "/", "/");
    PrefixShorter(s, "http:" + "/", "/");
  }

  lemma {:induction false} OwnerRepoOfNames(owner: string, repo: string)
    requires RepoName(owner) && RepoName(repo)
    ensures OwnerRepo(owner + "/" + repo) && Cut(owner + "/" + repo, '/') == Pieces(owner, repo, true)
    ensures !OwnerRepo(repo)
  {
    RepoNameSlashFree(owner);
    RepoNameSlashFree(repo);
    CutOfJoin(owner, repo, '/');
  }

  lemma RepositoryResolves(m: Machine, s: string, owner: string, repo: string)
    requires !LocalPath(s) && TrimPrefix(s, "github.com/") == owner + "/" + repo && RepoName(owner) && RepoName(repo)
    ensures ResolveName(m, s) == Repository(owner, repo)
  {
    OwnerRepoOfNames(owner, repo);
  }

  lemma ShorthandResolves(m: Machine, owner: string, repo: string)
    requires RepoName(owner) && RepoName(repo) && owner !in {".", "..", "github.com"}
    ensures ResolveName(m, owner + "/" + repo) == Repository(owner, repo)
  {
    var s := owner + "/" + repo;
    RepoNameSlashFree(owner);
    NoLocalHead(s, owner, repo);
    PrefixHead(s, owner, repo, "github.com");
    assert TrimPrefix(s, "github.com" + "/") == s;
    RepositoryResolves(m, s, owner, repo);
  }

  lemma LocalResolves(m: Machine, s: string)
    requires LocalPath(s) || !OwnerRepo(TrimPrefix(s, "github.com/"))
    ensures ResolveName(m, s) in {Local, Malformed}
  {
  }

  /** A dot segment in front makes it a local path, and the host in front is taken off. */
  lemma ShorthandMisread(m: Machine, owner: string, repo: string)
    requires RepoName(owner) && RepoName(repo) && owner in {".", "..", "github.com"}
    ensures ResolveName(m, owner + "/" + repo) in {Local, Malformed}
  {
    var s := owner + "/" + repo;
    RepoNameSlashFree(owner);
    if owner == "github.com" {
      OwnerRepoOfNames(owner, repo);
      PrefixHead(s, owner, repo, "github.com");
      assert TrimPrefix(s, "github.com" + "/") == repo;
    } else {
      NoLocalHead(s, owner, repo);
    }
    LocalResolves(m, s);
  }

  lemma {:induction false} SourceEnds(head: string, repo: string)
    requires RepoName(head) && RepoName(repo)
    ensures TrimSpace(head + "/" + repo) == head + "/" + repo
  {
    RepoNameEnds(head);
    RepoNameEnds(repo);
    var s := head + "/" + repo;
    assert s[0] == head[0] && s[|s| - 1] == repo[|repo| - 1];
    NoSpaces(s);
  }

  /** The short form owner/repo names that repository exactly when the owner is no path segment of its own and not the host. */
  lemma ShorthandIsGitHubIff(m: Machine, owner: string, repo: string)
    requires MachineOK(m) && RepoName(owner) && RepoName(repo)
    ensures Classify(m, owner + "/" + repo) == GitHub(RAW_HOST, owner, repo) <==> owner !in {".", "..", "github.com"}
  {
    SourceEnds(owner, repo);
    NoUrl(owner + "/" + repo, owner, repo);
    if owner in {".", "..", "github.com"} {
      ShorthandMisread(m, owner, repo);
    } else {
      ShorthandResolves(m, owner, repo);
    }
  }

  lemma HostedFormResolves(m: Machine, owner: string, repo: string)
    requires RepoName(owner) && RepoName(repo)
    ensures ResolveName(m, "github.com/" + (owner + "/" + repo)) == Repository(owner, repo)
  {
    var rest := owner + "/" + repo;
    var s := "github.com/" + rest;
    assert s == "github.com" + "/" + rest;
    NoLocalHead(s, "github.com", rest);
    PrefixHead(s, "github.com", rest, "github.com");
    OwnerRepoOfNames(owner, repo);
  }

  /** With the host in front every repository can be named. */
  lemma HostedFormIsGitHub(m: Machine, owner: string, repo: string)
    requires MachineOK(m) && RepoName(owner) && RepoName(repo)
    ensures Classify(m, "github.com/" + (owner + "/" + repo)) == GitHub(RAW_HOST, owner, repo)
  {
    var s := "github.com/" + (owner + "/" + repo);
    assert s == "github.com" + "/" + (owner + "/" + repo);
    RepoNameEnds(repo);
    assert s[0] == 'g' && s[|s| - 1] == repo[|repo| - 1];
    NoSpaces(s);
    NoUrl(s, "github.com", owner + "/" + repo);
    HostedFormResolves(m, owner, repo);
  }

  // ---- URLs and paths ----

  lemma {:induction false} TrimKeepsStart(start: string, rest: string)
    requires start != "" && start[0] !in WHITE_SPACE && start[|start| - 1] !in WHITE_SPACE
    ensures HasPrefix(TrimSpace(start + rest), start)
    decreases |rest|
  {
    var s := start + rest;
    assert s[0] == start[0];
    if rest == "" {
      assert s == start;
    } else if IsSpace(s[|s| - 1]) {
      TrimKeepsStart(start, rest[..|rest| - 1]);
      assert s[..|s| - 1] == start + rest[..|rest| - 1];
    }
  }

  /** An unencrypted URL is refused, whatever comes after the scheme, and nothing is fetched for it. */
  lemma PlainHttpRefused(m: Machine, rest: string)
    ensures ResolveCatalogSource(m, "http://" + rest) == Malformed
    ensures Classify(m, "http://" + rest) == NotRemote
  {
    var s := TrimSpace("http://" + rest);
    TrimKeepsStart("http://", rest);
    assert s[..7] == "http://";
    assert s[4] == ':';
    assert "https://"[4] == 's';
  }

  lemma PathHead(owner: string, repo: string, path: string)
    requires owner != "" && repo != "" && SlashFree(owner) && SlashFree(repo)
    requires path == "/" + (owner + "/" + repo) || exists rest :: path == "/" + (owner + "/" + (repo + "/" + rest))
    ensures FirstTwo(path) == Some((owner, repo))
  {
    if path == "/" + (owner + "/" + repo) {
      assert path[1..] == owner + "/" + repo && path[..1] == "/";
      CutOfJoin(owner, repo, '/');
    } else {
      var rest :| path == "/" + (owner + "/" + (repo + "/" + rest));
      FirstTwoOf(owner, repo, rest);
    }
  }

  /**
    An https URL is what its parsed parts say: nothing remote without a host, a repository for
    the two GitHub hosts in any case, otherwise its host.
   */
  lemma {:induction false} UrlClassified(m: Machine, url: string, u: Url)
    requires HasPrefix(url, "https://") && TrimSpace(url) == url && m.parse(url) == Some(u)
    ensures u.host == "" ==> Classify(m, url) == NotRemote
    ensures u.host != "" && ToLower(u.host) !in {"github.com", "raw.githubusercontent.com"} ==> Classify(m, url) == Remote(u.host)
    ensures forall owner, repo |
              && ToLower(u.host) in {"github.com", "raw.githubusercontent.com"}
              && owner != "" && repo != "" && SlashFree(owner) && SlashFree(repo)
              && (u.path == "/" + (owner + "/" + repo) || exists rest :: u.path == "/" + (owner + "/" + (repo + "/" + rest))) ::
              Classify(m, url) == GitHub(u.host, owner, repo)
  {
    assert ResolveCatalogSource(m, url) == Manifest(url);
    forall owner, repo |
      && ToLower(u.host) in {"github.com", "raw.githubusercontent.com"}
      && owner != "" && repo != "" && SlashFree(owner) && SlashFree(repo)
      && (u.path == "/" + (owner + "/" + repo) || exists rest :: u.path == "/" + (owner + "/" + (repo + "/" + rest)))
      ensures Classify(m, url) == GitHub(u.host, owner, repo)
    {
      PathHead(owner, repo, u.path);
      ManifestClassified(m, url, u, owner, repo);
    }
  }

  /** What starts like a path is one: local if it can be accessed, refused otherwise, remote never. */
  lemma PathIsLocal(m: Machine, start: string, rest: string)
    requires start in {"/", "./", "../", "~/"} && rest != "" && rest[|rest| - 1] !in WHITE_SPACE
    ensures ResolveCatalogSource(m, start + rest) == if m.accessible(start + rest) then Local else Malformed
    ensures Classify(m, start + rest) == NotRemote
  {
    var s := start + rest;
    assert s[0] == start[0] && s[|s| - 1] == rest[|rest| - 1];
    NoSpaces(s);
    assert HasPrefix(s, start);
    assert "https://"[0] == 'h' && "http://"[0] == 'h';
  }

  lemma PrefixSlash(s: string, prefix: string)
    requires '/' in prefix
    ensures HasPrefix(s, prefix) ==> '/' in s
  {
    if HasPrefix(s, prefix) {
      var i :| 0 <= i < |prefix| && prefix[i] == '/';
      assert s[i] == s[..|prefix|][i];
    }
  }

  /** A text without a slash names no repository and no URL: it is a file, if there is one. */
  lemma PlainWordIsLocal(m: Machine, word: string)
    requires word != "" && SlashFree(word) && word[0] !in WHITE_SPACE && word[|word| - 1] !in WHITE_SPACE
    ensures ResolveCatalogSource(m, word) == if m.accessible(word) then Local else Malformed
    ensures Classify(m, word) == NotRemote
  {
    NoSpaces(word);
    assert "https://"[6] == '/' && "http://"[5] == '/' && "github.com/"[10] == '/';
    PrefixSlash(word, "https://");
    PrefixSlash(word, "http://");
    PrefixSlash(word, "github.com/");
    assert TrimPrefix(word, "github.com/") == word;
  }
}
