/** The enterprise allow-list for plugin catalogs: which entries let which sources in. */
module AllowList {
  import opened Text
  import opened HostPattern
  import opened CatalogSource

  const GITHUB_PREFIX := "github.com/"

  predicate IsGitHubEntry(entry: string) {
    HasPrefix(Normal(entry), GITHUB_PREFIX)
  }

  predicate IsHostPattern(entry: string) {
    HasPrefix(entry, "*.") || '.' in entry
  }

  /** The three kinds of entry, each with authority over one kind of source only. */
  predicate Grants(entry: string, name: string, source: Source) {
    match source
    case GitHub(_, owner, repo) =>
      IsGitHubEntry(entry) && Covers(ParseScope(Normal(entry)[|GITHUB_PREFIX|..]), ToLower(owner), ToLower(repo))
    case Remote(host) =>
      var p, h := Normal(entry), ToLower(host);
      && !IsGitHubEntry(entry) && IsHostPattern(entry)
      && if HasPrefix(p, "*.") then p == h || IsProperTail(Labels(p[2..]), Labels(h)) else IsTail(Labels(p), Labels(h))
    case NotRemote => !IsGitHubEntry(entry) && !IsHostPattern(entry) && entry == name
  }

  predicate Permits(allowed: seq<string>, name: string, source: Source) {
    allowed == [] || exists entry | entry in allowed :: Grants(entry, name, source)
  }

  /** One round of the loop. */
  method EntryAllows(entry: string, name: string, host: string, gh: Option<(string, string)>, ghost target: Source) returns (ok: bool)
    requires target.NotRemote? <==> host == ""
    requires target.GitHub? <==> gh.Some?
    requires match target
             case NotRemote => true
             case Remote(h) => h == host
             case GitHub(_, owner, repo) => gh == Some((owner, repo)) && SlashFree(owner) && SlashFree(repo)
    ensures ok <==> Grants(entry, name, target)
  {
    var le := Normal(entry);
    HostMatchesIff(entry, host);
    if HasPrefix(le, GITHUB_PREFIX) {
      if gh.None? {
        return false;
      }
      ScopeMatchesIff(le[|GITHUB_PREFIX|..], gh.value.0, gh.value.1);
      return GitHubScopeMatches(le[|GITHUB_PREFIX|..], gh.value.0 + "/" + gh.value.1);
    } else if IsHostPattern(entry) {
      return gh.None? && host != "" && HostMatches(entry, host);
    } else {
      return entry == name && host == "";
    }
  }

  method IsAllowed(m: Machine, allowed: seq<string>, name: string, source: string) returns (ok: bool)
    requires MachineOK(m)
    ensures ok <==> Permits(allowed, name, Classify(m, source))
  {
    if |allowed| == 0 {
      return true;
    }
    var host := SourceHost(m, source);
    var gh := SourceGitHubOwnerRepo(m, source);
    ghost var target := Classify(m, source);
    ClassifiedSource(m, source);
    for i := 0 to |allowed|
      invariant forall j | 0 <= j < i :: !Grants(allowed[j], name, target)
    {
      var granted := EntryAllows(allowed[i], name, host, gh, target);
      if granted {
        assert allowed[i] in allowed;
        return true;
      }
    }
    return false;
  }

  lemma {:induction false} TrimKeepsDots(s: string)
    ensures '.' in TrimSpace(s) ==> '.' in s
  {
    if s == "" {
    } else if IsSpace(s[0]) {
      TrimKeepsDots(s[1..]);
    } else if IsSpace(s[|s| - 1]) {
      TrimKeepsDots(s[..|s| - 1]);
    }
  }

  /** A GitHub scope contains a dot however it is written, so an entry without one can only be a name. */
  lemma UndottedIsName(entry: string)
    ensures '.' !in entry ==> !IsGitHubEntry(entry) && !IsHostPattern(entry)
    ensures '.' in entry ==> IsHostPattern(entry)
  {
    if HasPrefix(entry, "*.") {
      assert entry[1] == entry[..2][1] == '.';
    }
    if IsGitHubEntry(entry) {
      var t := TrimSpace(entry);
      assert Normal(entry)[6] == Normal(entry)[..|GITHUB_PREFIX|][6] == '.';
      assert LowerChar(t[6]) == '.';
      assert t[6] in t;
      TrimKeepsDots(entry);
    }
  }

  /** A source that is not remote is let in by its catalog's name alone, and only if that name has no dot. */
  lemma LocalPermittedIff(allowed: seq<string>, name: string)
    ensures Permits(allowed, name, NotRemote) <==> allowed == [] || (name in allowed && '.' !in name)
  {
    UndottedIsName(name);
  }

  /**
    A remote source is let in by its host alone: an entry with a dot that is no GitHub scope and
    is, up to ASCII case, the host, its parent, or the parent behind a "*.".
   */
  lemma RemotePermittedIff(allowed: seq<string>, name: string, host: string)
    ensures Permits(allowed, name, Remote(host)) <==>
              || allowed == []
              || exists entry :: entry in allowed && '.' in entry &&
                   var p, h := Normal(entry), ToLower(host);
                   && !HasPrefix(p, "github.com/")
                   && (p == h || (if HasPrefix(p, "*.") then HasSuffix(h, p[1..]) else HasSuffix(h, "." + p)))
  {
    forall entry
      ensures Grants(entry, name, Remote(host)) <==> '.' in entry && !HasPrefix(Normal(entry), "github.com/") && HostMatches(entry, host)
    {
      UndottedIsName(entry);
      HostMatchesIff(entry, host);
    }
  }

  /** Whichever way a GitHub repository is named, every allow-list decides it alike, and only its GitHub scopes do. */
  lemma GitHubFormsAlike(m: Machine, allowed: seq<string>, name: string, owner: string, repo: string)
    requires MachineOK(m) && RepoName(owner) && RepoName(repo)
    ensures var decided := allowed == [] || exists entry | entry in allowed ::
                             IsGitHubEntry(entry) && GitHubScopeMatches(Normal(entry)[|GITHUB_PREFIX|..], owner + "/" + repo);
            && (Permits(allowed, name, Classify(m, RawUrl(owner, repo))) <==> decided)
            && (Permits(allowed, name, Classify(m, "github.com/" + (owner + "/" + repo))) <==> decided)
            && (owner !in {".", "..", "github.com"} ==> (Permits(allowed, name, Classify(m, owner + "/" + repo)) <==> decided))
  {
    ManifestIsGitHub(m, owner, repo);
    HostedFormIsGitHub(m, owner, repo);
    ShorthandIsGitHubIff(m, owner, repo);
    RepoNameSlashFree(owner);
    RepoNameSlashFree(repo);
    forall entry | entry in allowed && IsGitHubEntry(entry)
      ensures GitHubScopeMatches(Normal(entry)[|GITHUB_PREFIX|..], owner + "/" + repo) <==> Grants(entry, name, GitHub(RAW_HOST, owner, repo))
    {
      ScopeMatchesIff(Normal(entry)[|GITHUB_PREFIX|..], owner, repo);
    }
  }
}
