/**
  Refreshing one session from the API: merge what was discovered into the display-name
  cache, regenerate the session's contexts, and drop cache entries no context refers to.
 */
module Discovery {
  import opened Text
  import opened KeyedList
  import opened ConfigTypes
  import opened Resolver
  import opened ConfigStore

  datatype DiscoveredOrg = DiscoveredOrg(name: string, displayName: string)

  datatype DiscoveredProject = DiscoveredProject(name: string, displayName: string, orgName: string)

  // ---- The entries a discovery gives rise to ----

  function OrgEntry(s: string, o: DiscoveredOrg): CachedOrg {
    CachedOrg(o.name, o.displayName, s)
  }

  function ProjectEntry(s: string, p: DiscoveredProject): CachedProject {
    CachedProject(p.name, p.displayName, p.orgName, s)
  }

  function OrgContext(s: string, o: DiscoveredOrg): DiscoveredContext {
    var c := DiscoveredContext("", s, o.name, "", "");
    c.(name := c.QualifiedName())
  }

  function ProjectContext(s: string, p: DiscoveredProject): DiscoveredContext {
    var c := DiscoveredContext("", s, p.orgName, p.name, DEFAULT_NAMESPACE);
    c.(name := c.QualifiedName())
  }

  function OrgEntries(s: string, orgs: seq<DiscoveredOrg>): seq<CachedOrg> {
    seq(|orgs|, i requires 0 <= i < |orgs| => OrgEntry(s, orgs[i]))
  }

  function ProjectEntries(s: string, projects: seq<DiscoveredProject>): seq<CachedProject> {
    seq(|projects|, i requires 0 <= i < |projects| => ProjectEntry(s, projects[i]))
  }

  function OrgContexts(s: string, orgs: seq<DiscoveredOrg>): seq<DiscoveredContext> {
    seq(|orgs|, i requires 0 <= i < |orgs| => OrgContext(s, orgs[i]))
  }

  function ProjectContexts(s: string, projects: seq<DiscoveredProject>): seq<DiscoveredContext> {
    seq(|projects|, i requires 0 <= i < |projects| => ProjectContext(s, projects[i]))
  }

  function FreshContexts(s: string, orgs: seq<DiscoveredOrg>, projects: seq<DiscoveredProject>): seq<DiscoveredContext> {
    OrgContexts(s, orgs) + ProjectContexts(s, projects)
  }

  // ---- References from contexts into the cache ----

  function ReferencedOrgs(cs: seq<DiscoveredContext>): set<(string, string)> {
    set c | c in cs && c.organizationID != "" :: (c.organizationID, c.session)
  }

  function ReferencedProjects(cs: seq<DiscoveredContext>): set<(string, string)> {
    set c | c in cs && c.projectID != "" :: (c.projectID, c.session)
  }

  function OrgIn(refs: set<(string, string)>): CachedOrg -> bool {
    (o: CachedOrg) => OrgKey(o) in refs
  }

  function ProjectIn(refs: set<(string, string)>): CachedProject -> bool {
    (p: CachedProject) => ProjectKey(p) in refs
  }

  // ---- The three steps and their composition ----

  function Merge(cfg: Config, s: string, orgs: seq<DiscoveredOrg>, projects: seq<DiscoveredProject>): Config {
    cfg.(
      organizations := UpsertAll(OrgKey, cfg.organizations, OrgEntries(s, orgs)),
      projects := UpsertAll(ProjectKey, cfg.projects, ProjectEntries(s, projects)))
  }

  function Sync(cfg: Config, s: string, orgs: seq<DiscoveredOrg>, projects: seq<DiscoveredProject>): Config {
    cfg.(contexts := UpsertAll(ContextNameOf, Keep(NotOwnedBy(s), cfg.contexts), FreshContexts(s, orgs, projects)))
  }

  function Collect(cfg: Config): Config {
    cfg.(
      organizations := Keep(OrgIn(ReferencedOrgs(cfg.contexts)), cfg.organizations),
      projects := Keep(ProjectIn(ReferencedProjects(cfg.contexts)), cfg.projects))
  }

  function Refresh(cfg: Config, s: string, orgs: seq<DiscoveredOrg>, projects: seq<DiscoveredProject>, now: int): Config {
    Collect(Sync(Merge(cfg.(lastRefreshed := Some(now)), s, orgs, projects), s, orgs, projects))
  }

  // ---- The session's own contexts after a refresh ----

  /** The other sessions' names carry their own session, so they never equal a fresh name. */
  ghost predicate OthersQualified(cfg: Config, s: string) {
    && SlashFree(s)
    && DistinctKeys(ContextNameOf, cfg.contexts)
    && forall c | c in cfg.contexts && c.session != s :: SlashFree(c.session) && c.name == c.QualifiedName()
  }

  lemma FreshShape(s: string, orgs: seq<DiscoveredOrg>, projects: seq<DiscoveredProject>)
    ensures forall c | c in FreshContexts(s, orgs, projects) :: c.session == s && c.name == c.QualifiedName()
  {
  }

  lemma FreshNamesApart(cfg: Config, s: string, orgs: seq<DiscoveredOrg>, projects: seq<DiscoveredProject>)
    requires OthersQualified(cfg, s)
    ensures forall c, f | c in cfg.contexts && c.session != s && f in FreshContexts(s, orgs, projects) :: c.name != f.name
  {
    FreshShape(s, orgs, projects);
    forall c, f | c in cfg.contexts && c.session != s && f in FreshContexts(s, orgs, projects)
      ensures c.name != f.name
    {
      if c.name == f.name {
        JoinInjective(c.session, c.Ref(), s, f.Ref(), '/');
      }
    }
  }

  /** No two discovered entries claim one name with different contents. */
  ghost predicate Unambiguous(found: seq<DiscoveredContext>) {
    forall c, d | c in found && d in found && c.name == d.name :: c == d
  }

  lemma RefreshedContexts(cfg: Config, s: string, orgs: seq<DiscoveredOrg>, projects: seq<DiscoveredProject>, now: int)
    requires OthersQualified(cfg, s)
    ensures DistinctKeys(ContextNameOf, Refresh(cfg, s, orgs, projects, now).contexts)
    ensures Keep(NotOwnedBy(s), Refresh(cfg, s, orgs, projects, now).contexts) == Keep(NotOwnedBy(s), cfg.contexts)
    ensures forall c | c in Refresh(cfg, s, orgs, projects, now).contexts :: c in cfg.contexts || c in FreshContexts(s, orgs, projects)
  {
    var others, found := Keep(NotOwnedBy(s), cfg.contexts), FreshContexts(s, orgs, projects);
    KeepMembers(NotOwnedBy(s), cfg.contexts);
    KeepDistinct(ContextNameOf, NotOwnedBy(s), cfg.contexts);
    UpsertAllDistinct(ContextNameOf, others, found);
    UpsertAllMembers(ContextNameOf, others, found);
    FreshShape(s, orgs, projects);
    FreshNamesApart(cfg, s, orgs, projects);
    KeepUpsertAll(ContextNameOf, NotOwnedBy(s), others, found);
    KeepAll(NotOwnedBy(s), others);
    KeepNothing(NotOwnedBy(s), found);
  }

  ghost predicate OwnsExactly(cs: seq<DiscoveredContext>, s: string, found: seq<DiscoveredContext>) {
    forall c: DiscoveredContext | c.session == s :: multiset(cs)[c] == if c in found then 1 else 0
  }

  lemma OwnedAreFound(cfg: Config, s: string, orgs: seq<DiscoveredOrg>, projects: seq<DiscoveredProject>, now: int)
    ensures forall c | c in Refresh(cfg, s, orgs, projects, now).contexts && c.session == s :: c in FreshContexts(s, orgs, projects)
  {
    KeepMembers(NotOwnedBy(s), cfg.contexts);
    UpsertAllMembers(ContextNameOf, Keep(NotOwnedBy(s), cfg.contexts), FreshContexts(s, orgs, projects));
  }

  lemma {:induction false} UnambiguousSurvive(xs: seq<DiscoveredContext>, found: seq<DiscoveredContext>, c: DiscoveredContext)
    requires Unambiguous(found) && c in found
    ensures c in UpsertAll(ContextNameOf, xs, found)
  {
    var after := UpsertAll(ContextNameOf, xs, found);
    UpsertAllSettles(ContextNameOf, xs, found);
    var i := FirstIndex(ContextNameOf, after, ContextNameOf(c));
    assert LastFor(ContextNameOf, found, ContextNameOf(c)) == Some(after[i]);
  }

  /**
    After a refresh the session owns exactly one context per discovered organization and
    per discovered (organization, project), and no others - provided, and only provided,
    that no two discovered entries claim one name.
   */
  lemma RefreshOwnsExactlyDiscovered(cfg: Config, s: string, orgs: seq<DiscoveredOrg>, projects: seq<DiscoveredProject>, now: int)
    requires OthersQualified(cfg, s)
    ensures OwnsExactly(Refresh(cfg, s, orgs, projects, now).contexts, s, FreshContexts(s, orgs, projects))
       <==> Unambiguous(FreshContexts(s, orgs, projects))
  {
    var found, after := FreshContexts(s, orgs, projects), Refresh(cfg, s, orgs, projects, now).contexts;
    RefreshedContexts(cfg, s, orgs, projects, now);
    FreshShape(s, orgs, projects);
    if Unambiguous(found) {
      forall c: DiscoveredContext | c.session == s
        ensures multiset(after)[c] == if c in found then 1 else 0
      {
        DistinctOnce(ContextNameOf, after, c);
        OwnedAreFound(cfg, s, orgs, projects, now);
        if c in found {
          UnambiguousSurvive(Keep(NotOwnedBy(s), cfg.contexts), found, c);
        }
      }
    } else {
      var c, d :| c in found && d in found && c.name == d.name && c != d;
      DistinctSame(ContextNameOf, after, c, d);
      assert multiset(after)[c] == 0 || multiset(after)[d] == 0;
    }
  }

  lemma FreshDetails(s: string, orgs: seq<DiscoveredOrg>, projects: seq<DiscoveredProject>, c: DiscoveredContext)
    requires forall o | o in orgs :: SlashFree(o.name)
    requires forall p | p in projects :: SlashFree(p.orgName)
    requires c in FreshContexts(s, orgs, projects)
    ensures c.session == s && SlashFree(c.organizationID) && c.name == c.QualifiedName()
    ensures (forall p | p in projects :: p.name != "") ==> c.namespace == if c.projectID == "" then "" else DEFAULT_NAMESPACE
  {
  }

  /** API resource names contain no slash, and a project has a name: then no name is claimed twice. */
  lemma ResourceNamesUnambiguous(s: string, orgs: seq<DiscoveredOrg>, projects: seq<DiscoveredProject>)
    requires forall o | o in orgs :: SlashFree(o.name)
    requires forall p | p in projects :: SlashFree(p.orgName) && p.name != ""
    requires SlashFree(s)
    ensures Unambiguous(FreshContexts(s, orgs, projects))
  {
    var found := FreshContexts(s, orgs, projects);
    forall c, d | c in found && d in found && c.name == d.name
      ensures c == d
    {
      FreshDetails(s, orgs, projects, c);
      FreshDetails(s, orgs, projects, d);
      QualifiedNameInjective(c, d);
    }
  }

  /** A project without a name claims the name of its organization: one of the two is lost. */
  lemma NamelessProjectExample() returns (org: DiscoveredOrg, project: DiscoveredProject)
    ensures SlashFree(org.name) && SlashFree(project.orgName)
    ensures !OwnsExactly(Refresh(EMPTY_CONFIG, "s", [org], [project], 0).contexts, "s", FreshContexts("s", [org], [project]))
  {
    org, project := DiscoveredOrg("acme", ""), DiscoveredProject("", "", "acme");
    var found := FreshContexts("s", [org], [project]);
    var c, d := OrgContext("s", org), ProjectContext("s", project);
    assert found[0] == c && found[1] == d;
    assert c.name == d.name && c.namespace != d.namespace;
    assert !Unambiguous(found);
    RefreshOwnsExactlyDiscovered(EMPTY_CONFIG, "s", [org], [project], 0);
  }

  // ---- The cache after a refresh ----

  /** Nothing is left in the cache that no context refers to. */
  lemma RefreshCacheReferenced(cfg: Config, s: string, orgs: seq<DiscoveredOrg>, projects: seq<DiscoveredProject>, now: int)
    ensures var after := Refresh(cfg, s, orgs, projects, now);
            && (forall o | o in after.organizations ::
                  exists c :: c in after.contexts && c.organizationID == o.id && c.session == o.session)
            && (forall p | p in after.projects ::
                  exists c :: c in after.contexts && c.projectID == p.id && c.session == p.session)
  {
    var synced := Sync(Merge(cfg.(lastRefreshed := Some(now)), s, orgs, projects), s, orgs, projects);
    KeepMembers(OrgIn(ReferencedOrgs(synced.contexts)), synced.organizations);
    KeepMembers(ProjectIn(ReferencedProjects(synced.contexts)), synced.projects);
  }

  // ---- What the cache says about the refreshed session ----

  /** API resource names contain no slash. */
  predicate SlashFreeNames(orgs: seq<DiscoveredOrg>, projects: seq<DiscoveredProject>) {
    (forall o | o in orgs :: SlashFree(o.name)) && (forall p | p in projects :: SlashFree(p.orgName))
  }

  lemma SameNameSameIDs(s: string, orgs: seq<DiscoveredOrg>, projects: seq<DiscoveredProject>, c: DiscoveredContext, d: DiscoveredContext)
    requires SlashFreeNames(orgs, projects)
    requires c in FreshContexts(s, orgs, projects) && d in FreshContexts(s, orgs, projects) && c.name == d.name
    ensures c.organizationID == d.organizationID && c.projectID == d.projectID
  {
    FreshDetails(s, orgs, projects, c);
    FreshDetails(s, orgs, projects, d);
    assert c.name == (s + "/") + c.Ref() && d.name == (s + "/") + d.Ref();
    assert c.Ref() == c.name[|s + "/"|..] && d.Ref() == d.name[|s + "/"|..];
    RefInjective(c, d);
  }

  /** Whatever is discovered has a context with its IDs afterwards, whoever claimed its name last. */
  lemma {:induction false} DiscoveredHasContext(cfg: Config, s: string, orgs: seq<DiscoveredOrg>, projects: seq<DiscoveredProject>, now: int,
                                                c: DiscoveredContext) returns (d: DiscoveredContext)
    requires SlashFreeNames(orgs, projects) && c in FreshContexts(s, orgs, projects)
    ensures d in Refresh(cfg, s, orgs, projects, now).contexts && d in FreshContexts(s, orgs, projects)
    ensures d.session == s && d.organizationID == c.organizationID && d.projectID == c.projectID
  {
    var found, after := FreshContexts(s, orgs, projects), Refresh(cfg, s, orgs, projects, now).contexts;
    UpsertAllSettles(ContextNameOf, Keep(NotOwnedBy(s), cfg.contexts), found);
    d := after[FirstIndex(ContextNameOf, after, ContextNameOf(c))];
    assert LastFor(ContextNameOf, found, ContextNameOf(c)) == Some(d);
    SameNameSameIDs(s, orgs, projects, c, d);
    FreshDetails(s, orgs, projects, d);
  }

  lemma OrgContextFresh(s: string, orgs: seq<DiscoveredOrg>, projects: seq<DiscoveredProject>, i: nat)
    requires i < |orgs|
    ensures DiscoveredContext(s + "/" + orgs[i].name, s, orgs[i].name, "", "") in FreshContexts(s, orgs, projects)
  {
    assert FreshContexts(s, orgs, projects)[i] == OrgContext(s, orgs[i]);
  }

  lemma ProjectContextFresh(s: string, orgs: seq<DiscoveredOrg>, projects: seq<DiscoveredProject>, i: nat)
    requires i < |projects| && projects[i].name != ""
    ensures DiscoveredContext(s + "/" + (projects[i].orgName + "/" + projects[i].name), s, projects[i].orgName, projects[i].name, "default")
              in FreshContexts(s, orgs, projects)
  {
    assert FreshContexts(s, orgs, projects)[|orgs| + i] == ProjectContext(s, projects[i]);
    assert OrgContexts(s, orgs) + ProjectContexts(s, projects) == FreshContexts(s, orgs, projects);
  }

  /** The cache shows every discovered organization as the API last displayed it. */
  lemma RefreshCachesOrg(cfg: Config, s: string, orgs: seq<DiscoveredOrg>, projects: seq<DiscoveredProject>, now: int, i: nat)
    requires SlashFreeNames(orgs, projects)
    requires i < |orgs| && orgs[i].name != "" && forall j | i < j < |orgs| :: orgs[j].name != orgs[i].name
    ensures Find(OrgKey, Refresh(cfg, s, orgs, projects, now).organizations, (orgs[i].name, s))
         == Some(CachedOrg(orgs[i].name, orgs[i].displayName, s))
  {
    var after, es := Refresh(cfg, s, orgs, projects, now), OrgEntries(s, orgs);
    OrgContextFresh(s, orgs, projects, i);
    var c := DiscoveredContext(s + "/" + orgs[i].name, s, orgs[i].name, "", "");
    var d := DiscoveredHasContext(cfg, s, orgs, projects, now, c);
    assert (orgs[i].name, s) in ReferencedOrgs(after.contexts);
    UpsertAllFinds(OrgKey, cfg.organizations, es, i);
    KeepFinds(OrgKey, OrgIn(ReferencedOrgs(after.contexts)), UpsertAll(OrgKey, cfg.organizations, es), (orgs[i].name, s));
  }

  /** And every discovered project, with its organization. */
  lemma RefreshCachesProject(cfg: Config, s: string, orgs: seq<DiscoveredOrg>, projects: seq<DiscoveredProject>, now: int, i: nat)
    requires SlashFreeNames(orgs, projects)
    requires i < |projects| && projects[i].name != "" && forall j | i < j < |projects| :: projects[j].name != projects[i].name
    ensures Find(ProjectKey, Refresh(cfg, s, orgs, projects, now).projects, (projects[i].name, s))
         == Some(CachedProject(projects[i].name, projects[i].displayName, projects[i].orgName, s))
  {
    var after, es := Refresh(cfg, s, orgs, projects, now), ProjectEntries(s, projects);
    ProjectContextFresh(s, orgs, projects, i);
    var c := DiscoveredContext(s + "/" + (projects[i].orgName + "/" + projects[i].name), s, projects[i].orgName, projects[i].name, "default");
    var d := DiscoveredHasContext(cfg, s, orgs, projects, now, c);
    assert (projects[i].name, s) in ReferencedProjects(after.contexts);
    UpsertAllFinds(ProjectKey, cfg.projects, es, i);
    KeepFinds(ProjectKey, ProjectIn(ReferencedProjects(after.contexts)), UpsertAll(ProjectKey, cfg.projects, es), (projects[i].name, s));
  }

  /** What else is in the cache was there before, and what was there before and not discovered again stays exactly while a context refers to it. */
  lemma RefreshOrgsOrigin(cfg: Config, s: string, orgs: seq<DiscoveredOrg>, projects: seq<DiscoveredProject>, now: int)
    ensures var after := Refresh(cfg, s, orgs, projects, now);
            && (forall o | o in after.organizations ::
                  o in cfg.organizations || exists d :: d in orgs && o == CachedOrg(d.name, d.displayName, s))
            && (forall o | o in cfg.organizations && (o.session == s ==> forall d | d in orgs :: d.name != o.id) ::
                  o in after.organizations <==>
                    o.id != "" && exists c :: c in after.contexts && c.organizationID == o.id && c.session == o.session)
  {
    var after, es := Refresh(cfg, s, orgs, projects, now), OrgEntries(s, orgs);
    UpsertAllMembers(OrgKey, cfg.organizations, es);
    KeepMembers(OrgIn(ReferencedOrgs(after.contexts)), UpsertAll(OrgKey, cfg.organizations, es));
  }

  lemma RefreshProjectsOrigin(cfg: Config, s: string, orgs: seq<DiscoveredOrg>, projects: seq<DiscoveredProject>, now: int)
    ensures var after := Refresh(cfg, s, orgs, projects, now);
            && (forall p | p in after.projects ::
                  p in cfg.projects || exists d :: d in projects && p == CachedProject(d.name, d.displayName, d.orgName, s))
            && (forall p | p in cfg.projects && (p.session == s ==> forall d | d in projects :: d.name != p.id) ::
                  p in after.projects <==>
                    p.id != "" && exists c :: c in after.contexts && c.projectID == p.id && c.session == p.session)
  {
    var after, es := Refresh(cfg, s, orgs, projects, now), ProjectEntries(s, projects);
    UpsertAllMembers(ProjectKey, cfg.projects, es);
    KeepMembers(ProjectIn(ReferencedProjects(after.contexts)), UpsertAll(ProjectKey, cfg.projects, es));
  }

  /** No two cached entries of one session share an ID. */
  ghost predicate CacheKeyed(cfg: Config) {
    DistinctKeys(OrgKey, cfg.organizations) && DistinctKeys(ProjectKey, cfg.projects)
  }

  lemma RefreshKeyed(cfg: Config, s: string, orgs: seq<DiscoveredOrg>, projects: seq<DiscoveredProject>, now: int)
    requires CacheKeyed(cfg)
    ensures CacheKeyed(Refresh(cfg, s, orgs, projects, now))
  {
    var after := Refresh(cfg, s, orgs, projects, now);
    UpsertAllDistinct(OrgKey, cfg.organizations, OrgEntries(s, orgs));
    UpsertAllDistinct(ProjectKey, cfg.projects, ProjectEntries(s, projects));
    KeepDistinct(OrgKey, OrgIn(ReferencedOrgs(after.contexts)), UpsertAll(OrgKey, cfg.organizations, OrgEntries(s, orgs)));
    KeepDistinct(ProjectKey, ProjectIn(ReferencedProjects(after.contexts)), UpsertAll(ProjectKey, cfg.projects, ProjectEntries(s, projects)));
  }

  // ---- What the session owns, by IDs ----

  ghost predicate Lists(cs: seq<DiscoveredContext>, s: string, orgID: string, projectID: string) {
    exists c :: c in cs && c.session == s && c.organizationID == orgID && c.projectID == projectID
  }

  ghost predicate Reported(orgs: seq<DiscoveredOrg>, projects: seq<DiscoveredProject>, orgID: string, projectID: string) {
    || (projectID == "" && exists o :: o in orgs && o.name == orgID)
    || exists p :: p in projects && p.orgName == orgID && p.name == projectID
  }

  lemma FreshReported(s: string, orgs: seq<DiscoveredOrg>, projects: seq<DiscoveredProject>, orgID: string, projectID: string)
    ensures Lists(FreshContexts(s, orgs, projects), s, orgID, projectID) <==> Reported(orgs, projects, orgID, projectID)
  {
    var found := FreshContexts(s, orgs, projects);
    if o :| o in orgs && projectID == "" && o.name == orgID {
      var i :| 0 <= i < |orgs| && orgs[i] == o;
      assert found[i] == OrgContext(s, o);
    } else if p :| p in projects && p.orgName == orgID && p.name == projectID {
      var i :| 0 <= i < |projects| && projects[i] == p;
      assert found[|orgs| + i] == ProjectContext(s, p);
    }
  }

  /**
    After a refresh the session lists exactly the organizations and projects the API
    reported, each once, under its qualified name, whatever it listed before.
   */
  lemma RefreshListsReported(cfg: Config, s: string, orgs: seq<DiscoveredOrg>, projects: seq<DiscoveredProject>, now: int)
    requires OthersQualified(cfg, s) && SlashFreeNames(orgs, projects)
    ensures var after := Refresh(cfg, s, orgs, projects, now).contexts;
            && (forall orgID, projectID :: Lists(after, s, orgID, projectID) <==> Reported(orgs, projects, orgID, projectID))
            && (forall c | c in after && c.session == s ::
                  c.name == s + "/" + if c.projectID == "" then c.organizationID else c.organizationID + "/" + c.projectID)
            && (forall i, j | 0 <= i < j < |after| && after[i].session == s && after[j].session == s ::
                  after[i].organizationID != after[j].organizationID || after[i].projectID != after[j].projectID)
  {
    var after, found := Refresh(cfg, s, orgs, projects, now).contexts, FreshContexts(s, orgs, projects);
    OwnedAreFound(cfg, s, orgs, projects, now);
    RefreshedContexts(cfg, s, orgs, projects, now);
    FreshShape(s, orgs, projects);
    forall orgID, projectID
      ensures Lists(after, s, orgID, projectID) <==> Reported(orgs, projects, orgID, projectID)
    {
      FreshReported(s, orgs, projects, orgID, projectID);
      if c :| c in found && c.session == s && c.organizationID == orgID && c.projectID == projectID {
        var d := DiscoveredHasContext(cfg, s, orgs, projects, now, c);
      }
    }
    forall i, j | 0 <= i < j < |after| && after[i].session == s && after[j].session == s
      ensures after[i].organizationID != after[j].organizationID || after[i].projectID != after[j].projectID
    {
      assert ContextNameOf(after[i]) != ContextNameOf(after[j]);
      assert after[i] in after && after[j] in after;
    }
  }

  // ---- Display names in queries ----

  /** No discovered ID is written like this, so the word can only be a display name. */
  predicate OnlyAName(word: string, orgs: seq<DiscoveredOrg>, projects: seq<DiscoveredProject>) {
    && word != "" && SlashFree(word)
    && (forall o | o in orgs :: o.name != word)
    && (forall p | p in projects :: p.name != word && p.orgName != word)
  }

  lemma NoIDThere(cfg: Config, s: string, orgs: seq<DiscoveredOrg>, projects: seq<DiscoveredProject>, now: int, word: string)
    requires s != "" && OnlyAName(word, orgs, projects)
    ensures var v := ViewOf(Refresh(cfg, s, orgs, projects, now), s);
            !IsAnID(v, word) && forall c | c in v.contexts :: c.name != word
  {
    var after := Refresh(cfg, s, orgs, projects, now);
    ViewHolds(after, s);
    OwnedAreFound(cfg, s, orgs, projects, now);
    FreshShape(s, orgs, projects);
    forall c | c in ViewOf(after, s).contexts
      ensures c.name != word && c.organizationID != word && c.projectID != word
    {
      QualifiedHasSlash(c);
      FreshReported(s, orgs, projects, c.organizationID, c.projectID);
    }
  }

  /** The session's only cached organization displayed like this is the discovered one. */
  lemma OnlyOrgCached(cfg: Config, s: string, orgs: seq<DiscoveredOrg>, projects: seq<DiscoveredProject>, now: int, i: nat) returns (a: int)
    requires s != "" && SlashFreeNames(orgs, projects) && CacheKeyed(cfg)
    requires i < |orgs| && orgs[i].name !in {"", orgs[i].displayName} && forall j | i < j < |orgs| :: orgs[j].name != orgs[i].name
    requires forall o | o in orgs && o.displayName == orgs[i].displayName :: o.name == orgs[i].name
    requires forall o | o in cfg.organizations && o.session == s && o.displayName == orgs[i].displayName :: o.id == orgs[i].name
    ensures var v := ViewOf(Refresh(cfg, s, orgs, projects, now), s);
            OnlyOrgShown(v, a, orgs[i].displayName) && v.organizations[a].id == orgs[i].name
  {
    var after := Refresh(cfg, s, orgs, projects, now);
    var v, e := ViewOf(after, s), CachedOrg(orgs[i].name, orgs[i].displayName, s);
    RefreshKeyed(cfg, s, orgs, projects, now);
    KeepDistinct(OrgKey, OrgWithin(s), after.organizations);
    RefreshOrgsOrigin(cfg, s, orgs, projects, now);
    RefreshCachesOrg(cfg, s, orgs, projects, now, i);
    ViewHolds(after, s);
    assert e in v.organizations;
    a :| 0 <= a < |v.organizations| && v.organizations[a] == e;
    forall b | 0 <= b < |v.organizations| && OrgShown(v.organizations[b], orgs[i].displayName)
      ensures b == a
    {
      assert v.organizations[b] in v.organizations;
      assert OrgKey(v.organizations[b]) == OrgKey(v.organizations[a]);
    }
  }

  lemma OnlyProjectCached(cfg: Config, s: string, orgs: seq<DiscoveredOrg>, projects: seq<DiscoveredProject>, now: int, i: nat) returns (a: int)
    requires s != "" && SlashFreeNames(orgs, projects) && CacheKeyed(cfg)
    requires i < |projects| && projects[i].name !in {"", projects[i].displayName}
    requires forall j | i < j < |projects| :: projects[j].name != projects[i].name
    requires forall p | p in projects && p.displayName == projects[i].displayName :: p.name == projects[i].name
    requires forall p | p in cfg.projects && p.session == s && p.displayName == projects[i].displayName :: p.id == projects[i].name
    ensures var v := ViewOf(Refresh(cfg, s, orgs, projects, now), s);
            OnlyProjectShown(v, a, projects[i].displayName) && v.projects[a].id == projects[i].name
  {
    var after := Refresh(cfg, s, orgs, projects, now);
    var v, e := ViewOf(after, s), CachedProject(projects[i].name, projects[i].displayName, projects[i].orgName, s);
    RefreshKeyed(cfg, s, orgs, projects, now);
    KeepDistinct(ProjectKey, ProjectWithin(s), after.projects);
    RefreshProjectsOrigin(cfg, s, orgs, projects, now);
    RefreshCachesProject(cfg, s, orgs, projects, now, i);
    ViewHolds(after, s);
    assert e in v.projects;
    a :| 0 <= a < |v.projects| && v.projects[a] == e;
    forall b | 0 <= b < |v.projects| && ProjectShown(v.projects[b], projects[i].displayName)
      ensures b == a
    {
      assert v.projects[b] in v.projects;
      assert ProjectKey(v.projects[b]) == ProjectKey(v.projects[a]);
    }
  }

  /** Once refreshed, an organization can be named as the API displays it, if nothing else in the session goes by that name. */
  lemma OrgNameResolves(cfg: Config, s: string, orgs: seq<DiscoveredOrg>, projects: seq<DiscoveredProject>, now: int, i: nat)
    requires s != "" && SlashFreeNames(orgs, projects) && CacheKeyed(cfg)
    requires i < |orgs| && orgs[i].name != "" && forall j | i < j < |orgs| :: orgs[j].name != orgs[i].name
    requires OnlyAName(orgs[i].displayName, orgs, projects)
    requires forall o | o in orgs && o.displayName == orgs[i].displayName :: o.name == orgs[i].name
    requires forall o | o in cfg.organizations && o.session == s && o.displayName == orgs[i].displayName :: o.id == orgs[i].name
    ensures var r := ResolveInSession(Refresh(cfg, s, orgs, projects, now), orgs[i].displayName, s);
            r.Some? && r.value.session == s && r.value.organizationID == orgs[i].name && r.value.projectID == ""
  {
    var after, word := Refresh(cfg, s, orgs, projects, now), orgs[i].displayName;
    var v := ViewOf(after, s);
    NoIDThere(cfg, s, orgs, projects, now, word);
    var a := OnlyOrgCached(cfg, s, orgs, projects, now, i);
    OrgContextFresh(s, orgs, projects, i);
    var c := DiscoveredHasContext(cfg, s, orgs, projects, now, DiscoveredContext(s + "/" + orgs[i].name, s, orgs[i].name, "", ""));
    ViewHolds(after, s);
    var k := OrgWordResolves(v, word, a);
    assert v.contexts[k] in v.contexts;
  }

  lemma NoOrgShownThere(cfg: Config, s: string, orgs: seq<DiscoveredOrg>, projects: seq<DiscoveredProject>, now: int, word: string)
    requires s != "" && (forall o | o in orgs :: o.displayName != word)
    requires forall o | o in cfg.organizations && o.session == s :: o.displayName != word
    ensures forall o | o in ViewOf(Refresh(cfg, s, orgs, projects, now), s).organizations :: !OrgShown(o, word)
  {
    RefreshOrgsOrigin(cfg, s, orgs, projects, now);
    ViewHolds(Refresh(cfg, s, orgs, projects, now), s);
  }

  lemma OwnProjectIsReported(cfg: Config, s: string, orgs: seq<DiscoveredOrg>, projects: seq<DiscoveredProject>, now: int, c: DiscoveredContext)
    requires s != "" && c in ViewOf(Refresh(cfg, s, orgs, projects, now), s).contexts && c.projectID != ""
    ensures c.session == s && exists p :: p in projects && p.name == c.projectID && p.orgName == c.organizationID
  {
    ViewHolds(Refresh(cfg, s, orgs, projects, now), s);
    OwnedAreFound(cfg, s, orgs, projects, now);
    FreshReported(s, orgs, projects, c.organizationID, c.projectID);
  }

  /** And a project, if no organization and no other project does. */
  lemma ProjectNameResolves(cfg: Config, s: string, orgs: seq<DiscoveredOrg>, projects: seq<DiscoveredProject>, now: int, i: nat)
    requires s != "" && SlashFreeNames(orgs, projects) && CacheKeyed(cfg)
    requires i < |projects| && projects[i].name != "" && forall j | i < j < |projects| :: projects[j].name != projects[i].name
    requires OnlyAName(projects[i].displayName, orgs, projects)
    requires forall o | o in orgs :: o.displayName != projects[i].displayName
    requires forall o | o in cfg.organizations && o.session == s :: o.displayName != projects[i].displayName
    requires forall p | p in projects && p.displayName == projects[i].displayName :: p.name == projects[i].name
    requires forall p | p in cfg.projects && p.session == s && p.displayName == projects[i].displayName :: p.id == projects[i].name
    ensures var r := ResolveInSession(Refresh(cfg, s, orgs, projects, now), projects[i].displayName, s);
            && r.Some? && r.value.session == s && r.value.projectID == projects[i].name
            && exists p :: p in projects && p.name == projects[i].name && p.orgName == r.value.organizationID
  {
    var after, word := Refresh(cfg, s, orgs, projects, now), projects[i].displayName;
    var v := ViewOf(after, s);
    NoIDThere(cfg, s, orgs, projects, now, word);
    var a := OnlyProjectCached(cfg, s, orgs, projects, now, i);
    ProjectContextFresh(s, orgs, projects, i);
    var c := DiscoveredHasContext(cfg, s, orgs, projects, now,
      DiscoveredContext(s + "/" + (projects[i].orgName + "/" + projects[i].name), s, projects[i].orgName, projects[i].name, "default"));
    ViewHolds(after, s);
    NoOrgShownThere(cfg, s, orgs, projects, now, word);
    var k := ProjectWordResolves(v, word, a);
    OwnProjectIsReported(cfg, s, orgs, projects, now, v.contexts[k]);
  }

  // ---- Refreshing one session leaves another alone ----

  /** Every cache entry of session t is one that a context of t refers to. */
  ghost predicate CacheReferenced(cfg: Config, t: string) {
    && (forall o | o in cfg.organizations && o.session == t :: OrgKey(o) in ReferencedOrgs(cfg.contexts))
    && (forall p | p in cfg.projects && p.session == t :: ProjectKey(p) in ReferencedProjects(cfg.contexts))
  }

  lemma OtherContextsKept(cfg: Config, s: string, orgs: seq<DiscoveredOrg>, projects: seq<DiscoveredProject>, now: int, t: string)
    requires OthersQualified(cfg, s) && t != s && t != ""
    ensures Keep(ContextWithin(t), Refresh(cfg, s, orgs, projects, now).contexts) == Keep(ContextWithin(t), cfg.contexts)
  {
    var after := Refresh(cfg, s, orgs, projects, now).contexts;
    RefreshedContexts(cfg, s, orgs, projects, now);
    KeepImplied(ContextWithin(t), NotOwnedBy(s), after);
    KeepImplied(ContextWithin(t), NotOwnedBy(s), cfg.contexts);
  }

  lemma {:induction false} ReferencesOf(cs: seq<DiscoveredContext>, ds: seq<DiscoveredContext>, t: string, id: string)
    requires t != "" && Keep(ContextWithin(t), cs) == Keep(ContextWithin(t), ds)
    ensures (id, t) in ReferencedOrgs(cs) <==> (id, t) in ReferencedOrgs(ds)
    ensures (id, t) in ReferencedProjects(cs) <==> (id, t) in ReferencedProjects(ds)
  {
    forall c ensures c in cs && c.session == t <==> c in ds && c.session == t {
      KeepMember(ContextWithin(t), cs, c);
      KeepMember(ContextWithin(t), ds, c);
    }
  }

  lemma OtherOrgsFiltered(cfg: Config, s: string, orgs: seq<DiscoveredOrg>, projects: seq<DiscoveredProject>, now: int, t: string)
    requires OthersQualified(cfg, s) && t != s && t != ""
    ensures Keep(OrgWithin(t), Refresh(cfg, s, orgs, projects, now).organizations)
         == Keep(OrgIn(ReferencedOrgs(cfg.contexts)), Keep(OrgWithin(t), cfg.organizations))
  {
    var after := Refresh(cfg, s, orgs, projects, now);
    var refs := ReferencedOrgs(after.contexts);
    var es := OrgEntries(s, orgs);
    KeepCommutes(OrgWithin(t), OrgIn(refs), UpsertAll(OrgKey, cfg.organizations, es));
    KeepUpsertAll(OrgKey, OrgWithin(t), cfg.organizations, es);
    KeepNothing(OrgWithin(t), es);
    var own := Keep(OrgWithin(t), cfg.organizations);
    OtherContextsKept(cfg, s, orgs, projects, now, t);
    forall o | o in own
      ensures OrgIn(refs)(o) == OrgIn(ReferencedOrgs(cfg.contexts))(o)
    {
      KeepMember(OrgWithin(t), cfg.organizations, o);
      ReferencesOf(after.contexts, cfg.contexts, t, o.id);
    }
    KeepSame(OrgIn(refs), OrgIn(ReferencedOrgs(cfg.contexts)), own);
  }

  lemma OtherProjectsFiltered(cfg: Config, s: string, orgs: seq<DiscoveredOrg>, projects: seq<DiscoveredProject>, now: int, t: string)
    requires OthersQualified(cfg, s) && t != s && t != ""
    ensures Keep(ProjectWithin(t), Refresh(cfg, s, orgs, projects, now).projects)
         == Keep(ProjectIn(ReferencedProjects(cfg.contexts)), Keep(ProjectWithin(t), cfg.projects))
  {
    var after := Refresh(cfg, s, orgs, projects, now);
    var refs := ReferencedProjects(after.contexts);
    var es := ProjectEntries(s, projects);
    KeepCommutes(ProjectWithin(t), ProjectIn(refs), UpsertAll(ProjectKey, cfg.projects, es));
    KeepUpsertAll(ProjectKey, ProjectWithin(t), cfg.projects, es);
    KeepNothing(ProjectWithin(t), es);
    var own := Keep(ProjectWithin(t), cfg.projects);
    OtherContextsKept(cfg, s, orgs, projects, now, t);
    forall p | p in own
      ensures ProjectIn(refs)(p) == ProjectIn(ReferencedProjects(cfg.contexts))(p)
    {
      KeepMember(ProjectWithin(t), cfg.projects, p);
      ReferencesOf(after.contexts, cfg.contexts, t, p.id);
    }
    KeepSame(ProjectIn(refs), ProjectIn(ReferencedProjects(cfg.contexts)), own);
  }

  lemma CacheReferencedIff(cfg: Config, t: string)
    requires t != ""
    ensures CacheReferenced(cfg, t)
       <==> && Keep(OrgIn(ReferencedOrgs(cfg.contexts)), Keep(OrgWithin(t), cfg.organizations)) == Keep(OrgWithin(t), cfg.organizations)
            && Keep(ProjectIn(ReferencedProjects(cfg.contexts)), Keep(ProjectWithin(t), cfg.projects)) == Keep(ProjectWithin(t), cfg.projects)
  {
    KeepMembers(OrgWithin(t), cfg.organizations);
    KeepMembers(ProjectWithin(t), cfg.projects);
    KeepShrinks(OrgIn(ReferencedOrgs(cfg.contexts)), Keep(OrgWithin(t), cfg.organizations));
    KeepShrinks(ProjectIn(ReferencedProjects(cfg.contexts)), Keep(ProjectWithin(t), cfg.projects));
  }

  /** Refreshing s leaves everything session t can see as it was, exactly when t's cache held no unreferenced entry. */
  lemma RefreshIsolatesIff(cfg: Config, s: string, orgs: seq<DiscoveredOrg>, projects: seq<DiscoveredProject>, now: int, t: string)
    requires OthersQualified(cfg, s) && t != s && t != ""
    ensures ViewOf(Refresh(cfg, s, orgs, projects, now), t) == ViewOf(cfg, t) <==> CacheReferenced(cfg, t)
  {
    OtherContextsKept(cfg, s, orgs, projects, now, t);
    OtherOrgsFiltered(cfg, s, orgs, projects, now, t);
    OtherProjectsFiltered(cfg, s, orgs, projects, now, t);
    CacheReferencedIff(cfg, t);
  }

  /** Another session's cached organization that no context refers to is collected along the way. */
  lemma CollectedElsewhereExample() returns (cfg: Config)
    ensures OthersQualified(cfg, "s") && |cfg.organizations| == 1 && cfg.organizations[0].session == "t"
    ensures Refresh(cfg, "s", [], [], 0).organizations == []
  {
    var o := CachedOrg("acme", "Acme", "t");
    cfg := EMPTY_CONFIG.(organizations := [o]);
    var after := Refresh(cfg, "s", [], [], 0);
    assert UpsertAll(OrgKey, cfg.organizations, OrgEntries("s", [])) == [o];
    KeepNothing(OrgIn(ReferencedOrgs(after.contexts)), [o]);
  }

  /** So every query means in t what it meant before. A session without contexts resolves nothing either way. */
  lemma RefreshKeepsOtherResolution(cfg: Config, s: string, orgs: seq<DiscoveredOrg>, projects: seq<DiscoveredProject>, now: int, t: string, query: string)
    requires OthersQualified(cfg, s) && t != s && t != ""
    requires CacheReferenced(cfg, t) || forall c | c in cfg.contexts :: c.session != t
    ensures ResolveInSession(Refresh(cfg, s, orgs, projects, now), query, t) == ResolveInSession(cfg, query, t)
  {
    if CacheReferenced(cfg, t) {
      RefreshIsolatesIff(cfg, s, orgs, projects, now, t);
    } else {
      OtherContextsKept(cfg, s, orgs, projects, now, t);
      KeepNothing(ContextWithin(t), cfg.contexts);
      assert ViewOf(cfg, t).contexts == [];
    }
  }

  // ---- Repeating a refresh ----

  lemma RefreshContextsRepeat(cfg: Config, s: string, orgs: seq<DiscoveredOrg>, projects: seq<DiscoveredProject>, now: int, later: int)
    requires OthersQualified(cfg, s)
    ensures var once := Refresh(cfg, s, orgs, projects, now);
            Refresh(once, s, orgs, projects, later).contexts == once.contexts
  {
    RefreshedContexts(cfg, s, orgs, projects, now);
  }

  lemma {:induction false} OrgKeyedKeep(refs: set<(string, string)>, xs: seq<CachedOrg>, es: seq<CachedOrg>)
    ensures Keep(OrgIn(refs), UpsertAll(OrgKey, Keep(OrgIn(refs), UpsertAll(OrgKey, xs, es)), es))
         == Keep(OrgIn(refs), UpsertAll(OrgKey, xs, es))
  {
    var p := OrgIn(refs);
    var kept := Keep(p, UpsertAll(OrgKey, xs, es));
    KeepMembers(p, UpsertAll(OrgKey, xs, es));
    KeepUpsertAll(OrgKey, p, xs, es);
    KeepUpsertAll(OrgKey, p, kept, es);
    KeepAll(p, kept);
    UpsertAllIdempotent(OrgKey, Keep(p, xs), Keep(p, es));
  }

  lemma {:induction false} ProjectKeyedKeep(refs: set<(string, string)>, xs: seq<CachedProject>, es: seq<CachedProject>)
    ensures Keep(ProjectIn(refs), UpsertAll(ProjectKey, Keep(ProjectIn(refs), UpsertAll(ProjectKey, xs, es)), es))
         == Keep(ProjectIn(refs), UpsertAll(ProjectKey, xs, es))
  {
    var p := ProjectIn(refs);
    var kept := Keep(p, UpsertAll(ProjectKey, xs, es));
    KeepMembers(p, UpsertAll(ProjectKey, xs, es));
    KeepUpsertAll(ProjectKey, p, xs, es);
    KeepUpsertAll(ProjectKey, p, kept, es);
    KeepAll(p, kept);
    UpsertAllIdempotent(ProjectKey, Keep(p, xs), Keep(p, es));
  }

  /** Refreshing again with the same discovery changes nothing but the timestamp. */
  lemma RefreshIdempotent(cfg: Config, s: string, orgs: seq<DiscoveredOrg>, projects: seq<DiscoveredProject>, now: int, later: int)
    requires OthersQualified(cfg, s)
    ensures var once := Refresh(cfg, s, orgs, projects, now);
            Refresh(once, s, orgs, projects, later) == once.(lastRefreshed := Some(later))
  {
    var once := Refresh(cfg, s, orgs, projects, now);
    RefreshContextsRepeat(cfg, s, orgs, projects, now, later);
    OrgKeyedKeep(ReferencedOrgs(once.contexts), cfg.organizations, OrgEntries(s, orgs));
    ProjectKeyedKeep(ReferencedProjects(once.contexts), cfg.projects, ProjectEntries(s, projects));
  }

  // ---- The steps as they run on the config object ----

  lemma {:induction false} UpsertAllNext<T, K>(key: T -> K, xs: seq<T>, es: seq<T>, i: nat)
    requires i < |es|
    ensures UpsertAll(key, xs, es[..i + 1]) == Upsert(key, UpsertAll(key, xs, es[..i]), es[i])
  {
    assert es[..i + 1][..i] == es[..i];
  }

  method UpsertCachedOrg(cfg: ConfigV1Beta1, org: CachedOrg)
    modifies cfg`organizations
    ensures cfg.organizations == Upsert(OrgKey, old(cfg.organizations), org)
  {
    for i := 0 to |cfg.organizations|
      invariant cfg.organizations == old(cfg.organizations)
      invariant forall j | 0 <= j < i :: OrgKey(cfg.organizations[j]) != OrgKey(org)
    {
      if cfg.organizations[i].id == org.id && cfg.organizations[i].session == org.session {
        FirstIndexUnique(OrgKey, cfg.organizations, OrgKey(org), i);
        cfg.organizations := cfg.organizations[i := org];
        return;
      }
    }
    cfg.organizations := cfg.organizations + [org];
  }

  method UpsertCachedProject(cfg: ConfigV1Beta1, project: CachedProject)
    modifies cfg`projects
    ensures cfg.projects == Upsert(ProjectKey, old(cfg.projects), project)
  {
    for i := 0 to |cfg.projects|
      invariant cfg.projects == old(cfg.projects)
      invariant forall j | 0 <= j < i :: ProjectKey(cfg.projects[j]) != ProjectKey(project)
    {
      if cfg.projects[i].id == project.id && cfg.projects[i].session == project.session {
        FirstIndexUnique(ProjectKey, cfg.projects, ProjectKey(project), i);
        cfg.projects := cfg.projects[i := project];
        return;
      }
    }
    cfg.projects := cfg.projects + [project];
  }

  method MergeCacheFromDiscovery(cfg: ConfigV1Beta1, s: string, orgs: seq<DiscoveredOrg>, projects: seq<DiscoveredProject>)
    modifies cfg`organizations, cfg`projects
    ensures cfg.View() == Merge(old(cfg.View()), s, orgs, projects)
  {
    ghost var es, ps := OrgEntries(s, orgs), ProjectEntries(s, projects);
    for i := 0 to |orgs|
      invariant cfg.organizations == UpsertAll(OrgKey, old(cfg.organizations), es[..i])
      invariant cfg.projects == old(cfg.projects)
    {
      UpsertAllNext(OrgKey, old(cfg.organizations), es, i);
      UpsertCachedOrg(cfg, OrgEntry(s, orgs[i]));
    }
    assert es[..|orgs|] == es;
    for i := 0 to |projects|
      invariant cfg.organizations == UpsertAll(OrgKey, old(cfg.organizations), es)
      invariant cfg.projects == UpsertAll(ProjectKey, old(cfg.projects), ps[..i])
    {
      UpsertAllNext(ProjectKey, old(cfg.projects), ps, i);
      UpsertCachedProject(cfg, ProjectEntry(s, projects[i]));
    }
    assert ps[..|projects|] == ps;
  }

  method RemoveContextsOf(cfg: ConfigV1Beta1, s: string)
    modifies cfg`contexts
    ensures cfg.contexts == Keep(NotOwnedBy(s), old(cfg.contexts))
  {
    var cs := cfg.contexts;
    var remaining: seq<DiscoveredContext> := [];
    for i := 0 to |cs|
      invariant remaining == Keep(NotOwnedBy(s), cs[..i])
    {
      KeepNext(NotOwnedBy(s), cs, i);
      if cs[i].session != s {
        remaining := remaining + [cs[i]];
      }
    }
    assert cs[..|cs|] == cs;
    cfg.contexts := remaining;
  }

  method AddOrgContexts(cfg: ConfigV1Beta1, s: string, orgs: seq<DiscoveredOrg>)
    modifies cfg`contexts
    ensures cfg.contexts == UpsertAll(ContextNameOf, old(cfg.contexts), OrgContexts(s, orgs))
  {
    ghost var cs := OrgContexts(s, orgs);
    for i := 0 to |orgs|
      invariant cfg.contexts == UpsertAll(ContextNameOf, old(cfg.contexts), cs[..i])
    {
      UpsertAllNext(ContextNameOf, old(cfg.contexts), cs, i);
      cfg.UpsertContext(OrgContext(s, orgs[i]));
    }
    assert cs[..|orgs|] == cs;
  }

  method AddProjectContexts(cfg: ConfigV1Beta1, s: string, projects: seq<DiscoveredProject>)
    modifies cfg`contexts
    ensures cfg.contexts == UpsertAll(ContextNameOf, old(cfg.contexts), ProjectContexts(s, projects))
  {
    ghost var cs := ProjectContexts(s, projects);
    for i := 0 to |projects|
      invariant cfg.contexts == UpsertAll(ContextNameOf, old(cfg.contexts), cs[..i])
    {
      UpsertAllNext(ContextNameOf, old(cfg.contexts), cs, i);
      cfg.UpsertContext(ProjectContext(s, projects[i]));
    }
    assert cs[..|projects|] == cs;
  }

  method SyncContextsForSession(cfg: ConfigV1Beta1, s: string, orgs: seq<DiscoveredOrg>, projects: seq<DiscoveredProject>)
    modifies cfg`contexts
    ensures cfg.View() == Sync(old(cfg.View()), s, orgs, projects)
  {
    RemoveContextsOf(cfg, s);
    UpsertAllConcat(ContextNameOf, cfg.contexts, OrgContexts(s, orgs), ProjectContexts(s, projects));
    AddOrgContexts(cfg, s, orgs);
    AddProjectContexts(cfg, s, projects);
  }

  method References(cs: seq<DiscoveredContext>) returns (orgRefs: set<(string, string)>, projectRefs: set<(string, string)>)
    ensures orgRefs == ReferencedOrgs(cs) && projectRefs == ReferencedProjects(cs)
  {
    orgRefs, projectRefs := {}, {};
    for i := 0 to |cs|
      invariant orgRefs == ReferencedOrgs(cs[..i])
      invariant projectRefs == ReferencedProjects(cs[..i])
    {
      assert cs[..i + 1] == cs[..i] + [cs[i]];
      if cs[i].organizationID != "" {
        orgRefs := orgRefs + {(cs[i].organizationID, cs[i].session)};
      }
      if cs[i].projectID != "" {
        projectRefs := projectRefs + {(cs[i].projectID, cs[i].session)};
      }
    }
    assert cs[..|cs|] == cs;
  }

  method ReferencedOrgsOnly(os: seq<CachedOrg>, refs: set<(string, string)>) returns (kept: seq<CachedOrg>)
    ensures kept == Keep(OrgIn(refs), os)
  {
    kept := [];
    for i := 0 to |os|
      invariant kept == Keep(OrgIn(refs), os[..i])
    {
      KeepNext(OrgIn(refs), os, i);
      if OrgKey(os[i]) in refs {
        kept := kept + [os[i]];
      }
    }
    assert os[..|os|] == os;
  }

  method ReferencedProjectsOnly(ps: seq<CachedProject>, refs: set<(string, string)>) returns (kept: seq<CachedProject>)
    ensures kept == Keep(ProjectIn(refs), ps)
  {
    kept := [];
    for i := 0 to |ps|
      invariant kept == Keep(ProjectIn(refs), ps[..i])
    {
      KeepNext(ProjectIn(refs), ps, i);
      if ProjectKey(ps[i]) in refs {
        kept := kept + [ps[i]];
      }
    }
    assert ps[..|ps|] == ps;
  }

  method GCCache(cfg: ConfigV1Beta1)
    modifies cfg`organizations, cfg`projects
    ensures cfg.View() == Collect(old(cfg.View()))
  {
    var orgRefs, projectRefs := References(cfg.contexts);
    cfg.organizations := ReferencedOrgsOnly(cfg.organizations, orgRefs);
    cfg.projects := ReferencedProjectsOnly(cfg.projects, projectRefs);
  }

  method UpdateConfigCache(cfg: ConfigV1Beta1, s: string, orgs: seq<DiscoveredOrg>, projects: seq<DiscoveredProject>, now: int)
    modifies cfg
    ensures cfg.View() == Refresh(old(cfg.View()), s, orgs, projects, now)
  {
    cfg.lastRefreshed := Some(now);
    MergeCacheFromDiscovery(cfg, s, orgs, projects);
    SyncContextsForSession(cfg, s, orgs, projects);
    GCCache(cfg);
  }
}
