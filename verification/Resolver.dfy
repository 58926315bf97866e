/**
  What `ctx use <query>` means. The search runs over the entries one session
  owns; every stage is given here by the set of positions it matches, independent of
  the order in which the implementation's loops visit them.
 */
module Resolver {
  import opened Text
  import opened KeyedList
  import opened ConfigTypes

  datatype SessionView = SessionView(
    contexts: seq<DiscoveredContext>,
    organizations: seq<CachedOrg>,
    projects: seq<CachedProject>)

  function ViewOf(cfg: Config, sessionName: string): SessionView {
    SessionView(
      Keep(ContextWithin(sessionName), cfg.contexts),
      Keep(OrgWithin(sessionName), cfg.organizations),
      Keep(ProjectWithin(sessionName), cfg.projects))
  }

  // ---- Selecting from a set of positions ----

  ghost function Least(s: set<nat>): (m: nat)
    requires s != {}
    ensures m in s
    ensures forall j | j in s :: m <= j
    decreases |s|
  {
    var x :| x in s;
    assert forall j | j in s :: j == x || j in s - {x};
    if s - {x} == {} then x
    else
      var m := Least(s - {x});
      if x < m then x else m
  }

  ghost function First(s: set<nat>): Option<nat> {
    if s == {} then None else Some(Least(s))
  }

  ghost function Only(s: set<nat>): (r: Option<nat>)
    ensures r.Some? <==> |s| == 1
    ensures r.Some? ==> s == {r.value}
  {
    if |s| == 1 then
      var i :| i in s;
      assert |s - {i}| == 0;
      Some(i)
    else None
  }

  lemma OnlyIff(s: set<nat>, k: nat)
    ensures Only(s) == Some(k) <==> k in s && forall i | i in s :: i == k
  {
    if k in s && forall i | i in s :: i == k {
      assert s == {k};
    }
  }

  // ---- The positions each stage matches ----

  ghost function Named(cs: seq<DiscoveredContext>, name: string): set<nat> {
    set i: nat | i < |cs| && cs[i].name == name
  }

  ghost function WithIDs(cs: seq<DiscoveredContext>, orgID: string, projectID: string): set<nat> {
    set i: nat | i < |cs| && cs[i].organizationID == orgID && cs[i].projectID == projectID
  }

  ghost function WithProject(cs: seq<DiscoveredContext>, projectID: string): set<nat> {
    set i: nat | i < |cs| && cs[i].projectID == projectID
  }

  function OrgLabelled(display: string): CachedOrg -> bool {
    (o: CachedOrg) => o.displayName == display && o.displayName != o.id
  }

  function ProjectLabelled(display: string): CachedProject -> bool {
    (p: CachedProject) => p.displayName == display && p.displayName != p.id
  }

  function ProjectLabelledIn(display: string, orgID: string): CachedProject -> bool {
    (p: CachedProject) => p.orgID == orgID && p.displayName == display && p.displayName != p.id
  }

  function OrgIDsLabelled(v: SessionView, display: string): seq<string> {
    var hits := Keep(OrgLabelled(display), v.organizations);
    seq(|hits|, i requires 0 <= i < |hits| => hits[i].id)
  }

  function ProjectIDsLabelled(v: SessionView, display: string): seq<string> {
    var hits := Keep(ProjectLabelled(display), v.projects);
    seq(|hits|, i requires 0 <= i < |hits| => hits[i].id)
  }

  /** The query's organization part denotes this ID: by display name, or literally when no display name matches. */
  ghost predicate OrgDenoted(v: SessionView, part: string, orgID: string) {
    if OrgIDsLabelled(v, part) == [] then orgID == part else orgID in OrgIDsLabelled(v, part)
  }

  /** The query's project part denotes this project of this organization: literally or by display name. */
  ghost predicate ProjectDenoted(v: SessionView, part: string, orgID: string, projectID: string) {
    projectID == part || exists p | p in v.projects :: ProjectLabelledIn(part, orgID)(p) && p.id == projectID
  }

  ghost predicate PairMatches(v: SessionView, orgPart: string, projPart: string, c: DiscoveredContext) {
    OrgDenoted(v, orgPart, c.organizationID) && ProjectDenoted(v, projPart, c.organizationID, c.projectID)
  }

  ghost function Denoted(v: SessionView, orgPart: string, projPart: string): set<nat> {
    set i: nat | i < |v.contexts| && PairMatches(v, orgPart, projPart, v.contexts[i])
  }

  // ---- The meaning of a query ----

  /** Stages 2 and 5: a query of the form org/project that is nobody's exact name. */
  ghost function ResolvePair(v: SessionView, orgPart: string, projPart: string): Option<nat> {
    if WithIDs(v.contexts, orgPart, projPart) != {} then First(WithIDs(v.contexts, orgPart, projPart))
    else Only(Denoted(v, orgPart, projPart))
  }

  /** Stage 6: a single word matched by display name. */
  ghost function ResolveLabel(v: SessionView, display: string): Option<nat> {
    var orgIDs := OrgIDsLabelled(v, display);
    if |orgIDs| > 1 then None
    else if |orgIDs| == 1 && WithIDs(v.contexts, orgIDs[0], "") != {} then First(WithIDs(v.contexts, orgIDs[0], ""))
    else
      var projectIDs := ProjectIDsLabelled(v, display);
      if |projectIDs| == 1 then First(WithProject(v.contexts, projectIDs[0])) else None
  }

  /** Stages 3, 4 and 6: a single word that is nobody's exact name. */
  ghost function ResolveWord(v: SessionView, word: string): Option<nat> {
    if WithIDs(v.contexts, word, "") != {} then First(WithIDs(v.contexts, word, ""))
    else if WithProject(v.contexts, word) != {} then Only(WithProject(v.contexts, word))
    else ResolveLabel(v, word)
  }

  ghost function Resolve(v: SessionView, query: string): (r: Option<nat>)
    ensures r.Some? ==> r.value < |v.contexts|
  {
    var cut := Cut(query, '/');
    if Named(v.contexts, query) != {} then First(Named(v.contexts, query))
    else if cut.found then ResolvePair(v, cut.before, cut.after)
    else ResolveWord(v, query)
  }

  ghost function ResolvedContext(v: SessionView, query: string): Option<DiscoveredContext> {
    var r := Resolve(v, query);
    if r.Some? then Some(v.contexts[r.value]) else None
  }

  ghost function ResolveInSession(cfg: Config, query: string, sessionName: string): Option<DiscoveredContext> {
    ResolvedContext(ViewOf(cfg, sessionName), query)
  }

  // ---- Printing a context and resolving it again ----

  ghost predicate WellFormed(cfg: Config) {
    && DistinctKeys(ContextNameOf, cfg.contexts)
    && (forall c | c in cfg.contexts ::
          c.session != "" && SlashFree(c.session) && SlashFree(c.organizationID) && c.name == c.QualifiedName())
  }

  /** A project context whose organization carries the session's own name, beside a context whose reference is that project's ID. */
  ghost predicate Shadowed(cfg: Config, c: DiscoveredContext) {
    && c.projectID != ""
    && c.organizationID == c.session
    && exists d | d in cfg.contexts :: d.session == c.session && d.Ref() == c.projectID
  }

  lemma InView(cfg: Config, c: DiscoveredContext) returns (v: SessionView, k: nat)
    requires WellFormed(cfg) && c in cfg.contexts
    ensures v == ViewOf(cfg, c.session)
    ensures k < |v.contexts| && v.contexts[k] == c
    ensures DistinctKeys(ContextNameOf, v.contexts)
    ensures forall d :: d in v.contexts <==> d in cfg.contexts && d.session == c.session
  {
    v := ViewOf(cfg, c.session);
    KeepMembers(ContextWithin(c.session), cfg.contexts);
    KeepDistinct(ContextNameOf, ContextWithin(c.session), cfg.contexts);
    assert c in v.contexts;
    k :| 0 <= k < |v.contexts| && v.contexts[k] == c;
  }

  lemma NamedUnique(v: SessionView, k: nat)
    requires k < |v.contexts| && DistinctKeys(ContextNameOf, v.contexts)
    ensures Named(v.contexts, v.contexts[k].name) == {k}
  {
  }

  /** The full name of a context always finds it. */
  lemma NameResolves(cfg: Config, c: DiscoveredContext)
    requires WellFormed(cfg) && c in cfg.contexts
    ensures ResolveInSession(cfg, c.name, c.session) == Some(c)
  {
    var v, k := InView(cfg, c);
    NamedUnique(v, k);
  }

  /** In a well-formed session no two contexts share IDs. */
  lemma IDsUnique(cfg: Config, v: SessionView, k: nat)
    requires WellFormed(cfg)
    requires k < |v.contexts| && DistinctKeys(ContextNameOf, v.contexts)
    requires forall d | d in v.contexts :: d in cfg.contexts && d.session == v.contexts[k].session
    ensures WithIDs(v.contexts, v.contexts[k].organizationID, v.contexts[k].projectID) == {k}
  {
  }

  /** A reference is somebody's full name exactly when its context is shadowed. */
  lemma RefIsANameIffShadowed(cfg: Config, c: DiscoveredContext, d: DiscoveredContext)
    requires WellFormed(cfg) && c in cfg.contexts && d in cfg.contexts && d.session == c.session
    ensures d.name == c.Ref() <==> c.projectID != "" && c.organizationID == c.session && d.Ref() == c.projectID
  {
    QualifiedHasSlash(d);
    RefHasSlash(c);
    if d.name == c.Ref() {
      JoinInjective(d.session, d.Ref(), c.organizationID, c.projectID, '/');
    }
  }

  lemma ShadowedRefMisses(cfg: Config, c: DiscoveredContext)
    requires WellFormed(cfg) && c in cfg.contexts && Shadowed(cfg, c)
    ensures ResolveInSession(cfg, c.Ref(), c.session) != Some(c)
  {
    var v, k := InView(cfg, c);
    var d :| d in cfg.contexts && d.session == c.session && d.Ref() == c.projectID;
    RefIsANameIffShadowed(cfg, c, d);
    assert d in v.contexts;
    var i :| 0 <= i < |v.contexts| && v.contexts[i] == d;
    NamedUnique(v, i);
    assert |c.name| > |c.Ref()|;
  }

  lemma UnshadowedRefHits(cfg: Config, c: DiscoveredContext)
    requires WellFormed(cfg) && c in cfg.contexts && !Shadowed(cfg, c)
    ensures ResolveInSession(cfg, c.Ref(), c.session) == Some(c)
  {
    var v, k := InView(cfg, c);
    forall i: nat | i < |v.contexts|
      ensures v.contexts[i].name != c.Ref()
    {
      assert v.contexts[i] in v.contexts;
      RefIsANameIffShadowed(cfg, c, v.contexts[i]);
    }
    assert Named(v.contexts, c.Ref()) == {};
    IDsUnique(cfg, v, k);
    RefHasSlash(c);
    if c.projectID != "" {
      CutOfJoin(c.organizationID, c.projectID, '/');
    }
  }

  /** Resolving a context's own reference within its session gives it back exactly when nothing shadows it, whatever the display names are. */
  lemma RefResolvesIffNotShadowed(cfg: Config, c: DiscoveredContext)
    requires WellFormed(cfg) && c in cfg.contexts
    ensures ResolveInSession(cfg, c.Ref(), c.session) == Some(c) <==> !Shadowed(cfg, c)
  {
    if Shadowed(cfg, c) {
      ShadowedRefMisses(cfg, c);
    } else {
      UnshadowedRefHits(cfg, c);
    }
  }

  /** The usual case: no organization is named like its session. */
  lemma RefRoundTrips(cfg: Config, c: DiscoveredContext)
    requires WellFormed(cfg) && c in cfg.contexts
    requires c.organizationID != c.session
    ensures ResolveInSession(cfg, c.Ref(), c.session) == Some(c)
    ensures ResolveInSession(cfg, c.name, c.session) == Some(c)
  {
    RefResolvesIffNotShadowed(cfg, c);
    NameResolves(cfg, c);
  }

  /** The shadowed case exists: printing a context can name a different one. */
  lemma ShadowedRefExample() returns (cfg: Config, c: DiscoveredContext, d: DiscoveredContext)
    ensures WellFormed(cfg) && c in cfg.contexts && d in cfg.contexts && c != d
    ensures ResolveInSession(cfg, c.Ref(), c.session) == Some(d)
  {
    d := DiscoveredContext("acme/web", "acme", "web", "", "");
    c := DiscoveredContext("acme/acme/web", "acme", "acme", "web", DEFAULT_NAMESPACE);
    cfg := EMPTY_CONFIG.(contexts := [d, c]);
    assert cfg.contexts[0] == d && cfg.contexts[1] == c;
    assert |c.name| != |d.name|;
    assert d.Ref() == "web" && c.Ref() == "acme/web";
    assert c.QualifiedName() == c.name && d.QualifiedName() == d.name;
    var v, k := InView(cfg, d);
    NamedUnique(v, k);
  }

  // ---- What a query means, entry by entry ----

  /** What a session sees: its own entries, or everybody's when no session is given. */
  lemma ViewHolds(cfg: Config, sessionName: string)
    ensures var v := ViewOf(cfg, sessionName);
            && (forall c :: c in v.contexts <==> c in cfg.contexts && (sessionName == "" || c.session == sessionName))
            && (forall o :: o in v.organizations <==> o in cfg.organizations && (sessionName == "" || o.session == sessionName))
            && (forall p :: p in v.projects <==> p in cfg.projects && (sessionName == "" || p.session == sessionName))
  {
    KeepMembers(ContextWithin(sessionName), cfg.contexts);
    KeepMembers(OrgWithin(sessionName), cfg.organizations);
    KeepMembers(ProjectWithin(sessionName), cfg.projects);
  }

  /** A display name stands for an organization only if it is not just its ID. */
  predicate OrgShown(o: CachedOrg, display: string) {
    o.displayName == display && o.id != display
  }

  predicate ProjectShown(p: CachedProject, display: string) {
    p.displayName == display && p.id != display
  }

  function HasName(name: string): DiscoveredContext -> bool {
    (c: DiscoveredContext) => c.name == name
  }

  function HasIDs(orgID: string, projectID: string): DiscoveredContext -> bool {
    (c: DiscoveredContext) => c.organizationID == orgID && c.projectID == projectID
  }

  function HasProject(projectID: string): DiscoveredContext -> bool {
    (c: DiscoveredContext) => c.projectID == projectID
  }

  /** The position is the first with this property. */
  ghost predicate IsFirst(cs: seq<DiscoveredContext>, k: nat, test: DiscoveredContext -> bool) {
    k < |cs| && test(cs[k]) && forall i | 0 <= i < k :: !test(cs[i])
  }

  ghost predicate IsOnly(cs: seq<DiscoveredContext>, k: nat, test: DiscoveredContext -> bool) {
    k < |cs| && test(cs[k]) && forall i | 0 <= i < |cs| && test(cs[i]) :: i == k
  }

  lemma FirstIff(cs: seq<DiscoveredContext>, s: set<nat>, k: nat, test: DiscoveredContext -> bool)
    requires s == set i: nat | i < |cs| && test(cs[i])
    ensures First(s) == Some(k) <==> IsFirst(cs, k, test)
    ensures Only(s) == Some(k) <==> IsOnly(cs, k, test)
  {
    OnlyIff(s, k);
    assert forall i: nat :: i in s <==> i < |cs| && test(cs[i]);
    if s != {} {
      assert First(s).value in s;
    }
  }

  lemma NoneWith(cs: seq<DiscoveredContext>, s: set<nat>, test: DiscoveredContext -> bool)
    requires s == set i: nat | i < |cs| && test(cs[i])
    ensures s == {} <==> forall c | c in cs :: !test(c)
  {
    forall i: nat | i < |cs| && test(cs[i])
      ensures s != {}
    {
      assert i in s;
    }
  }

  lemma {:induction false} FirstExists(cs: seq<DiscoveredContext>, test: DiscoveredContext -> bool) returns (k: nat)
    requires exists c :: c in cs && test(c)
    ensures IsFirst(cs, k, test)
  {
    if test(cs[0]) {
      k := 0;
    } else {
      var c :| c in cs && test(c);
      assert c in cs[1..];
      k := FirstExists(cs[1..], test);
      k := k + 1;
      assert forall i | 0 <= i < k && i > 0 :: cs[i] == cs[1..][i - 1];
    }
  }

  /** Somebody's full name finds the first context of that name, however else it could be read. */
  lemma NamedResolvesFirst(v: SessionView, query: string, k: nat)
    requires exists c :: c in v.contexts && c.name == query
    ensures Resolve(v, query) == Some(k) <==> IsFirst(v.contexts, k, HasName(query))
  {
    FirstIff(v.contexts, Named(v.contexts, query), k, HasName(query));
    var c :| c in v.contexts && c.name == query;
    var i :| 0 <= i < |v.contexts| && v.contexts[i] == c;
    assert i in Named(v.contexts, query);
  }

  /** A slash query that is nobody's name but a pair of IDs finds the first context with those IDs. */
  lemma IDsResolveFirst(v: SessionView, orgID: string, projectID: string, k: nat)
    requires SlashFree(orgID) && forall c | c in v.contexts :: c.name != orgID + "/" + projectID
    requires exists c :: c in v.contexts && c.organizationID == orgID && c.projectID == projectID
    ensures Resolve(v, orgID + "/" + projectID) == Some(k) <==>
              IsFirst(v.contexts, k, HasIDs(orgID, projectID))
  {
    CutOfJoin(orgID, projectID, '/');
    assert Named(v.contexts, orgID + "/" + projectID) == {};
    FirstIff(v.contexts, WithIDs(v.contexts, orgID, projectID), k, HasIDs(orgID, projectID));
    var c :| c in v.contexts && c.organizationID == orgID && c.projectID == projectID;
    var i :| 0 <= i < |v.contexts| && v.contexts[i] == c;
    assert i in WithIDs(v.contexts, orgID, projectID);
  }

  /**
    The organization part is a display name, or an ID if it is nobody's display name; the project
    part is an ID or a display name within that organization.
   */
  ghost predicate PairMeans(v: SessionView, orgPart: string, projPart: string, c: DiscoveredContext) {
    && (if exists o :: o in v.organizations && OrgShown(o, orgPart)
        then exists o :: o in v.organizations && OrgShown(o, orgPart) && o.id == c.organizationID
        else c.organizationID == orgPart)
    && (c.projectID == projPart
        || exists p :: p in v.projects && p.orgID == c.organizationID && ProjectShown(p, projPart) && p.id == c.projectID)
  }

  lemma OrgIDsAre(v: SessionView, display: string)
    ensures forall id :: id in OrgIDsLabelled(v, display) <==> exists o :: o in v.organizations && OrgShown(o, display) && o.id == id
    ensures OrgIDsLabelled(v, display) == [] <==> forall o | o in v.organizations :: !OrgShown(o, display)
  {
    var hits, ids := Keep(OrgLabelled(display), v.organizations), OrgIDsLabelled(v, display);
    KeepMembers(OrgLabelled(display), v.organizations);
    forall o | o in v.organizations && OrgShown(o, display)
      ensures o.id in ids
    {
      var i :| 0 <= i < |hits| && hits[i] == o;
      assert ids[i] == o.id;
    }
    assert hits != [] ==> hits[0] in hits;
  }

  lemma PairMeansIff(v: SessionView, orgPart: string, projPart: string, c: DiscoveredContext)
    ensures PairMatches(v, orgPart, projPart, c) <==> PairMeans(v, orgPart, projPart, c)
  {
    OrgIDsAre(v, orgPart);
  }

  /**
    A slash query that is nobody's name or ID pair resolves to a context exactly when that one
    matches and no other does; with no match or several, to nothing.
   */
  lemma PairResolvesIffUnique(v: SessionView, orgPart: string, projPart: string)
    requires SlashFree(orgPart)
    requires forall c | c in v.contexts :: c.name != orgPart + "/" + projPart
    requires forall c | c in v.contexts :: c.organizationID != orgPart || c.projectID != projPart
    ensures var r := Resolve(v, orgPart + "/" + projPart);
            && (r.Some? ==> PairMeans(v, orgPart, projPart, v.contexts[r.value]))
            && (forall k: nat | k < |v.contexts| ::
                  r == Some(k) <==>
                    && PairMeans(v, orgPart, projPart, v.contexts[k])
                    && forall i | 0 <= i < |v.contexts| && PairMeans(v, orgPart, projPart, v.contexts[i]) :: i == k)
  {
    CutOfJoin(orgPart, projPart, '/');
    var s := Denoted(v, orgPart, projPart);
    assert Named(v.contexts, orgPart + "/" + projPart) == {} && WithIDs(v.contexts, orgPart, projPart) == {};
    forall i: nat | i < |v.contexts|
      ensures i in s <==> PairMeans(v, orgPart, projPart, v.contexts[i])
    {
      PairMeansIff(v, orgPart, projPart, v.contexts[i]);
    }
    forall k: nat | k < |v.contexts|
      ensures Only(s) == Some(k) <==>
                && PairMeans(v, orgPart, projPart, v.contexts[k])
                && forall i | 0 <= i < |v.contexts| && PairMeans(v, orgPart, projPart, v.contexts[i]) :: i == k
    {
      OnlyIff(s, k);
    }
  }

  // ---- Single words ----

  ghost predicate OnlyOrgShown(v: SessionView, a: int, display: string) {
    0 <= a < |v.organizations| && forall b | 0 <= b < |v.organizations| :: OrgShown(v.organizations[b], display) <==> b == a
  }

  ghost predicate OnlyProjectShown(v: SessionView, a: int, display: string) {
    0 <= a < |v.projects| && forall b | 0 <= b < |v.projects| :: ProjectShown(v.projects[b], display) <==> b == a
  }

  ghost predicate SeveralOrgsShown(v: SessionView, display: string) {
    exists a, b | 0 <= a < b < |v.organizations| :: OrgShown(v.organizations[a], display) && OrgShown(v.organizations[b], display)
  }

  ghost predicate SeveralProjectsShown(v: SessionView, display: string) {
    exists a, b | 0 <= a < b < |v.projects| :: ProjectShown(v.projects[a], display) && ProjectShown(v.projects[b], display)
  }

  lemma ShownOrgIDs(v: SessionView, display: string)
    ensures |OrgIDsLabelled(v, display)| > 1 <==> SeveralOrgsShown(v, display)
    ensures |OrgIDsLabelled(v, display)| == 1 <==> exists a :: OnlyOrgShown(v, a, display)
    ensures forall a | OnlyOrgShown(v, a, display) :: OrgIDsLabelled(v, display) == [v.organizations[a].id]
  {
    var os, test := v.organizations, OrgLabelled(display);
    assert forall o :: test(o) <==> OrgShown(o, display);
    forall a | OnlyOrgShown(v, a, display)
      ensures OrgIDsLabelled(v, display) == [os[a].id]
    {
      KeepOnly(test, os, a);
    }
    if a, b :| 0 <= a < b < |os| && OrgShown(os[a], display) && OrgShown(os[b], display) {
      KeepSeveral(test, os, a, b);
    } else if a :| 0 <= a < |os| && OrgShown(os[a], display) {
      assert OnlyOrgShown(v, a, display);
    } else {
      KeepNothing(test, os);
    }
  }

  lemma ShownProjectIDs(v: SessionView, display: string)
    ensures |ProjectIDsLabelled(v, display)| > 1 <==> SeveralProjectsShown(v, display)
    ensures |ProjectIDsLabelled(v, display)| == 1 <==> exists a :: OnlyProjectShown(v, a, display)
    ensures forall a | OnlyProjectShown(v, a, display) :: ProjectIDsLabelled(v, display) == [v.projects[a].id]
  {
    var ps, test := v.projects, ProjectLabelled(display);
    assert forall p :: test(p) <==> ProjectShown(p, display);
    forall a | OnlyProjectShown(v, a, display)
      ensures ProjectIDsLabelled(v, display) == [ps[a].id]
    {
      KeepOnly(test, ps, a);
    }
    if a, b :| 0 <= a < b < |ps| && ProjectShown(ps[a], display) && ProjectShown(ps[b], display) {
      KeepSeveral(test, ps, a, b);
    } else if a :| 0 <= a < |ps| && ProjectShown(ps[a], display) {
      assert OnlyProjectShown(v, a, display);
    } else {
      KeepNothing(test, ps);
    }
  }

  ghost predicate IsAnID(v: SessionView, word: string) {
    exists c :: c in v.contexts && (HasIDs(word, "")(c) || HasProject(word)(c))
  }

  /** Exactly one organization is displayed so, and this is its context. */
  ghost predicate OrgNameMeans(v: SessionView, word: string, k: nat) {
    exists a :: OnlyOrgShown(v, a, word) && IsFirst(v.contexts, k, HasIDs(v.organizations[a].id, ""))
  }

  /** Exactly one project is displayed so, and this is its first context. */
  ghost predicate ProjectNameMeans(v: SessionView, word: string, k: nat) {
    exists a :: OnlyProjectShown(v, a, word) && IsFirst(v.contexts, k, HasProject(v.projects[a].id))
  }

  /** The organization ID first, then an unambiguous project ID, then an unambiguous organization name, then an unambiguous project name. */
  ghost predicate WordMeans(v: SessionView, word: string, k: nat) {
    || IsFirst(v.contexts, k, HasIDs(word, ""))
    || ((forall c | c in v.contexts :: !HasIDs(word, "")(c)) && IsOnly(v.contexts, k, HasProject(word)))
    || (!IsAnID(v, word) && OrgNameMeans(v, word, k))
    || (!IsAnID(v, word) && !SeveralOrgsShown(v, word) && (forall m: nat :: !OrgNameMeans(v, word, m)) && ProjectNameMeans(v, word, k))
  }

  lemma LabelResolvesIff(v: SessionView, word: string, k: nat)
    ensures ResolveLabel(v, word) == Some(k) <==>
              || OrgNameMeans(v, word, k)
              || (!SeveralOrgsShown(v, word) && (forall m: nat :: !OrgNameMeans(v, word, m)) && ProjectNameMeans(v, word, k))
  {
    ShownOrgIDs(v, word);
    ShownProjectIDs(v, word);
    if a :| OnlyOrgShown(v, a, word) {
      var id := v.organizations[a].id;
      forall m: nat
        ensures First(WithIDs(v.contexts, id, "")) == Some(m) <==> IsFirst(v.contexts, m, HasIDs(id, ""))
      {
        FirstIff(v.contexts, WithIDs(v.contexts, id, ""), m, HasIDs(id, ""));
      }
      forall m: nat
        ensures First(WithIDs(v.contexts, id, "")) == Some(m) <==> OrgNameMeans(v, word, m)
      {
      }
    }
    if a :| OnlyProjectShown(v, a, word) {
      FirstIff(v.contexts, WithProject(v.contexts, v.projects[a].id), k, HasProject(v.projects[a].id));
    }
  }

  /** What a word that is no context's name resolves to, for every cache and every list of contexts. */
  lemma WordResolvesIff(v: SessionView, word: string, k: nat)
    requires SlashFree(word) && forall c | c in v.contexts :: c.name != word
    ensures Resolve(v, word) == Some(k) <==> WordMeans(v, word, k)
  {
    assert Named(v.contexts, word) == {};
    LabelResolvesIff(v, word, k);
    FirstIff(v.contexts, WithIDs(v.contexts, word, ""), k, HasIDs(word, ""));
    FirstIff(v.contexts, WithProject(v.contexts, word), k, HasProject(word));
    NoneWith(v.contexts, WithIDs(v.contexts, word, ""), HasIDs(word, ""));
    NoneWith(v.contexts, WithProject(v.contexts, word), HasProject(word));
  }

  /** The only organization displayed like a word that is no ID and no name, found by it. */
  lemma OrgWordResolves(v: SessionView, word: string, a: int) returns (k: nat)
    requires SlashFree(word) && (forall c | c in v.contexts :: c.name != word) && !IsAnID(v, word)
    requires OnlyOrgShown(v, a, word) && exists c :: c in v.contexts && c.organizationID == v.organizations[a].id && c.projectID == ""
    ensures Resolve(v, word) == Some(k) && IsFirst(v.contexts, k, HasIDs(v.organizations[a].id, ""))
  {
    k := FirstExists(v.contexts, HasIDs(v.organizations[a].id, ""));
    WordResolvesIff(v, word, k);
  }

  /** And the only project, when no organization is displayed so. */
  lemma ProjectWordResolves(v: SessionView, word: string, a: int) returns (k: nat)
    requires SlashFree(word) && (forall c | c in v.contexts :: c.name != word) && !IsAnID(v, word)
    requires forall o | o in v.organizations :: !OrgShown(o, word)
    requires OnlyProjectShown(v, a, word) && exists c :: c in v.contexts && c.projectID == v.projects[a].id
    ensures Resolve(v, word) == Some(k) && IsFirst(v.contexts, k, HasProject(v.projects[a].id))
  {
    k := FirstExists(v.contexts, HasProject(v.projects[a].id));
    WordResolvesIff(v, word, k);
  }

  /** A word that two contexts carry as project ID, or that two organizations or two projects are displayed as, resolves to nothing. */
  lemma AmbiguousWordFails(v: SessionView, word: string)
    requires SlashFree(word) && forall c | c in v.contexts :: c.name != word && !HasIDs(word, "")(c)
    ensures (exists i, j | 0 <= i < j < |v.contexts| :: v.contexts[i].projectID == word && v.contexts[j].projectID == word) ==>
              Resolve(v, word) == None
    ensures !IsAnID(v, word) && SeveralOrgsShown(v, word) ==> Resolve(v, word) == None
    ensures !IsAnID(v, word) && (forall m: nat :: !OrgNameMeans(v, word, m)) && SeveralProjectsShown(v, word) ==> Resolve(v, word) == None
  {
    var r := Resolve(v, word);
    if r.Some? {
      WordResolvesIff(v, word, r.value);
    }
  }

  /** Whatever is resolved within a session is one of that session's contexts. */
  lemma ResolvedIsOwned(cfg: Config, query: string, sessionName: string)
    ensures var r := ResolveInSession(cfg, query, sessionName);
            r.Some? ==> r.value in cfg.contexts && (sessionName == "" || r.value.session == sessionName)
  {
    var v := ViewOf(cfg, sessionName);
    var r := Resolve(v, query);
    if r.Some? {
      assert v.contexts[r.value] in v.contexts;
      KeepMember(ContextWithin(sessionName), cfg.contexts, v.contexts[r.value]);
    }
  }
}
