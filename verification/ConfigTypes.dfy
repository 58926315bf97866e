/** The records stored in the v1beta1 config file, and their pure accessors. */
module ConfigTypes {
  import opened Text
  import opened KeyedList

  const DEFAULT_NAMESPACE := "default"

  datatype Endpoint = Endpoint(
    server: string,
    authHostname: string,
    tlsServerName: string,
    insecureSkipTLSVerify: bool,
    certificateAuthorityData: string)

  datatype Session = Session(
    name: string,
    userKey: string,
    userEmail: string,
    userName: string,
    endpoint: Endpoint,
    lastContext: string)

  function QualifiedContextName(sessionName: string, ref: string): string {
    sessionName + "/" + ref
  }

  datatype DiscoveredContext = DiscoveredContext(
    name: string,
    session: string,
    organizationID: string,
    projectID: string,
    namespace: string)
  {
    function Ref(): string {
      if projectID != "" then organizationID + "/" + projectID else organizationID
    }

    function QualifiedName(): string {
      QualifiedContextName(session, Ref())
    }
  }

  datatype CachedOrg = CachedOrg(id: string, displayName: string, session: string)

  datatype CachedProject = CachedProject(id: string, displayName: string, orgID: string, session: string)

  /** The value of a whole config: what the file holds, and what the in-memory object denotes. */
  datatype Config = Config(
    sessions: seq<Session>,
    contexts: seq<DiscoveredContext>,
    currentContext: string,
    activeSession: string,
    organizations: seq<CachedOrg>,
    projects: seq<CachedProject>,
    lastRefreshed: Option<int>)

  const EMPTY_CONFIG := Config([], [], "", "", [], [], None)

  // Keys under which entries are upserted.

  function SessionNameOf(s: Session): string { s.name }

  function ContextNameOf(c: DiscoveredContext): string { c.name }

  function OrgKey(o: CachedOrg): (string, string) { (o.id, o.session) }

  function ProjectKey(p: CachedProject): (string, string) { (p.id, p.session) }

  // Tests by which lists are filtered.

  /** An empty session name means "any session". */
  predicate SessionMatches(want: string, have: string) {
    want == "" || want == have
  }

  function OwnedBy(s: string): DiscoveredContext -> bool {
    (c: DiscoveredContext) => c.session == s
  }

  function NotOwnedBy(s: string): DiscoveredContext -> bool {
    (c: DiscoveredContext) => c.session != s
  }

  function ContextWithin(s: string): DiscoveredContext -> bool {
    (c: DiscoveredContext) => SessionMatches(s, c.session)
  }

  function OrgWithin(s: string): CachedOrg -> bool {
    (o: CachedOrg) => SessionMatches(s, o.session)
  }

  function ProjectWithin(s: string): CachedProject -> bool {
    (p: CachedProject) => SessionMatches(s, p.session)
  }

  // Lookups.

  function ContextByName(cfg: Config, name: string): Option<DiscoveredContext> {
    Find(ContextNameOf, cfg.contexts, name)
  }

  function SessionByName(cfg: Config, name: string): Option<Session> {
    Find(SessionNameOf, cfg.sessions, name)
  }

  function CurrentContextEntry(cfg: Config): Option<DiscoveredContext> {
    if cfg.currentContext == "" then None else ContextByName(cfg, cfg.currentContext)
  }

  function ActiveSessionEntry(cfg: Config): Option<Session> {
    var ctx := CurrentContextEntry(cfg);
    if ctx.Some? && SessionByName(cfg, ctx.value.session).Some? then SessionByName(cfg, ctx.value.session)
    else if cfg.activeSession != "" then SessionByName(cfg, cfg.activeSession)
    else None
  }

  lemma RefHasSlash(c: DiscoveredContext)
    requires SlashFree(c.organizationID)
    ensures '/' in c.Ref() <==> c.projectID != ""
  {
  }

  lemma RefInjective(c: DiscoveredContext, d: DiscoveredContext)
    requires SlashFree(c.organizationID) && SlashFree(d.organizationID)
    requires c.Ref() == d.Ref()
    ensures c.organizationID == d.organizationID && c.projectID == d.projectID
  {
    RefHasSlash(c);
    RefHasSlash(d);
    if c.projectID != "" {
      JoinInjective(c.organizationID, c.projectID, d.organizationID, d.projectID, '/');
    }
  }

  /** Session-qualified names, slash-free session names and slash-free organization IDs identify a context. */
  lemma QualifiedNameInjective(c: DiscoveredContext, d: DiscoveredContext)
    requires SlashFree(c.session) && SlashFree(d.session)
    requires SlashFree(c.organizationID) && SlashFree(d.organizationID)
    requires c.QualifiedName() == d.QualifiedName()
    ensures c.session == d.session && c.organizationID == d.organizationID && c.projectID == d.projectID
  {
    JoinInjective(c.session, c.Ref(), d.session, d.Ref(), '/');
    RefInjective(c, d);
  }

  lemma QualifiedHasSlash(c: DiscoveredContext)
    ensures '/' in c.QualifiedName()
  {
  }
}
