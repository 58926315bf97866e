/** The config object: its fields are updated in place by the methods the commands call. */
module ConfigStore {
  import opened Text
  import opened KeyedList
  import opened ConfigTypes
  import opened Resolver
  import opened ScopeMigration

  // ---- Removing the sessions of one user ----

  function EmailNames(ss: seq<Session>, email: string): set<string> {
    set s | s in ss && s.userEmail == email :: s.name
  }

  function NotEmail(email: string): Session -> bool {
    (s: Session) => s.userEmail != email
  }

  function OwnerNotIn(names: set<string>): DiscoveredContext -> bool {
    (c: DiscoveredContext) => c.session !in names
  }

  function WithoutEmail(cfg: Config, email: string): Config {
    var names := EmailNames(cfg.sessions, email);
    var kept := cfg.(
      sessions := Keep(NotEmail(email), cfg.sessions),
      contexts := Keep(OwnerNotIn(names), cfg.contexts),
      activeSession := if cfg.activeSession in names then "" else cfg.activeSession);
    if kept.currentContext != "" && ContextByName(kept, kept.currentContext).None? then kept.(currentContext := "") else kept
  }

  /** A session of this name goes when the user logs out. */
  ghost predicate LoggedOut(cfg: Config, email: string, name: string) {
    exists s :: s in cfg.sessions && s.userEmail == email && s.name == name
  }

  /** Everything of the user's has gone and nothing else has; pointers to what has gone are cleared, the others stay. */
  ghost predicate UserRemoved(cfg: Config, email: string, after: Config) {
    && (forall s :: s in after.sessions <==> s in cfg.sessions && s.userEmail != email)
    && after.sessions == Keep(NotEmail(email), cfg.sessions)
    && (forall c :: c in after.contexts <==> c in cfg.contexts && !LoggedOut(cfg, email, c.session))
    && after.contexts == Keep(OwnerNotIn(EmailNames(cfg.sessions, email)), cfg.contexts)
    && after.activeSession == (if LoggedOut(cfg, email, cfg.activeSession) then "" else cfg.activeSession)
    && after.currentContext == (if exists c :: c in after.contexts && c.name == cfg.currentContext then cfg.currentContext else "")
    && after.organizations == cfg.organizations && after.projects == cfg.projects && after.lastRefreshed == cfg.lastRefreshed
  }

  lemma LogoutRemoves(cfg: Config, email: string)
    ensures UserRemoved(cfg, email, WithoutEmail(cfg, email))
  {
    KeepMembers(NotEmail(email), cfg.sessions);
    KeepMembers(OwnerNotIn(EmailNames(cfg.sessions, email)), cfg.contexts);
    forall name
      ensures name in EmailNames(cfg.sessions, email) <==> LoggedOut(cfg, email, name)
    {
    }
    var after := WithoutEmail(cfg, email);
    if c :| c in after.contexts && c.name == cfg.currentContext {
      assert ContextNameOf(c) == cfg.currentContext;
    }
    var i := FirstIndex(ContextNameOf, after.contexts, cfg.currentContext);
    assert i < |after.contexts| ==> after.contexts[i] in after.contexts && after.contexts[i].name == cfg.currentContext;
  }

  /** So whoever logs out has no active session left. */
  lemma LoggedOutIsInactive(cfg: Config, email: string)
    ensures var active := ActiveSessionEntry(WithoutEmail(cfg, email));
            active.Some? ==> active.value in cfg.sessions && active.value.userEmail != email
  {
    LogoutRemoves(cfg, email);
    var after := WithoutEmail(cfg, email);
    var active := ActiveSessionEntry(after);
    assert active.Some? ==> active.value in after.sessions;
  }

  // ---- Lemmas for the loops ----

  ghost function OrgIDsWithin(orgs: seq<CachedOrg>, s: string, display: string): seq<string> {
    OrgIDsLabelled(SessionView([], Keep(OrgWithin(s), orgs), []), display)
  }

  ghost function ProjectIDsWithin(projects: seq<CachedProject>, s: string, display: string): seq<string> {
    ProjectIDsLabelled(SessionView([], [], Keep(ProjectWithin(s), projects)), display)
  }

  lemma OrgIDsSnoc(orgs: seq<CachedOrg>, o: CachedOrg, s: string, display: string)
    ensures OrgIDsWithin(orgs + [o], s, display)
         == OrgIDsWithin(orgs, s, display) + if OrgWithin(s)(o) && OrgLabelled(display)(o) then [o.id] else []
  {
    KeepSnoc(OrgWithin(s), orgs, o);
    if OrgWithin(s)(o) {
      KeepSnoc(OrgLabelled(display), Keep(OrgWithin(s), orgs), o);
    }
  }

  lemma ProjectIDsSnoc(projects: seq<CachedProject>, p: CachedProject, s: string, display: string)
    ensures ProjectIDsWithin(projects + [p], s, display)
         == ProjectIDsWithin(projects, s, display) + if ProjectWithin(s)(p) && ProjectLabelled(display)(p) then [p.id] else []
  {
    KeepSnoc(ProjectWithin(s), projects, p);
    if ProjectWithin(s)(p) {
      KeepSnoc(ProjectLabelled(display), Keep(ProjectWithin(s), projects), p);
    }
  }

  lemma MigratedNext(cs: seq<DiscoveredContext>, i: nat)
    requires i < |cs|
    ensures MigratedContexts(cs[..i + 1]) == MigratedContexts(cs[..i]) + [MigratedContext(cs[i])]
  {
  }

  /** The running match stands for the positions seen so far: none, or exactly one. */
  ghost predicate Represents(m: Option<nat>, seen: set<nat>) {
    match m
    case None => seen == {}
    case Some(i) => seen == {i}
  }

  ghost predicate Several(s: set<nat>) {
    exists i, j :: i in s && j in s && i != j
  }

  lemma SeveralGrows(s: set<nat>, t: set<nat>)
    requires Several(s) && s <= t
    ensures Several(t)
  {
  }

  lemma SeveralNotOnly(s: set<nat>)
    requires Several(s)
    ensures Only(s) == None
  {
  }

  lemma RepresentsOnly(m: Option<nat>, s: set<nat>)
    requires Represents(m, s)
    ensures m == Only(s)
  {
  }

  ghost function ScopedTo(v: SessionView, orgID: string, projPart: string): set<nat> {
    set i: nat |
      && i < |v.contexts|
      && v.contexts[i].organizationID == orgID
      && ProjectDenoted(v, projPart, orgID, v.contexts[i].projectID)
  }

  class ConfigV1Beta1 {
    var sessions: seq<Session>
    var contexts: seq<DiscoveredContext>
    var currentContext: string
    var activeSession: string
    var organizations: seq<CachedOrg>
    var projects: seq<CachedProject>
    var lastRefreshed: Option<int>

    /** The value the object denotes; saving writes it to the file. */
    function View(): Config
      reads this
    {
      Config(sessions, contexts, currentContext, activeSession, organizations, projects, lastRefreshed)
    }

    /** Reading the config file: the decoded value, upgraded. A missing or empty file decodes to the empty config. */
    constructor Load(file: Config)
      ensures View() == Migrate(file)
    {
      sessions, contexts := file.sessions, file.contexts;
      currentContext, activeSession := file.currentContext, file.activeSession;
      organizations, projects, lastRefreshed := file.organizations, file.projects, file.lastRefreshed;
      new;
      MigrateSessionScoping();
    }

    // ---- Lookups ----

    method FindContextByName(name: string) returns (r: Option<DiscoveredContext>)
      ensures r == ContextByName(View(), name)
    {
      for i := 0 to |contexts|
        invariant forall j | 0 <= j < i :: contexts[j].name != name
      {
        if contexts[i].name == name {
          FirstIndexUnique(ContextNameOf, contexts, name, i);
          return Some(contexts[i]);
        }
      }
      return None;
    }

    method FindSessionByName(name: string) returns (r: Option<Session>)
      ensures r == SessionByName(View(), name)
    {
      for i := 0 to |sessions|
        invariant forall j | 0 <= j < i :: sessions[j].name != name
      {
        if sessions[i].name == name {
          FirstIndexUnique(SessionNameOf, sessions, name, i);
          return Some(sessions[i]);
        }
      }
      return None;
    }

    method FindActiveSession() returns (r: Option<Session>)
      ensures r == ActiveSessionEntry(View())
    {
      if currentContext != "" {
        var ctx := FindContextByName(currentContext);
        if ctx.Some? {
          var s := FindSessionByName(ctx.value.session);
          if s.Some? {
            return s;
          }
        }
      }
      if activeSession != "" {
        r := FindSessionByName(activeSession);
        return r;
      }
      return None;
    }

    method ContextsForSession(sessionName: string) returns (r: seq<DiscoveredContext>)
      ensures r == Keep(OwnedBy(sessionName), contexts)
    {
      r := [];
      for i := 0 to |contexts|
        invariant r == Keep(OwnedBy(sessionName), contexts[..i])
      {
        KeepNext(OwnedBy(sessionName), contexts, i);
        if contexts[i].session == sessionName {
          r := r + [contexts[i]];
        }
      }
      assert contexts[..|contexts|] == contexts;
    }

    // ---- Updates ----

    method UpsertSession(s: Session)
      modifies this`sessions
      ensures sessions == Upsert(SessionNameOf, old(sessions), s)
    {
      for i := 0 to |sessions|
        invariant sessions == old(sessions)
        invariant forall j | 0 <= j < i :: sessions[j].name != s.name
      {
        if sessions[i].name == s.name {
          FirstIndexUnique(SessionNameOf, sessions, s.name, i);
          sessions := sessions[i := s];
          return;
        }
      }
      sessions := sessions + [s];
    }

    method UpsertContext(ctx: DiscoveredContext)
      modifies this`contexts
      ensures contexts == Upsert(ContextNameOf, old(contexts), ctx)
    {
      for i := 0 to |contexts|
        invariant contexts == old(contexts)
        invariant forall j | 0 <= j < i :: contexts[j].name != ctx.name
      {
        if contexts[i].name == ctx.name {
          FirstIndexUnique(ContextNameOf, contexts, ctx.name, i);
          contexts := contexts[i := ctx];
          return;
        }
      }
      contexts := contexts + [ctx];
    }

    method DropSessionsOf(email: string) returns (names: set<string>)
      modifies this`sessions
      ensures names == EmailNames(old(sessions), email)
      ensures sessions == Keep(NotEmail(email), old(sessions))
    {
      names := {};
      var kept: seq<Session> := [];
      for i := 0 to |sessions|
        invariant sessions == old(sessions)
        invariant names == EmailNames(sessions[..i], email)
        invariant kept == Keep(NotEmail(email), sessions[..i])
      {
        KeepNext(NotEmail(email), sessions, i);
        if sessions[i].userEmail == email {
          names := names + {sessions[i].name};
        } else {
          kept := kept + [sessions[i]];
        }
      }
      assert sessions[..|sessions|] == sessions;
      sessions := kept;
    }

    method DropContextsOf(names: set<string>)
      modifies this`contexts
      ensures contexts == Keep(OwnerNotIn(names), old(contexts))
    {
      var remaining: seq<DiscoveredContext> := [];
      for i := 0 to |contexts|
        invariant contexts == old(contexts)
        invariant remaining == Keep(OwnerNotIn(names), contexts[..i])
      {
        KeepNext(OwnerNotIn(names), contexts, i);
        if contexts[i].session !in names {
          remaining := remaining + [contexts[i]];
        }
      }
      assert contexts[..|contexts|] == contexts;
      contexts := remaining;
    }

    method RemoveSessionsByEmail(email: string)
      modifies this
      ensures View() == WithoutEmail(old(View()), email)
    {
      var names := DropSessionsOf(email);
      DropContextsOf(names);
      if activeSession in names {
        activeSession := "";
      }
      if currentContext != "" {
        var ctx := FindContextByName(currentContext);
        if ctx.None? {
          currentContext := "";
        }
      }
    }

    // ---- Upgrading a legacy config ----

    method MoveLastContexts(i: nat, before: string, want: string, ghost was: seq<Session>)
      requires i < |contexts|
      requires sessions == MigratedSessions(contexts, was, i)
      modifies this`sessions
      ensures |sessions| == |was|
      ensures forall j | 0 <= j < |was| ::
                sessions[j] == was[j].(lastContext :=
                  var q := MigratedPointer(contexts, was[j].lastContext, i); if q == before then want else q)
    {
      for j := 0 to |sessions|
        invariant |sessions| == |was|
        invariant forall m | j <= m < |was| ::
                    sessions[m] == was[m].(lastContext := MigratedPointer(contexts, was[m].lastContext, i))
        invariant forall m | 0 <= m < j ::
                    sessions[m] == was[m].(lastContext :=
                      var q := MigratedPointer(contexts, was[m].lastContext, i); if q == before then want else q)
      {
        if sessions[j].lastContext == before {
          sessions := sessions[j := sessions[j].(lastContext := want)];
        }
      }
    }

    /** One round: rename the context at position i and move the pointers that held its old name. */
    method QualifyOne(i: nat, ghost was: string, ghost sessionsWere: seq<Session>) returns (renamed: DiscoveredContext)
      requires i < |contexts|
      requires currentContext == MigratedPointer(contexts, was, i)
      requires sessions == MigratedSessions(contexts, sessionsWere, i)
      modifies this`currentContext, this`sessions
      ensures renamed == MigratedContext(contexts[i])
      ensures currentContext == MigratedPointer(contexts, was, i + 1)
      ensures sessions == MigratedSessions(contexts, sessionsWere, i + 1)
    {
      var ctx := contexts[i];
      if ctx.session == "" || ctx.name == ctx.QualifiedName() {
        return ctx;
      }
      var want := ctx.QualifiedName();
      if currentContext == ctx.name {
        currentContext := want;
      }
      MoveLastContexts(i, ctx.name, want, sessionsWere);
      return ctx.(name := want);
    }

    method QualifyContexts()
      modifies this`contexts, this`currentContext, this`sessions
      ensures contexts == MigratedContexts(old(contexts))
      ensures currentContext == MigratedPointer(old(contexts), old(currentContext), |old(contexts)|)
      ensures sessions == MigratedSessions(old(contexts), old(sessions), |old(contexts)|)
    {
      var renamed: seq<DiscoveredContext> := [];
      for i := 0 to |contexts|
        invariant contexts == old(contexts)
        invariant renamed == MigratedContexts(contexts[..i])
        invariant currentContext == MigratedPointer(contexts, old(currentContext), i)
        invariant sessions == MigratedSessions(contexts, old(sessions), i)
      {
        MigratedNext(contexts, i);
        var ctx := QualifyOne(i, old(currentContext), old(sessions));
        renamed := renamed + [ctx];
      }
      assert contexts[..|contexts|] == contexts;
      contexts := renamed;
    }

    static method StampedOrgs(os: seq<CachedOrg>) returns (kept: seq<CachedOrg>)
      ensures kept == Keep(OrgStamped(), os)
    {
      kept := [];
      for i := 0 to |os|
        invariant kept == Keep(OrgStamped(), os[..i])
      {
        KeepNext(OrgStamped(), os, i);
        if os[i].session != "" {
          kept := kept + [os[i]];
        }
      }
      assert os[..|os|] == os;
    }

    static method StampedProjects(ps: seq<CachedProject>) returns (kept: seq<CachedProject>)
      ensures kept == Keep(ProjectStamped(), ps)
    {
      kept := [];
      for i := 0 to |ps|
        invariant kept == Keep(ProjectStamped(), ps[..i])
      {
        KeepNext(ProjectStamped(), ps, i);
        if ps[i].session != "" {
          kept := kept + [ps[i]];
        }
      }
      assert ps[..|ps|] == ps;
    }

    method MigrateSessionScoping()
      modifies this
      ensures View() == Migrate(old(View()))
    {
      QualifyContexts();
      organizations := StampedOrgs(organizations);
      projects := StampedProjects(projects);
    }

    // ---- Resolving a query ----

    method ContextsWithin(sessionName: string) returns (r: seq<DiscoveredContext>)
      ensures r == ViewOf(View(), sessionName).contexts
    {
      r := [];
      for i := 0 to |contexts|
        invariant r == Keep(ContextWithin(sessionName), contexts[..i])
      {
        KeepNext(ContextWithin(sessionName), contexts, i);
        if SessionMatches(sessionName, contexts[i].session) {
          r := r + [contexts[i]];
        }
      }
      assert contexts[..|contexts|] == contexts;
    }

    method ResolveOrgIDs(display: string, sessionName: string) returns (ids: seq<string>)
      ensures ids == OrgIDsLabelled(ViewOf(View(), sessionName), display)
    {
      ids := [];
      for i := 0 to |organizations|
        invariant ids == OrgIDsWithin(organizations[..i], sessionName, display)
      {
        var o := organizations[i];
        OrgIDsSnoc(organizations[..i], o, sessionName, display);
        assert organizations[..i + 1] == organizations[..i] + [o];
        if o.displayName == display && o.displayName != o.id && SessionMatches(sessionName, o.session) {
          ids := ids + [o.id];
        }
      }
      assert organizations[..|organizations|] == organizations;
    }

    method ResolveProjectIDs(display: string, sessionName: string) returns (ids: seq<string>)
      ensures ids == ProjectIDsLabelled(ViewOf(View(), sessionName), display)
    {
      ids := [];
      for i := 0 to |projects|
        invariant ids == ProjectIDsWithin(projects[..i], sessionName, display)
      {
        var p := projects[i];
        ProjectIDsSnoc(projects[..i], p, sessionName, display);
        assert projects[..i + 1] == projects[..i] + [p];
        if p.displayName == display && p.displayName != p.id && SessionMatches(sessionName, p.session) {
          ids := ids + [p.id];
        }
      }
      assert projects[..|projects|] == projects;
    }

    /** The IDs a project part may stand for inside one organization, the literal one included. */
    method ProjectCandidates(part: string, orgID: string, sessionName: string) returns (ids: seq<string>)
      ensures forall id :: id in ids <==> ProjectDenoted(ViewOf(View(), sessionName), part, orgID, id)
    {
      ids := [];
      for i := 0 to |projects|
        invariant forall id :: id in ids <==>
                    exists p | p in projects[..i] ::
                      ProjectLabelledIn(part, orgID)(p) && SessionMatches(sessionName, p.session) && p.id == id
      {
        var p := projects[i];
        assert projects[..i + 1] == projects[..i] + [p];
        if p.orgID == orgID && p.displayName == part && p.displayName != p.id && SessionMatches(sessionName, p.session) {
          ids := ids + [p.id];
        }
      }
      assert projects[..|projects|] == projects;
      KeepMembers(ProjectWithin(sessionName), projects);
      if part !in ids {
        ids := ids + [part];
      }
    }

    static method FirstNamed(cs: seq<DiscoveredContext>, name: string) returns (r: Option<nat>)
      ensures r == First(Named(cs, name))
    {
      for i := 0 to |cs|
        invariant forall j | 0 <= j < i :: cs[j].name != name
      {
        if cs[i].name == name {
          assert i in Named(cs, name);
          return Some(i);
        }
      }
      return None;
    }

    static method FirstWithIDs(cs: seq<DiscoveredContext>, orgID: string, projectID: string) returns (r: Option<nat>)
      ensures r == First(WithIDs(cs, orgID, projectID))
    {
      for i := 0 to |cs|
        invariant forall j | 0 <= j < i :: cs[j].organizationID != orgID || cs[j].projectID != projectID
      {
        if cs[i].organizationID == orgID && cs[i].projectID == projectID {
          assert i in WithIDs(cs, orgID, projectID);
          return Some(i);
        }
      }
      return None;
    }

    static method FirstWithProject(cs: seq<DiscoveredContext>, projectID: string) returns (r: Option<nat>)
      ensures r == First(WithProject(cs, projectID))
    {
      for i := 0 to |cs|
        invariant forall j | 0 <= j < i :: cs[j].projectID != projectID
      {
        if cs[i].projectID == projectID {
          assert i in WithProject(cs, projectID);
          return Some(i);
        }
      }
      return None;
    }

    static method OnlyWithProject(cs: seq<DiscoveredContext>, projectID: string) returns (found: bool, r: Option<nat>)
      ensures found <==> WithProject(cs, projectID) != {}
      ensures found ==> r == Only(WithProject(cs, projectID))
    {
      var idMatch: Option<nat> := None;
      for i := 0 to |cs|
        invariant Represents(idMatch, set j: nat | j < i && cs[j].projectID == projectID)
      {
        if cs[i].projectID == projectID {
          assert i in WithProject(cs, projectID);
          if idMatch.Some? {
            assert idMatch.value in (set j: nat | j < i && cs[j].projectID == projectID);
            assert idMatch.value in WithProject(cs, projectID);
            return true, None;
          }
          idMatch := Some(i);
        }
      }
      assert WithProject(cs, projectID) == set j: nat | j < |cs| && cs[j].projectID == projectID;
      if idMatch.Some? {
        assert |{idMatch.value}| == 1;
      }
      return idMatch.Some?, idMatch;
    }

    static method ScanIDs(cs: seq<DiscoveredContext>, orgID: string, projectID: string, start: Option<nat>, ghost seen: set<nat>)
      returns (m: Option<nat>, ambiguous: bool)
      requires Represents(start, seen)
      ensures ambiguous ==> Several(seen + WithIDs(cs, orgID, projectID))
      ensures !ambiguous ==> Represents(m, seen + WithIDs(cs, orgID, projectID))
    {
      m := start;
      for i := 0 to |cs|
        invariant Represents(m, seen + set j: nat | j < i && j in WithIDs(cs, orgID, projectID))
      {
        if cs[i].organizationID == orgID && cs[i].projectID == projectID {
          assert i in WithIDs(cs, orgID, projectID);
          if m.Some? && m.value != i {
            assert m.value in seen + set j: nat | j < i && j in WithIDs(cs, orgID, projectID);
            return m, true;
          }
          m := Some(i);
        }
      }
      assert WithIDs(cs, orgID, projectID) == set j: nat | j < |cs| && j in WithIDs(cs, orgID, projectID);
      return m, false;
    }

    /** One round of the outer loop of stage 5: every project the part may stand for inside one organization. */
    method ScanOrg(cs: seq<DiscoveredContext>, orgID: string, projPart: string, sessionName: string, start: Option<nat>, ghost seen: set<nat>)
      returns (m: Option<nat>, ambiguous: bool)
      requires cs == ViewOf(View(), sessionName).contexts
      requires Represents(start, seen)
      ensures var all := seen + ScopedTo(ViewOf(View(), sessionName), orgID, projPart);
              if ambiguous then Several(all) else Represents(m, all)
    {
      ghost var scope := ScopedTo(ViewOf(View(), sessionName), orgID, projPart);
      var ids := ProjectCandidates(projPart, orgID, sessionName);
      m := start;
      ghost var done: set<nat> := {};
      for b := 0 to |ids|
        invariant Represents(m, seen + done)
        invariant done <= scope
        invariant forall i | i in scope && cs[i].projectID in ids[..b] :: i in done
      {
        ghost var hits := WithIDs(cs, orgID, ids[b]);
        assert ids[b] in ids;
        assert hits <= scope;
        m, ambiguous := ScanIDs(cs, orgID, ids[b], m, seen + done);
        if ambiguous {
          SeveralGrows(seen + done + hits, seen + scope);
          return;
        }
        assert seen + done + hits == seen + (done + hits);
        done := done + hits;
        assert ids[..b + 1] == ids[..b] + [ids[b]];
      }
      assert ids[..|ids|] == ids;
      assert done == scope;
      return m, false;
    }

    /** Stage 5: a match counts only if it is the only one over all organizations and projects denoted. */
    method ScanOrgs(cs: seq<DiscoveredContext>, orgIDs: seq<string>, projPart: string, sessionName: string, ghost denoted: set<nat>)
      returns (r: Option<nat>)
      requires var v := ViewOf(View(), sessionName);
               && cs == v.contexts
               && denoted == set i: nat | i < |cs| && cs[i].organizationID in orgIDs && i in ScopedTo(v, cs[i].organizationID, projPart)
      ensures r == Only(denoted)
    {
      ghost var v := ViewOf(View(), sessionName);
      var m: Option<nat> := None;
      ghost var done: set<nat> := {};
      for a := 0 to |orgIDs|
        invariant Represents(m, done)
        invariant done <= denoted
        invariant forall i | i in denoted && cs[i].organizationID in orgIDs[..a] :: i in done
      {
        ghost var hits := ScopedTo(v, orgIDs[a], projPart);
        assert orgIDs[a] in orgIDs;
        assert hits <= denoted;
        var ambiguous;
        m, ambiguous := ScanOrg(cs, orgIDs[a], projPart, sessionName, m, done);
        if ambiguous {
          SeveralGrows(done + hits, denoted);
          SeveralNotOnly(denoted);
          return None;
        }
        done := done + hits;
        assert orgIDs[..a + 1] == orgIDs[..a] + [orgIDs[a]];
      }
      assert orgIDs[..|orgIDs|] == orgIDs;
      assert done == denoted;
      RepresentsOnly(m, denoted);
      return m;
    }

    method ResolvePairQuery(cs: seq<DiscoveredContext>, orgPart: string, projPart: string, sessionName: string) returns (r: Option<nat>)
      requires cs == ViewOf(View(), sessionName).contexts
      ensures r == ResolvePair(ViewOf(View(), sessionName), orgPart, projPart)
    {
      r := FirstWithIDs(cs, orgPart, projPart);
      if r.Some? {
        return;
      }
      var orgIDs := ResolveOrgIDs(orgPart, sessionName);
      if |orgIDs| == 0 {
        orgIDs := [orgPart];
      }
      r := ScanOrgs(cs, orgIDs, projPart, sessionName, Denoted(ViewOf(View(), sessionName), orgPart, projPart));
    }

    method ResolveWordQuery(cs: seq<DiscoveredContext>, word: string, sessionName: string) returns (r: Option<nat>)
      requires cs == ViewOf(View(), sessionName).contexts
      ensures r == ResolveWord(ViewOf(View(), sessionName), word)
    {
      r := FirstWithIDs(cs, word, "");
      if r.Some? {
        return;
      }
      var found;
      found, r := OnlyWithProject(cs, word);
      if found {
        return;
      }
      var orgIDs := ResolveOrgIDs(word, sessionName);
      if |orgIDs| == 1 {
        r := FirstWithIDs(cs, orgIDs[0], "");
        if r.Some? {
          return;
        }
      } else if |orgIDs| > 1 {
        return None;
      }
      var projectIDs := ResolveProjectIDs(word, sessionName);
      if |projectIDs| == 1 {
        r := FirstWithProject(cs, projectIDs[0]);
        return;
      }
      return None;
    }

    method ResolveContextInSession(query: string, sessionName: string) returns (r: Option<DiscoveredContext>)
      ensures r == ResolveInSession(View(), query, sessionName)
    {
      var cs := ContextsWithin(sessionName);
      var i := FirstNamed(cs, query);
      if i.None? {
        var cut := Cut(query, '/');
        if cut.found {
          i := ResolvePairQuery(cs, cut.before, cut.after, sessionName);
        } else {
          i := ResolveWordQuery(cs, query, sessionName);
        }
      }
      ghost var v := ViewOf(View(), sessionName);
      assert i == Resolve(v, query);
      if i.None? {
        return None;
      }
      return Some(cs[i.value]);
    }
  }
}
