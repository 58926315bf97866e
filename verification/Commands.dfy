/**
  Everything that changes the config - login, ctx refresh, ctx use, auth switch, logout,
  the console's login and context switcher, the bootstrap of a session from the keyring
  and the re-keying of sessions - as functions from the stored config to the one stored
  afterwards, and what every sequence of them keeps. A command that fails before it saves
  leaves the file alone.
 */
module Commands {
  import opened Text
  import opened KeyedList
  import opened ConfigTypes
  import opened Resolver
  import opened ScopeMigration
  import opened ConfigStore
  import opened Discovery
  import UserKeys

  // ---- What the outside world answers ----

  /** What the API reported, or None when discovery failed. */
  datatype Found = Found(orgs: seq<DiscoveredOrg>, projects: seq<DiscoveredProject>)

  datatype Onboarding = CheckFailed | Incomplete | Complete

  datatype LoginAnswers = LoginAnswers(
    tokenSource: bool,
    found: Option<Found>,
    portalKnown: bool,
    pick: Option<nat>,
    onboarding: Onboarding)

  /** An interactive picker: a single offer is taken without asking, cancelling gives None. */
  function Picked(offers: seq<string>, pick: Option<nat>): Option<string> {
    if |offers| == 1 then Some(offers[0])
    else if pick.Some? && pick.value < |offers| then Some(offers[pick.value])
    else None
  }

  function ContextNames(cs: seq<DiscoveredContext>): seq<string> {
    seq(|cs|, i requires 0 <= i < |cs| => cs[i].name)
  }

  function SessionNames(ss: seq<Session>): seq<string> {
    seq(|ss|, i requires 0 <= i < |ss| => ss[i].name)
  }

  function HasEmail(email: string): Session -> bool {
    (s: Session) => s.userEmail == email
  }

  // ---- The commands as functions on the stored config ----

  function WithLastContext(ss: seq<Session>, sessionName: string, ctxName: string): seq<Session> {
    var i := FirstIndex(SessionNameOf, ss, sessionName);
    if i < |ss| then ss[i := ss[i].(lastContext := ctxName)] else ss
  }

  function LoggedIn(file: Config, session: Session): Config {
    var cfg := Migrate(file);
    cfg.(sessions := Upsert(SessionNameOf, cfg.sessions, session), activeSession := session.name)
  }

  /** A login, and the refresh that follows it if the API could be asked. It is all the console does. */
  function RefreshedLogin(file: Config, session: Session, found: Option<Found>, now: int): Config {
    if found.None? then LoggedIn(file, session)
    else Refresh(LoggedIn(file, session), session.name, found.value.orgs, found.value.projects, now)
  }

  /** The context picked at the end of a login becomes current, and the session's last one. */
  function Selected(cfg: Config, sessionName: string, name: string): Config {
    cfg.(currentContext := name, sessions := WithLastContext(cfg.sessions, sessionName, name))
  }

  /** A login that fails saves nothing; one that succeeds may still have no context to select. */
  datatype LoginOutcome = Aborted | WithoutContext(cfg: Config) | WithContext(cfg: Config, name: string)

  /** Once the session is refreshed: offer its contexts, if there are any, and check onboarding. */
  function OfferContexts(refreshed: Config, sessionName: string, someOrgs: bool, a: LoginAnswers): LoginOutcome {
    var own := Keep(OwnedBy(sessionName), refreshed.contexts);
    if !someOrgs || own == [] then (if a.portalKnown then WithoutContext(refreshed) else Aborted)
    else
      match Picked(ContextNames(own), a.pick)
      case None => Aborted
      case Some(name) =>
        if ContextByName(refreshed, name).Some? && a.onboarding == CheckFailed then Aborted
        else if ContextByName(refreshed, name).Some? && a.onboarding == Incomplete then WithoutContext(refreshed)
        else WithContext(refreshed, name)
  }

  function LoginEnds(file: Config, session: Session, a: LoginAnswers, now: int): LoginOutcome {
    var cfg := LoggedIn(file, session);
    if !a.tokenSource then Aborted
    else if a.found.None? then WithoutContext(cfg)
    else
      var Found(orgs, projects) := a.found.value;
      OfferContexts(Refresh(cfg, session.name, orgs, projects, now), session.name, orgs != [], a)
  }

  /** What a login saves, given how it ends. */
  function Saved(file: Config, sessionName: string, end: LoginOutcome): Config {
    match end
    case Aborted => file
    case WithoutContext(cfg) => cfg
    case WithContext(cfg, name) => Selected(cfg, sessionName, name)
  }

  function Login(file: Config, session: Session, a: LoginAnswers, now: int): Config {
    Saved(file, session.name, LoginEnds(file, session, a, now))
  }

  function RefreshActive(file: Config, found: Option<Found>, now: int): Config {
    var cfg := Migrate(file);
    var active := ActiveSessionEntry(cfg);
    if active.None? || found.None? then file
    else Refresh(cfg, active.value.name, found.value.orgs, found.value.projects, now)
  }

  function UseContext(cfg: Config, c: DiscoveredContext): Config {
    cfg.(currentContext := c.name, activeSession := c.session, sessions := WithLastContext(cfg.sessions, c.session, c.name))
  }

  function ActiveName(cfg: Config): string {
    if ActiveSessionEntry(cfg).Some? then ActiveSessionEntry(cfg).value.name else ""
  }

  /** `ctx use <query>`; the picked form is UsePicked. */
  ghost function UseQuery(file: Config, query: string): Config {
    var cfg := Migrate(file);
    var r := ResolveInSession(cfg, query, ActiveName(cfg));
    if cfg.contexts == [] || r.None? then file else UseContext(cfg, r.value)
  }

  function UsePicked(file: Config, pick: Option<nat>): Config {
    var cfg := Migrate(file);
    var name := Picked(ContextNames(Keep(OwnedBy(ActiveName(cfg)), cfg.contexts)), pick);
    if cfg.contexts == [] || name.None? then file
    else
      var r := ContextByName(cfg, name.value);
      if r.None? then file else UseContext(cfg, r.value)
  }

  function SwitchTo(cfg: Config, session: Session): Config {
    cfg.(
      activeSession := session.name,
      currentContext :=
        if session.lastContext != "" && ContextByName(cfg, session.lastContext).Some? then session.lastContext else "")
  }

  /** The sessions the switcher lists. */
  function Offered(cfg: Config, email: Option<string>): seq<Session> {
    if email.Some? then Keep(HasEmail(email.value), cfg.sessions) else cfg.sessions
  }

  function SwitchTarget(cfg: Config, email: Option<string>, pick: Option<nat>): Option<Session> {
    var name := Picked(SessionNames(Offered(cfg, email)), pick);
    if name.None? then None else SessionByName(cfg, name.value)
  }

  function Switch(file: Config, email: Option<string>, pick: Option<nat>): Config {
    var cfg := Migrate(file);
    var target := SwitchTarget(cfg, email, pick);
    if target.None? then file else SwitchTo(cfg, target.value)
  }

  function LogoutByEmail(file: Config, email: string): Config {
    var cfg := Migrate(file);
    if Keep(HasEmail(email), cfg.sessions) == [] then file else WithoutEmail(cfg, email)
  }

  function LogoutAll(file: Config): Config {
    Migrate(file).(sessions := [], contexts := [], currentContext := "", activeSession := "")
  }

  /** The console's context switcher lists the active session's contexts, or all if none is active, and sets the current one only. */
  function ConsolePick(file: Config, pick: nat): Config {
    var cfg := Migrate(file);
    var offered := Keep(ContextWithin(ActiveName(cfg)), cfg.contexts);
    if pick < |offered| then cfg.(currentContext := offered[pick].name) else file
  }

  /** A session made from credentials found in the keyring, when no active one can be used. */
  function Bootstrap(file: Config, session: Session): Config {
    var cfg := Migrate(file);
    var active := ActiveSessionEntry(cfg);
    if active.Some? && active.value.userKey != "" then file
    else
      cfg.(
        sessions := Upsert(SessionNameOf, cfg.sessions, session),
        activeSession := if cfg.activeSession == "" then session.name else cfg.activeSession)
  }

  /** The user keys are moved once their credentials are. */
  function Rekey(file: Config): Config {
    var cfg := Migrate(file);
    if UserKeys.AnyMoves(cfg.sessions) then cfg.(sessions := UserKeys.MovedAll(cfg.sessions)) else file
  }

  datatype Command =
    | DoLogin(session: Session, answers: LoginAnswers, now: int)
    | DoRefresh(found: Option<Found>, now: int)
    | DoUse(query: string)
    | DoUsePicked(pick: Option<nat>)
    | DoSwitch(email: Option<string>, pick: Option<nat>)
    | DoLogout(userEmail: string)
    | DoLogoutAll
    | DoConsoleLogin(session: Session, found: Option<Found>, now: int)
    | DoConsolePick(position: nat)
    | DoBootstrap(session: Session)
    | DoRekey

  ghost function Step(file: Config, cmd: Command): Config {
    match cmd
    case DoLogin(session, answers, now) => Login(file, session, answers, now)
    case DoRefresh(found, now) => RefreshActive(file, found, now)
    case DoUse(query) => UseQuery(file, query)
    case DoUsePicked(pick) => UsePicked(file, pick)
    case DoSwitch(email, pick) => Switch(file, email, pick)
    case DoLogout(userEmail) => LogoutByEmail(file, userEmail)
    case DoLogoutAll => LogoutAll(file)
    case DoConsoleLogin(session, found, now) => RefreshedLogin(file, session, found, now)
    case DoConsolePick(position) => ConsolePick(file, position)
    case DoBootstrap(session) => Bootstrap(file, session)
    case DoRekey => Rekey(file)
  }

  ghost function Run(file: Config, cmds: seq<Command>): Config {
    if cmds == [] then file else Step(Run(file, cmds[..|cmds| - 1]), cmds[|cmds| - 1])
  }

  // ---- What the outside world guarantees ----

  predicate FoundOK(found: Option<Found>) {
    found.Some? ==>
      && (forall o | o in found.value.orgs :: SlashFree(o.name))
      && (forall p | p in found.value.projects :: SlashFree(p.orgName))
  }

  /** Session names are email@host without a slash; a new session has no last context. */
  predicate SessionOK(session: Session) {
    session.name != "" && SlashFree(session.name) && session.lastContext == ""
  }

  /** API names contain no slash. */
  predicate CommandOK(cmd: Command) {
    match cmd
    case DoLogin(session, answers, _) => SessionOK(session) && FoundOK(answers.found)
    case DoRefresh(found, _) => FoundOK(found)
    case DoConsoleLogin(session, found, _) => SessionOK(session) && FoundOK(found)
    case DoBootstrap(session) => SessionOK(session)
    case _ => true
  }

  // ---- The invariant ----

  ghost predicate SessionsSound(ss: seq<Session>) {
    DistinctKeys(SessionNameOf, ss) && forall s | s in ss :: s.name != "" && SlashFree(s.name)
  }

  ghost predicate HasSession(ss: seq<Session>, name: string) {
    exists s | s in ss :: s.name == name
  }

  ghost predicate CacheGood(cfg: Config) {
    && (forall o | o in cfg.organizations :: o.session != "")
    && (forall p | p in cfg.projects :: p.session != "")
    && (forall c | c in cfg.contexts :: CacheReferenced(cfg, c.session))
  }

  ghost predicate Sound(cfg: Config) {
    && SessionsSound(cfg.sessions)
    && WellFormed(cfg)
    && (forall c | c in cfg.contexts :: HasSession(cfg.sessions, c.session))
    && CacheGood(cfg)
  }

  /** The session's last context is written like the name of a context of some other session, whether or not one exists. */
  predicate NamesForeign(s: Session) {
    var c := Cut(s.lastContext, '/');
    var ref := Cut(c.after, '/');
    c.found && c.before != "" && c.before != s.name && !(ref.found && ref.after == "")
  }

  ghost predicate Good(cfg: Config) {
    Sound(cfg) && forall s | s in cfg.sessions :: !NamesForeign(s)
  }

  lemma EmptyIsGood()
    ensures Good(EMPTY_CONFIG)
  {
  }

  lemma NoMigrationNeeded(cfg: Config)
    requires Sound(cfg)
    ensures Migrate(cfg) == cfg
  {
    MigrateSettled(cfg);
  }

  /** Being written like it is exactly what it takes to be the name of some possible context of another session. */
  lemma NamesForeignIff(s: Session)
    ensures NamesForeign(s) <==> exists c: DiscoveredContext ::
              && c.name == s.lastContext && c.name == c.QualifiedName()
              && c.session != "" && SlashFree(c.session) && c.session != s.name && SlashFree(c.organizationID)
  {
    var cut := Cut(s.lastContext, '/');
    var ref := Cut(cut.after, '/');
    if NamesForeign(s) {
      var c := DiscoveredContext(s.lastContext, cut.before, ref.before, ref.after, "");
      assert c.Ref() == cut.after;
      assert c.name == c.QualifiedName();
    }
    if c: DiscoveredContext :|
      && c.name == s.lastContext && c.name == c.QualifiedName()
      && c.session != "" && SlashFree(c.session) && c.session != s.name && SlashFree(c.organizationID)
    {
      CutOfJoin(c.session, c.Ref(), '/');
      RefHasSlash(c);
      if c.projectID != "" {
        CutOfJoin(c.organizationID, c.projectID, '/');
      }
    }
  }

  lemma OwnNamePrefixed(c: DiscoveredContext)
    requires c.name == c.QualifiedName()
    ensures HasPrefix(c.name, c.session + "/")
  {
  }

  lemma OwnPrefixIsNotForeign(s: Session)
    requires SlashFree(s.name) && (s.lastContext == "" || HasPrefix(s.lastContext, s.name + "/"))
    ensures !NamesForeign(s)
  {
    if s.lastContext != "" {
      var rest := s.lastContext[|s.name| + 1..];
      assert s.lastContext == s.name + "/" + rest;
      CutOfJoin(s.name, rest, '/');
    }
  }

  // ---- Every command keeps it ----

  lemma WithLastContextSound(ss: seq<Session>, sessionName: string, ctxName: string)
    requires SessionsSound(ss)
    ensures SessionsSound(WithLastContext(ss, sessionName, ctxName))
    ensures forall name :: HasSession(ss, name) ==> HasSession(WithLastContext(ss, sessionName, ctxName), name)
  {
    var i, after := FirstIndex(SessionNameOf, ss, sessionName), WithLastContext(ss, sessionName, ctxName);
    forall name | HasSession(ss, name)
      ensures HasSession(after, name)
    {
      var s :| s in ss && s.name == name;
      var j :| 0 <= j < |ss| && ss[j] == s;
      assert after[j] in after;
    }
  }

  lemma UpsertSessionSound(ss: seq<Session>, session: Session)
    requires SessionsSound(ss) && session.name != "" && SlashFree(session.name)
    ensures SessionsSound(Upsert(SessionNameOf, ss, session))
    ensures HasSession(Upsert(SessionNameOf, ss, session), session.name)
    ensures forall name | HasSession(ss, name) :: HasSession(Upsert(SessionNameOf, ss, session), name)
  {
    UpsertMembers(SessionNameOf, ss, session);
    UpsertDistinct(SessionNameOf, ss, session);
    forall name | HasSession(ss, name)
      ensures HasSession(Upsert(SessionNameOf, ss, session), name)
    {
      var s :| s in ss && s.name == name;
      assert SessionNameOf(s) == name && SessionNameOf(session) == session.name;
    }
  }

  lemma SoundOthersQualified(cfg: Config, s: string)
    requires WellFormed(cfg) && SlashFree(s)
    ensures OthersQualified(cfg, s)
  {
  }

  lemma RefreshWellFormed(cfg: Config, s: string, found: Found, now: int)
    requires WellFormed(cfg) && s != "" && SlashFree(s) && FoundOK(Some(found))
    ensures WellFormed(Refresh(cfg, s, found.orgs, found.projects, now))
    ensures forall c | c in Refresh(cfg, s, found.orgs, found.projects, now).contexts :: c in cfg.contexts || c.session == s
  {
    SoundOthersQualified(cfg, s);
    RefreshedContexts(cfg, s, found.orgs, found.projects, now);
    forall c | c in FreshContexts(s, found.orgs, found.projects)
      ensures c.session == s && SlashFree(c.organizationID) && c.name == c.QualifiedName()
    {
      FreshDetails(s, found.orgs, found.projects, c);
    }
  }

  lemma RefreshCacheStamped(cfg: Config, s: string, found: Found, now: int)
    requires s != ""
    requires forall o | o in cfg.organizations :: o.session != ""
    requires forall p | p in cfg.projects :: p.session != ""
    ensures var after := Refresh(cfg, s, found.orgs, found.projects, now);
            && (forall o | o in after.organizations :: o.session != "" && OrgKey(o) in ReferencedOrgs(after.contexts))
            && (forall p | p in after.projects :: p.session != "" && ProjectKey(p) in ReferencedProjects(after.contexts))
  {
    var merged := Merge(cfg, s, found.orgs, found.projects);
    var after := Refresh(cfg, s, found.orgs, found.projects, now);
    UpsertAllMembers(OrgKey, cfg.organizations, OrgEntries(s, found.orgs));
    UpsertAllMembers(ProjectKey, cfg.projects, ProjectEntries(s, found.projects));
    KeepMembers(OrgIn(ReferencedOrgs(after.contexts)), merged.organizations);
    KeepMembers(ProjectIn(ReferencedProjects(after.contexts)), merged.projects);
  }

  lemma RefreshSound(cfg: Config, s: string, found: Found, now: int)
    requires Sound(cfg) && HasSession(cfg.sessions, s) && FoundOK(Some(found))
    ensures Sound(Refresh(cfg, s, found.orgs, found.projects, now))
  {
    RefreshWellFormed(cfg, s, found, now);
    RefreshCacheStamped(cfg, s, found, now);
  }

  lemma PickedIsOffered(cs: seq<DiscoveredContext>, s: string, pick: Option<nat>) returns (c: DiscoveredContext)
    requires Picked(ContextNames(Keep(OwnedBy(s), cs)), pick).Some?
    ensures c in cs && c.session == s && Picked(ContextNames(Keep(OwnedBy(s), cs)), pick) == Some(c.name)
  {
    var own := Keep(OwnedBy(s), cs);
    c := if |own| == 1 then own[0] else own[pick.value];
    assert c in own;
    KeepMember(OwnedBy(s), cs, c);
  }

  lemma LoggedInSound(file: Config, session: Session)
    requires Sound(file) && session.name != "" && SlashFree(session.name)
    ensures Sound(LoggedIn(file, session)) && HasSession(LoggedIn(file, session).sessions, session.name)
  {
    NoMigrationNeeded(file);
    UpsertSessionSound(file.sessions, session);
  }

  lemma OfferShape(refreshed: Config, sessionName: string, someOrgs: bool, a: LoginAnswers)
    ensures var end := OfferContexts(refreshed, sessionName, someOrgs, a);
            && (!end.Aborted? ==> end.cfg == refreshed)
            && (end.WithContext? ==> Picked(ContextNames(Keep(OwnedBy(sessionName), refreshed.contexts)), a.pick) == Some(end.name))
  {
  }

  /** The config a login ends with, before any selection, and what it selects. */
  lemma LoginShape(file: Config, session: Session, a: LoginAnswers, now: int)
    ensures var end := LoginEnds(file, session, a, now);
            && (!end.Aborted? ==> end.cfg == RefreshedLogin(file, session, a.found, now))
            && (end.WithContext? ==>
                  && a.found.Some?
                  && Picked(ContextNames(Keep(OwnedBy(session.name), end.cfg.contexts)), a.pick) == Some(end.name))
  {
    if a.found.Some? {
      OfferShape(RefreshedLogin(file, session, a.found, now), session.name, a.found.value.orgs != [], a);
    }
  }

  lemma RefreshedLoginSound(file: Config, session: Session, found: Option<Found>, now: int)
    requires Sound(file) && session.name != "" && SlashFree(session.name) && FoundOK(found)
    ensures Sound(RefreshedLogin(file, session, found, now))
  {
    LoggedInSound(file, session);
    if found.Some? {
      RefreshSound(LoggedIn(file, session), session.name, found.value, now);
    }
  }

  lemma SelectedSound(cfg: Config, sessionName: string, name: string)
    requires Sound(cfg)
    ensures Sound(Selected(cfg, sessionName, name))
  {
    WithLastContextSound(cfg.sessions, sessionName, name);
  }

  lemma LoginSound(file: Config, session: Session, a: LoginAnswers, now: int)
    requires Sound(file) && CommandOK(DoLogin(session, a, now))
    ensures Sound(Login(file, session, a, now))
  {
    var end := LoginEnds(file, session, a, now);
    LoginShape(file, session, a, now);
    RefreshedLoginSound(file, session, a.found, now);
    if end.WithContext? {
      SelectedSound(end.cfg, session.name, end.name);
    }
  }

  lemma ActiveExists(cfg: Config)
    ensures ActiveSessionEntry(cfg).Some? ==> ActiveSessionEntry(cfg).value in cfg.sessions
  {
  }

  lemma RefreshActiveSound(file: Config, found: Option<Found>, now: int)
    requires Sound(file) && FoundOK(found)
    ensures Sound(RefreshActive(file, found, now))
  {
    NoMigrationNeeded(file);
    ActiveExists(file);
    if ActiveSessionEntry(file).Some? && found.Some? {
      RefreshSound(file, ActiveSessionEntry(file).value.name, found.value, now);
    }
  }

  lemma UseContextSound(cfg: Config, c: DiscoveredContext)
    requires Sound(cfg) && c in cfg.contexts
    ensures Sound(UseContext(cfg, c))
  {
    WithLastContextSound(cfg.sessions, c.session, c.name);
  }

  /** Using a context, however it was named, uses one that exists. */
  lemma UsedExists(file: Config, query: string)
    requires Sound(file)
    ensures UseQuery(file, query) == file || exists c :: c in file.contexts && UseQuery(file, query) == UseContext(file, c)
  {
    NoMigrationNeeded(file);
    ResolvedIsOwned(file, query, ActiveName(file));
  }

  lemma UsedPickExists(file: Config, pick: Option<nat>)
    requires Sound(file)
    ensures UsePicked(file, pick) == file || exists c :: c in file.contexts && UsePicked(file, pick) == UseContext(file, c)
  {
    NoMigrationNeeded(file);
  }

  lemma UseSound(file: Config, after: Config)
    requires Sound(file) && (after == file || exists c :: c in file.contexts && after == UseContext(file, c))
    ensures Sound(after)
  {
    if after != file {
      var c :| c in file.contexts && after == UseContext(file, c);
      UseContextSound(file, c);
    }
  }

  lemma LogoutSound(cfg: Config, email: string)
    requires Sound(cfg)
    ensures Sound(WithoutEmail(cfg, email))
    ensures forall t | t != "" && t !in EmailNames(cfg.sessions, email) ::
              Keep(ContextWithin(t), WithoutEmail(cfg, email).contexts) == Keep(ContextWithin(t), cfg.contexts)
  {
    var names := EmailNames(cfg.sessions, email);
    var after := WithoutEmail(cfg, email);
    KeepMembers(NotEmail(email), cfg.sessions);
    KeepDistinct(SessionNameOf, NotEmail(email), cfg.sessions);
    KeepMembers(OwnerNotIn(names), cfg.contexts);
    KeepDistinct(ContextNameOf, OwnerNotIn(names), cfg.contexts);
    forall t | t != "" && t !in names
      ensures Keep(ContextWithin(t), after.contexts) == Keep(ContextWithin(t), cfg.contexts)
    {
      KeepImplied(ContextWithin(t), OwnerNotIn(names), cfg.contexts);
    }
    forall c | c in after.contexts
      ensures HasSession(after.sessions, c.session)
      ensures CacheReferenced(after, c.session)
    {
      var s :| s in cfg.sessions && s.name == c.session;
      assert s in after.sessions;
      forall id ensures (id, c.session) in ReferencedOrgs(after.contexts) <==> (id, c.session) in ReferencedOrgs(cfg.contexts)
                ensures (id, c.session) in ReferencedProjects(after.contexts) <==> (id, c.session) in ReferencedProjects(cfg.contexts) {
        ReferencesOf(after.contexts, cfg.contexts, c.session, id);
      }
    }
  }

  lemma BootstrapSound(file: Config, session: Session)
    requires Sound(file) && SessionOK(session)
    ensures Sound(Bootstrap(file, session))
  {
    NoMigrationNeeded(file);
    UpsertSessionSound(file.sessions, session);
  }

  /** Moving a user key leaves everything else about a session. */
  lemma RekeyedNames(ss: seq<Session>)
    ensures var after := UserKeys.MovedAll(ss);
            |after| == |ss| && forall i | 0 <= i < |ss| :: after[i].name == ss[i].name && after[i].lastContext == ss[i].lastContext
  {
  }

  /** Every session that has to gets its new key, and nothing else changes. */
  lemma RekeyMoves(file: Config)
    requires Sound(file)
    ensures Rekey(file) == file.(sessions := UserKeys.MovedAll(file.sessions))
  {
    NoMigrationNeeded(file);
    UserKeys.AnyMovesIff(file.sessions);
  }

  lemma RekeySound(file: Config)
    requires Sound(file)
    ensures Sound(Rekey(file))
  {
    var ss, after := file.sessions, UserKeys.MovedAll(file.sessions);
    NoMigrationNeeded(file);
    RekeyedNames(ss);
    forall i, j | 0 <= i < j < |after|
      ensures SessionNameOf(after[i]) != SessionNameOf(after[j])
    {
      assert SessionNameOf(ss[i]) != SessionNameOf(ss[j]);
    }
    forall name | HasSession(ss, name)
      ensures HasSession(after, name)
    {
      var i :| 0 <= i < |ss| && ss[i].name == name;
      assert after[i] in after;
    }
    forall s | s in after
      ensures s.name != "" && SlashFree(s.name)
    {
      var i :| 0 <= i < |after| && after[i] == s;
      assert ss[i] in ss;
    }
  }

  lemma StepSound(file: Config, cmd: Command)
    requires Sound(file) && CommandOK(cmd)
    ensures Sound(Step(file, cmd))
  {
    NoMigrationNeeded(file);
    match cmd
    case DoLogin(session, answers, now) => LoginSound(file, session, answers, now);
    case DoRefresh(found, now) => RefreshActiveSound(file, found, now);
    case DoUse(query) =>
      UsedExists(file, query);
      UseSound(file, UseQuery(file, query));
    case DoUsePicked(pick) =>
      UsedPickExists(file, pick);
      UseSound(file, UsePicked(file, pick));
    case DoSwitch(_, _) =>
    case DoLogout(userEmail) => LogoutSound(file, userEmail);
    case DoLogoutAll =>
    case DoConsoleLogin(session, found, now) => RefreshedLoginSound(file, session, found, now);
    case DoConsolePick(_) =>
    case DoBootstrap(session) => BootstrapSound(file, session);
    case DoRekey => RekeySound(file);
  }

  lemma {:induction false} RunSound(file: Config, cmds: seq<Command>)
    requires Sound(file) && forall cmd | cmd in cmds :: CommandOK(cmd)
    ensures Sound(Run(file, cmds))
  {
    if cmds == [] {
    } else {
      var front := cmds[..|cmds| - 1];
      assert forall cmd | cmd in front :: cmd in cmds;
      RunSound(file, front);
      StepSound(Run(file, front), cmds[|cmds| - 1]);
    }
  }

  // ---- Last contexts ----

  /** The session remembers what a session of its name did, or nothing, or something with its own name in front. */
  ghost predicate Follows(ss: seq<Session>, s: Session) {
    || (exists o :: o in ss && o.name == s.name && o.lastContext == s.lastContext)
    || s.lastContext == "" || HasPrefix(s.lastContext, s.name + "/")
  }

  lemma WithLastContextFollows(ss: seq<Session>, sessionName: string, ctxName: string)
    requires HasPrefix(ctxName, sessionName + "/")
    ensures forall s | s in WithLastContext(ss, sessionName, ctxName) :: Follows(ss, s)
  {
    var i := FirstIndex(SessionNameOf, ss, sessionName);
    assert i < |ss| ==> SessionNameOf(ss[i]) == sessionName;
  }

  lemma LoginFollows(file: Config, session: Session, a: LoginAnswers, now: int)
    requires Sound(file) && CommandOK(DoLogin(session, a, now))
    ensures forall s | s in Login(file, session, a, now).sessions :: Follows(file.sessions, s)
  {
    var end := LoginEnds(file, session, a, now);
    NoMigrationNeeded(file);
    LoginShape(file, session, a, now);
    UpsertMembers(SessionNameOf, file.sessions, session);
    LoginSound(file, session, a, now);
    if end.WithContext? {
      LoggedInSound(file, session);
      RefreshWellFormed(LoggedIn(file, session), session.name, a.found.value, now);
      var c := PickedIsOffered(end.cfg.contexts, session.name, a.pick);
      OwnNamePrefixed(c);
      WithLastContextFollows(end.cfg.sessions, session.name, end.name);
    }
  }

  lemma UseFollows(file: Config, after: Config)
    requires Sound(file) && (after == file || exists c :: c in file.contexts && after == UseContext(file, c))
    ensures forall s | s in after.sessions :: Follows(file.sessions, s)
  {
    if after != file {
      var c :| c in file.contexts && after == UseContext(file, c);
      OwnNamePrefixed(c);
      WithLastContextFollows(file.sessions, c.session, c.name);
    }
  }

  lemma RekeyFollows(file: Config)
    requires Sound(file)
    ensures forall s | s in Rekey(file).sessions :: Follows(file.sessions, s)
  {
    var after := UserKeys.MovedAll(file.sessions);
    NoMigrationNeeded(file);
    RekeyedNames(file.sessions);
    forall s | s in after
      ensures Follows(file.sessions, s)
    {
      var i :| 0 <= i < |after| && after[i] == s;
      assert file.sessions[i] in file.sessions;
    }
  }

  /** A command changes a last context only to a name of that session's own. */
  lemma StepFollows(file: Config, cmd: Command)
    requires Sound(file) && CommandOK(cmd)
    ensures forall s | s in Step(file, cmd).sessions :: Follows(file.sessions, s)
  {
    NoMigrationNeeded(file);
    match cmd
    case DoLogin(session, answers, now) => LoginFollows(file, session, answers, now);
    case DoRefresh(_, _) =>
    case DoUse(query) =>
      UsedExists(file, query);
      UseFollows(file, UseQuery(file, query));
    case DoUsePicked(pick) =>
      UsedPickExists(file, pick);
      UseFollows(file, UsePicked(file, pick));
    case DoSwitch(_, _) =>
    case DoLogout(userEmail) => KeepMembers(NotEmail(userEmail), file.sessions);
    case DoLogoutAll =>
    case DoConsoleLogin(session, _, _) => UpsertMembers(SessionNameOf, file.sessions, session);
    case DoConsolePick(_) =>
    case DoBootstrap(session) => UpsertMembers(SessionNameOf, file.sessions, session);
    case DoRekey => RekeyFollows(file);
  }

  lemma StepGood(file: Config, cmd: Command)
    requires Good(file) && CommandOK(cmd)
    ensures Good(Step(file, cmd))
  {
    StepSound(file, cmd);
    StepFollows(file, cmd);
    forall s | s in Step(file, cmd).sessions
      ensures !NamesForeign(s)
    {
      if o :| o in file.sessions && o.name == s.name && o.lastContext == s.lastContext {
        assert !NamesForeign(o);
      } else {
        OwnPrefixIsNotForeign(s);
      }
    }
  }

  /** Over every sequence of commands, starting from a fresh install or any good config. */
  lemma {:induction false} RunGood(file: Config, cmds: seq<Command>)
    requires Good(file) && forall cmd | cmd in cmds :: CommandOK(cmd)
    ensures Good(Run(file, cmds))
  {
    if cmds == [] {
    } else {
      var front := cmds[..|cmds| - 1];
      assert forall cmd | cmd in front :: cmd in cmds;
      RunGood(file, front);
      StepGood(Run(file, front), cmds[|cmds| - 1]);
    }
  }

  // ---- Consequences ----

  /** A last context that resolves, now or ever, names its own session's context, unless it is written like a foreign one. */
  lemma ResolvesToOwn(cfg: Config, s: Session)
    requires WellFormed(cfg) && !NamesForeign(s)
    ensures var c := ContextByName(cfg, s.lastContext); c.Some? ==> c.value in cfg.contexts && c.value.session == s.name
  {
    var c := ContextByName(cfg, s.lastContext);
    if c.Some? {
      assert c.value in cfg.contexts && ContextNameOf(c.value) == s.lastContext;
      NamesForeignIff(s);
    }
  }

  /** A last context that still resolves is one of its own session's contexts. */
  lemma LastContextIsOwn(cfg: Config, s: Session)
    requires Good(cfg) && s in cfg.sessions
    ensures var c := ContextByName(cfg, s.lastContext); c.Some? ==> c.value in cfg.contexts && c.value.session == s.name
  {
    ResolvesToOwn(cfg, s);
  }

  lemma SessionFound(cfg: Config, s: Session)
    requires SessionsSound(cfg.sessions) && s in cfg.sessions
    ensures SessionByName(cfg, s.name) == Some(s)
  {
  }

  lemma TargetIsOffered(cfg: Config, email: Option<string>, pick: Option<nat>)
    requires Sound(cfg) && SwitchTarget(cfg, email, pick).Some?
    ensures var target := SwitchTarget(cfg, email, pick).value;
            && target in cfg.sessions
            && (email.Some? ==> target.userEmail == email.value)
  {
    var offered := if email.Some? then Keep(HasEmail(email.value), cfg.sessions) else cfg.sessions;
    var chosen := if |offered| == 1 then offered[0] else offered[pick.value];
    assert chosen in offered;
    if email.Some? {
      KeepMember(HasEmail(email.value), cfg.sessions, chosen);
    }
    SessionFound(cfg, chosen);
  }

  lemma SwitchedIsActive(cfg: Config, session: Session)
    requires Good(cfg) && session in cfg.sessions
    ensures ActiveSessionEntry(SwitchTo(cfg, session)) == Some(session)
  {
    SessionFound(cfg, session);
    if session.lastContext != "" {
      LastContextIsOwn(cfg, session);
    }
  }

  /** After `auth switch` to a session, that session is the active one. */
  lemma SwitchActivates(file: Config, email: Option<string>, pick: Option<nat>)
    requires Good(file)
    requires SwitchTarget(file, email, pick).Some?
    ensures ActiveSessionEntry(Switch(file, email, pick)) == SwitchTarget(file, email, pick)
    ensures email.Some? ==> SwitchTarget(file, email, pick).value.userEmail == email.value
  {
    NoMigrationNeeded(file);
    TargetIsOffered(file, email, pick);
    SwitchedIsActive(file, SwitchTarget(file, email, pick).value);
  }

  lemma ContextFound(cfg: Config, c: DiscoveredContext)
    requires WellFormed(cfg) && c in cfg.contexts
    ensures ContextByName(cfg, c.name) == Some(c)
  {
    var i :| 0 <= i < |cfg.contexts| && cfg.contexts[i] == c;
    forall j | 0 <= j < i
      ensures ContextNameOf(cfg.contexts[j]) != c.name
    {
      assert ContextNameOf(cfg.contexts[j]) != ContextNameOf(cfg.contexts[i]);
    }
    FirstIndexUnique(ContextNameOf, cfg.contexts, c.name, i);
  }

  lemma SessionNamed(cfg: Config, name: string)
    requires SessionsSound(cfg.sessions) && HasSession(cfg.sessions, name)
    ensures SessionByName(cfg, name).Some? && SessionByName(cfg, name).value.name == name
  {
    var s :| s in cfg.sessions && s.name == name;
    SessionFound(cfg, s);
  }

  /** After `ctx use`, the context is current and its session is the active one, which will come back to it. */
  lemma UseActivates(cfg: Config, c: DiscoveredContext)
    requires Sound(cfg) && c in cfg.contexts
    ensures var after := UseContext(cfg, c);
            && CurrentContextEntry(after) == Some(c)
            && after.activeSession == c.session
            && ActiveSessionEntry(after).Some?
            && ActiveSessionEntry(after).value.name == c.session
            && ActiveSessionEntry(after).value.lastContext == c.name
  {
    var after := UseContext(cfg, c);
    OwnNamePrefixed(c);
    QualifiedHasSlash(c);
    var i :| 0 <= i < |cfg.contexts| && cfg.contexts[i] == c;
    forall j | 0 <= j < i
      ensures ContextNameOf(cfg.contexts[j]) != c.name
    {
      assert ContextNameOf(cfg.contexts[j]) != ContextNameOf(cfg.contexts[i]);
    }
    FirstIndexUnique(ContextNameOf, cfg.contexts, c.name, i);
    var f := FirstIndex(SessionNameOf, cfg.sessions, c.session);
    var s :| s in cfg.sessions && s.name == c.session;
    SessionFound(cfg, s);
    FirstIndexUnique(SessionNameOf, after.sessions, c.session, f);
  }

  lemma UsedContextIsActive(file: Config, query: string)
    requires Sound(file)
    requires file.contexts != [] && ResolveInSession(file, query, ActiveName(file)).Some?
    ensures CurrentContextEntry(UseQuery(file, query)) == ResolveInSession(file, query, ActiveName(file))
    ensures ActiveName(UseQuery(file, query)) == ResolveInSession(file, query, ActiveName(file)).value.session
  {
    NoMigrationNeeded(file);
    ResolvedIsOwned(file, query, ActiveName(file));
    UseActivates(file, ResolveInSession(file, query, ActiveName(file)).value);
  }

  /** The console's switcher reaches the same context and session, though it leaves the session marked active and its last context alone. */
  lemma ConsolePickActivates(file: Config, pick: nat)
    requires Sound(file) && pick < |Keep(ContextWithin(ActiveName(file)), file.contexts)|
    ensures var c := Keep(ContextWithin(ActiveName(file)), file.contexts)[pick];
            CurrentContextEntry(ConsolePick(file, pick)) == Some(c) && ActiveName(ConsolePick(file, pick)) == c.session
  {
    var c := Keep(ContextWithin(ActiveName(file)), file.contexts)[pick];
    NoMigrationNeeded(file);
    KeepMember(ContextWithin(ActiveName(file)), file.contexts, c);
    ContextFound(file, c);
    QualifiedHasSlash(c);
    SessionNamed(file, c.session);
  }

  lemma PickedName(cs: seq<DiscoveredContext>, pick: Option<nat>, i: nat)
    requires i < |cs| && (|cs| == 1 || pick == Some(i))
    ensures Picked(ContextNames(cs), pick) == Some(cs[i].name)
  {
  }

  lemma PickedContext(file: Config, pick: Option<nat>, i: nat)
    requires Sound(file) && i < |Keep(OwnedBy(ActiveName(file)), file.contexts)|
    requires |Keep(OwnedBy(ActiveName(file)), file.contexts)| == 1 || pick == Some(i)
    ensures var c := Keep(OwnedBy(ActiveName(file)), file.contexts)[i];
            c in file.contexts && UsePicked(file, pick) == UseContext(file, c)
  {
    var own := Keep(OwnedBy(ActiveName(file)), file.contexts);
    NoMigrationNeeded(file);
    PickedName(own, pick, i);
    assert own[i] in own;
    KeepMember(OwnedBy(ActiveName(file)), file.contexts, own[i]);
    ContextFound(file, own[i]);
    assert file.contexts != [];
  }

  /** The context picked, or the only one there is to pick, is the one used; without a pick nothing happens. */
  lemma PickedIsUsed(file: Config, pick: Option<nat>, i: nat)
    requires Sound(file) && i < |Keep(OwnedBy(ActiveName(file)), file.contexts)|
    requires |Keep(OwnedBy(ActiveName(file)), file.contexts)| == 1 || pick == Some(i)
    ensures var c := Keep(OwnedBy(ActiveName(file)), file.contexts)[i];
            CurrentContextEntry(UsePicked(file, pick)) == Some(c) && ActiveName(UsePicked(file, pick)) == c.session
  {
    PickedContext(file, pick, i);
    UseActivates(file, Keep(OwnedBy(ActiveName(file)), file.contexts)[i]);
  }

  /** Switching offers the sessions of the e-mail address given, or all of them, as they are stored. */
  lemma OfferedSessions(cfg: Config, email: Option<string>)
    ensures forall s :: s in Offered(cfg, email) <==> s in cfg.sessions && (email.Some? ==> s.userEmail == email.value)
    ensures email.None? ==> Offered(cfg, email) == cfg.sessions
  {
    if email.Some? {
      KeepMembers(HasEmail(email.value), cfg.sessions);
    }
  }

  lemma PickedSession(cfg: Config, email: Option<string>, pick: Option<nat>, i: nat)
    requires Sound(cfg) && i < |Offered(cfg, email)| && (|Offered(cfg, email)| == 1 || pick == Some(i))
    ensures SwitchTarget(cfg, email, pick) == Some(Offered(cfg, email)[i])
    ensures email.Some? ==> Offered(cfg, email)[i].userEmail == email.value
  {
    var s := Offered(cfg, email)[i];
    assert s in Offered(cfg, email);
    if email.Some? {
      KeepMember(HasEmail(email.value), cfg.sessions, s);
    }
    SessionFound(cfg, s);
    assert Picked(SessionNames(Offered(cfg, email)), pick) == Some(s.name);
  }

  lemma ExistsByName(cfg: Config, name: string)
    requires WellFormed(cfg)
    ensures name != "" && ContextByName(cfg, name).Some? <==> exists c :: c in cfg.contexts && c.name == name
  {
    if c :| c in cfg.contexts && c.name == name {
      ContextFound(cfg, c);
      QualifiedHasSlash(c);
    }
    var r := ContextByName(cfg, name);
    assert r.Some? ==> r.value in cfg.contexts && ContextNameOf(r.value) == name;
  }

  /** `auth switch` goes to the session picked among those offered, and back to what that session last used, if there still is such a context. */
  lemma SwitchRestores(file: Config, email: Option<string>, pick: Option<nat>, i: nat)
    requires Sound(file) && i < |Offered(file, email)| && (|Offered(file, email)| == 1 || pick == Some(i))
    ensures var s := Offered(file, email)[i];
            && (email.Some? ==> s.userEmail == email.value)
            && Switch(file, email, pick) == file.(
                 activeSession := s.name,
                 currentContext := if exists c :: c in file.contexts && c.name == s.lastContext then s.lastContext else "")
  {
    NoMigrationNeeded(file);
    PickedSession(file, email, pick, i);
    ExistsByName(file, Offered(file, email)[i].lastContext);
  }

  // ---- Isolation over whole runs ----

  /** The command logs session t in or out, or refreshes it. */
  ghost predicate Touches(cfg: Config, cmd: Command, t: string) {
    match cmd
    case DoLogin(session, _, _) => session.name == t
    case DoRefresh(_, _) => ActiveName(cfg) == t
    case DoLogout(userEmail) => t in EmailNames(cfg.sessions, userEmail)
    case DoLogoutAll => true
    case DoConsoleLogin(session, _, _) => session.name == t
    case _ => false
  }

  lemma ResolutionFollowsView(cfg: Config, after: Config, t: string, query: string)
    requires Keep(ContextWithin(t), after.contexts) == Keep(ContextWithin(t), cfg.contexts)
    requires after.organizations == cfg.organizations && after.projects == cfg.projects
    ensures ResolveInSession(after, query, t) == ResolveInSession(cfg, query, t)
  {
  }

  lemma CachedOrBare(cfg: Config, t: string)
    requires Sound(cfg)
    ensures CacheReferenced(cfg, t) || forall c | c in cfg.contexts :: c.session != t
  {
  }

  lemma RefreshedLoginIsolates(file: Config, session: Session, found: Option<Found>, now: int, t: string, query: string)
    requires Sound(file) && session.name != "" && SlashFree(session.name) && FoundOK(found) && t != "" && t != session.name
    ensures ResolveInSession(RefreshedLogin(file, session, found, now), query, t) == ResolveInSession(file, query, t)
  {
    var cfg := LoggedIn(file, session);
    NoMigrationNeeded(file);
    LoggedInSound(file, session);
    ResolutionFollowsView(file, cfg, t, query);
    if found.Some? {
      SoundOthersQualified(cfg, session.name);
      CachedOrBare(cfg, t);
      RefreshKeepsOtherResolution(cfg, session.name, found.value.orgs, found.value.projects, now, t, query);
    }
  }

  lemma LoginIsolates(file: Config, session: Session, a: LoginAnswers, now: int, t: string, query: string)
    requires Sound(file) && CommandOK(DoLogin(session, a, now)) && t != "" && t != session.name
    ensures ResolveInSession(Login(file, session, a, now), query, t) == ResolveInSession(file, query, t)
  {
    var end := LoginEnds(file, session, a, now);
    LoginShape(file, session, a, now);
    RefreshedLoginIsolates(file, session, a.found, now, t, query);
    if end.WithContext? {
      ResolutionFollowsView(end.cfg, Selected(end.cfg, session.name, end.name), t, query);
    }
  }

  lemma RefreshActiveIsolates(file: Config, found: Option<Found>, now: int, t: string, query: string)
    requires Sound(file) && t != "" && ActiveName(file) != t
    ensures ResolveInSession(RefreshActive(file, found, now), query, t) == ResolveInSession(file, query, t)
  {
    NoMigrationNeeded(file);
    ActiveExists(file);
    if found.Some? && ActiveSessionEntry(file).Some? {
      SoundOthersQualified(file, ActiveName(file));
      CachedOrBare(file, t);
      RefreshKeepsOtherResolution(file, ActiveName(file), found.value.orgs, found.value.projects, now, t, query);
    }
  }

  predicate SameView(cfg: Config, after: Config) {
    after.contexts == cfg.contexts && after.organizations == cfg.organizations && after.projects == cfg.projects
  }

  lemma SameViewResolves(cfg: Config, after: Config, t: string, query: string)
    requires SameView(cfg, after)
    ensures ResolveInSession(after, query, t) == ResolveInSession(cfg, query, t)
  {
    ResolutionFollowsView(cfg, after, t, query);
  }

  lemma UseQueryIsolates(file: Config, word: string, t: string, query: string)
    requires Sound(file)
    ensures ResolveInSession(UseQuery(file, word), query, t) == ResolveInSession(file, query, t)
  {
    NoMigrationNeeded(file);
    SameViewResolves(file, UseQuery(file, word), t, query);
  }

  lemma UsePickedIsolates(file: Config, pick: Option<nat>, t: string, query: string)
    requires Sound(file)
    ensures ResolveInSession(UsePicked(file, pick), query, t) == ResolveInSession(file, query, t)
  {
    NoMigrationNeeded(file);
    SameViewResolves(file, UsePicked(file, pick), t, query);
  }

  lemma SwitchIsolates(file: Config, email: Option<string>, pick: Option<nat>, t: string, query: string)
    requires Sound(file)
    ensures ResolveInSession(Switch(file, email, pick), query, t) == ResolveInSession(file, query, t)
  {
    NoMigrationNeeded(file);
    SameViewResolves(file, Switch(file, email, pick), t, query);
  }

  lemma ConsolePickIsolates(file: Config, pick: nat, t: string, query: string)
    requires Sound(file)
    ensures ResolveInSession(ConsolePick(file, pick), query, t) == ResolveInSession(file, query, t)
  {
    NoMigrationNeeded(file);
    SameViewResolves(file, ConsolePick(file, pick), t, query);
  }

  lemma BootstrapIsolates(file: Config, session: Session, t: string, query: string)
    requires Sound(file)
    ensures ResolveInSession(Bootstrap(file, session), query, t) == ResolveInSession(file, query, t)
  {
    NoMigrationNeeded(file);
    SameViewResolves(file, Bootstrap(file, session), t, query);
  }

  lemma RekeyIsolates(file: Config, t: string, query: string)
    requires Sound(file)
    ensures ResolveInSession(Rekey(file), query, t) == ResolveInSession(file, query, t)
  {
    NoMigrationNeeded(file);
    SameViewResolves(file, Rekey(file), t, query);
  }

  lemma LogoutIsolates(file: Config, email: string, t: string, query: string)
    requires Sound(file) && t != "" && t !in EmailNames(file.sessions, email)
    ensures ResolveInSession(LogoutByEmail(file, email), query, t) == ResolveInSession(file, query, t)
  {
    NoMigrationNeeded(file);
    LogoutSound(file, email);
    ResolutionFollowsView(file, WithoutEmail(file, email), t, query);
  }

  lemma StepIsolates(file: Config, cmd: Command, t: string, query: string)
    requires Sound(file) && CommandOK(cmd) && t != "" && !Touches(file, cmd, t)
    ensures ResolveInSession(Step(file, cmd), query, t) == ResolveInSession(file, query, t)
  {
    match cmd
    case DoLogin(session, answers, now) => LoginIsolates(file, session, answers, now, t, query);
    case DoRefresh(found, now) => RefreshActiveIsolates(file, found, now, t, query);
    case DoUse(word) => UseQueryIsolates(file, word, t, query);
    case DoUsePicked(pick) => UsePickedIsolates(file, pick, t, query);
    case DoSwitch(email, pick) => SwitchIsolates(file, email, pick, t, query);
    case DoLogout(userEmail) => LogoutIsolates(file, userEmail, t, query);
    case DoLogoutAll =>
    case DoConsoleLogin(session, found, now) => RefreshedLoginIsolates(file, session, found, now, t, query);
    case DoConsolePick(position) => ConsolePickIsolates(file, position, t, query);
    case DoBootstrap(session) => BootstrapIsolates(file, session, t, query);
    case DoRekey => RekeyIsolates(file, t, query);
  }

  /** As long as no command of a run logs t in or out or refreshes it, every query means in t what it meant at the start. */
  lemma {:induction false} RunIsolates(file: Config, cmds: seq<Command>, t: string, query: string)
    requires Sound(file) && t != ""
    requires forall cmd | cmd in cmds :: CommandOK(cmd)
    requires forall i | 0 <= i < |cmds| :: !Touches(Run(file, cmds[..i]), cmds[i], t)
    ensures ResolveInSession(Run(file, cmds), query, t) == ResolveInSession(file, query, t)
  {
    if cmds == [] {
    } else {
      var front := cmds[..|cmds| - 1];
      assert forall cmd | cmd in front :: cmd in cmds;
      forall i | 0 <= i < |front|
        ensures !Touches(Run(file, front[..i]), front[i], t)
      {
        assert front[..i] == cmds[..i];
      }
      RunIsolates(file, front, t, query);
      RunSound(file, front);
      StepIsolates(Run(file, front), cmds[|cmds| - 1], t, query);
    }
  }

  /** After any run, what `ctx` prints for a context leads back to it, unless its organization is named like its session. */
  lemma {:induction false} RunRoundTrips(file: Config, cmds: seq<Command>, c: DiscoveredContext)
    requires Sound(file) && forall cmd | cmd in cmds :: CommandOK(cmd)
    requires c in Run(file, cmds).contexts
    ensures ResolveInSession(Run(file, cmds), c.name, c.session) == Some(c)
    ensures c.organizationID != c.session ==> ResolveInSession(Run(file, cmds), c.Ref(), c.session) == Some(c)
  {
    RunSound(file, cmds);
    NameResolves(Run(file, cmds), c);
    if c.organizationID != c.session {
      RefRoundTrips(Run(file, cmds), c);
    }
  }

  // ---- When last contexts stay their own session's ----

  ghost predicate LastContextsOwn(cfg: Config) {
    forall s | s in cfg.sessions ::
      var c := ContextByName(cfg, s.lastContext); c.Some? ==> c.value.session == s.name
  }

  /** The name of a discovered context resolves, to the refreshed session. */
  lemma FreshNameResolves(cfg: Config, s: string, found: Found, now: int, f: DiscoveredContext)
    requires f in FreshContexts(s, found.orgs, found.projects)
    ensures var c := ContextByName(Refresh(cfg, s, found.orgs, found.projects, now), f.name); c.Some? && c.value.session == s
  {
    var discovered := FreshContexts(s, found.orgs, found.projects);
    UpsertAllSettles(ContextNameOf, Keep(NotOwnedBy(s), cfg.contexts), discovered);
    FreshShape(s, found.orgs, found.projects);
    assert ContextNameOf(f) == f.name;
  }

  /** Any other name resolves to what it resolved to, or to a context of the refreshed session that has gone. */
  lemma OtherNameResolves(cfg: Config, s: string, found: Found, now: int, name: string)
    requires WellFormed(cfg) && s != "" && SlashFree(s)
    requires forall f | f in FreshContexts(s, found.orgs, found.projects) :: f.name != name
    ensures var c := ContextByName(Refresh(cfg, s, found.orgs, found.projects, now), name);
            c.Some? ==> ContextByName(cfg, name) == c
  {
    var after := Refresh(cfg, s, found.orgs, found.projects, now);
    var c := ContextByName(after, name);
    if c.Some? {
      assert c.value in after.contexts && ContextNameOf(c.value) == name;
      SoundOthersQualified(cfg, s);
      RefreshedContexts(cfg, s, found.orgs, found.projects, now);
      ContextFound(cfg, c.value);
    }
  }

  /** A refresh keeps last contexts that resolve their own session's exactly when it discovers none that another session remembers. */
  lemma RefreshKeepsLastContextsIff(cfg: Config, s: string, found: Found, now: int)
    requires WellFormed(cfg) && LastContextsOwn(cfg)
    requires s != "" && SlashFree(s) && FoundOK(Some(found))
    ensures LastContextsOwn(Refresh(cfg, s, found.orgs, found.projects, now)) <==>
              forall t, f | t in cfg.sessions && t.name != s && f in FreshContexts(s, found.orgs, found.projects) :: f.name != t.lastContext
  {
    var after, discovered := Refresh(cfg, s, found.orgs, found.projects, now), FreshContexts(s, found.orgs, found.projects);
    if t, f :| t in cfg.sessions && t.name != s && f in discovered && f.name == t.lastContext {
      FreshNameResolves(cfg, s, found, now, f);
      assert t in after.sessions;
    } else {
      forall t | t in after.sessions
        ensures var c := ContextByName(after, t.lastContext); c.Some? ==> c.value.session == t.name
      {
        if f :| f in discovered && f.name == t.lastContext {
          FreshNameResolves(cfg, s, found, now, f);
        } else {
          OtherNameResolves(cfg, s, found, now, t.lastContext);
        }
      }
    }
  }

  lemma DiscoveredFresh(s: string, found: Found, f: DiscoveredContext)
    requires (exists o :: o in found.orgs && f == OrgContext(s, o)) || (exists p :: p in found.projects && f == ProjectContext(s, p))
    ensures f in FreshContexts(s, found.orgs, found.projects)
  {
    var discovered := FreshContexts(s, found.orgs, found.projects);
    if o :| o in found.orgs && f == OrgContext(s, o) {
      var i :| 0 <= i < |found.orgs| && found.orgs[i] == o;
      assert discovered[i] == f;
    } else {
      var p :| p in found.projects && f == ProjectContext(s, p);
      var i :| 0 <= i < |found.projects| && found.projects[i] == p;
      assert discovered[|found.orgs| + i] == f;
    }
  }

  /** With something of its own to offer and onboarding left for later, nothing is selected. */
  lemma OfferPostponed(cfg: Config, sessionName: string, a: LoginAnswers, name: string)
    requires WellFormed(cfg) && ContextByName(cfg, name).Some? && ContextByName(cfg, name).value.session == sessionName
    requires a.pick == Some(0) && a.onboarding == Incomplete
    ensures OfferContexts(cfg, sessionName, true, a) == WithoutContext(cfg)
  {
    var own := Keep(OwnedBy(sessionName), cfg.contexts);
    KeepMember(OwnedBy(sessionName), cfg.contexts, ContextByName(cfg, name).value);
    assert own != [] && own[0] in own;
    PickedName(own, a.pick, 0);
    KeepMember(OwnedBy(sessionName), cfg.contexts, own[0]);
    ContextFound(cfg, own[0]);
  }

  /** A login that discovers something and leaves onboarding for later saves the refreshed config. */
  lemma LoginSaves(file: Config, session: Session, a: LoginAnswers, f: DiscoveredContext)
    requires Sound(file) && CommandOK(DoLogin(session, a, 0))
    requires a.tokenSource && a.found.Some? && a.found.value.orgs != [] && a.pick == Some(0) && a.onboarding == Incomplete
    requires f in FreshContexts(session.name, a.found.value.orgs, a.found.value.projects)
    ensures Login(file, session, a, 0) == Refresh(LoggedIn(file, session), session.name, a.found.value.orgs, a.found.value.projects, 0)
  {
    var cfg := LoggedIn(file, session);
    LoggedInSound(file, session);
    RefreshWellFormed(cfg, session.name, a.found.value, 0);
    FreshNameResolves(cfg, session.name, a.found.value, 0, f);
    OfferPostponed(Refresh(cfg, session.name, a.found.value.orgs, a.found.value.projects, 0), session.name, a, f.name);
  }

  /** What would have to be discovered for a foreign last context to resolve. */
  lemma ForeignDiscovery(t: Session) returns (s: string, found: Found, f: DiscoveredContext)
    requires NamesForeign(t)
    ensures s != "" && SlashFree(s) && s != t.name && FoundOK(Some(found)) && found.orgs != []
    ensures f in FreshContexts(s, found.orgs, found.projects) && f.name == t.lastContext
  {
    var cut := Cut(t.lastContext, '/');
    var ref := Cut(cut.after, '/');
    s := cut.before;
    found := Found([DiscoveredOrg(ref.before, "")], if ref.found then [DiscoveredProject(ref.after, "", ref.before)] else []);
    f := if ref.found then ProjectContext(s, found.projects[0]) else OrgContext(s, found.orgs[0]);
    DiscoveredFresh(s, found, f);
  }

  lemma {:induction false} RunOne(cfg: Config, cmd: Command)
    ensures Run(cfg, [cmd]) == Step(cfg, cmd)
  {
    assert [cmd][..0] == [];
  }

  /** One login to the session it names makes a foreign last context resolve there. */
  lemma ForeignComesToResolve(cfg: Config, t: Session) returns (cmds: seq<Command>)
    requires Sound(cfg) && t in cfg.sessions && NamesForeign(t)
    ensures (forall cmd | cmd in cmds :: CommandOK(cmd)) && t in Run(cfg, cmds).sessions
    ensures var c := ContextByName(Run(cfg, cmds), t.lastContext); c.Some? && c.value.session != t.name
  {
    var s, found, f := ForeignDiscovery(t);
    var session := Session(s, "", "", "", Endpoint("", "", "", false, ""), "");
    var answers := LoginAnswers(true, Some(found), false, Some(0), Incomplete);
    cmds := [DoLogin(session, answers, 0)];
    NoMigrationNeeded(cfg);
    UpsertMembers(SessionNameOf, cfg.sessions, session);
    assert SessionNameOf(t) != SessionNameOf(session);
    FreshNameResolves(LoggedIn(cfg, session), s, found, 0, f);
    LoginSaves(cfg, session, answers, f);
    RunOne(cfg, cmds[0]);
  }

  lemma {:induction false} RunLastContextsOwn(cfg: Config, cmds: seq<Command>)
    requires Good(cfg) && forall cmd | cmd in cmds :: CommandOK(cmd)
    ensures LastContextsOwn(Run(cfg, cmds))
  {
    RunGood(cfg, cmds);
    forall s | s in Run(cfg, cmds).sessions
      ensures var c := ContextByName(Run(cfg, cmds), s.lastContext); c.Some? ==> c.value.session == s.name
    {
      LastContextIsOwn(Run(cfg, cmds), s);
    }
  }

  /**
    Which dangling last contexts stay harmless whatever is logged into, refreshed, used or
    switched to afterwards: all but those written like the name of another session's context.
   */
  lemma {:induction false} RunKeepsLastContextsIff(cfg: Config)
    requires Sound(cfg)
    ensures (forall cmds: seq<Command> | (forall cmd | cmd in cmds :: CommandOK(cmd)) :: LastContextsOwn(Run(cfg, cmds))) <==> Good(cfg)
  {
    if Good(cfg) {
      forall cmds: seq<Command> | forall cmd | cmd in cmds :: CommandOK(cmd)
        ensures LastContextsOwn(Run(cfg, cmds))
      {
        RunLastContextsOwn(cfg, cmds);
      }
    } else {
      var t :| t in cfg.sessions && NamesForeign(t);
      var cmds := ForeignComesToResolve(cfg, t);
      assert !LastContextsOwn(Run(cfg, cmds));
    }
  }

  /** As long as session t keeps what it remembers now, that resolves, if at all, to its own context. */
  ghost predicate StaysOwn(cfg: Config, t: Session, cmds: seq<Command>) {
    var c := ContextByName(Run(cfg, cmds), t.lastContext);
    t in Run(cfg, cmds).sessions && c.Some? ==> c.value.session == t.name
  }

  /** The same for one session. */
  lemma LastContextStaysOwnIff(cfg: Config, t: Session)
    requires Sound(cfg) && t in cfg.sessions
    ensures (forall cmds: seq<Command> | (forall cmd | cmd in cmds :: CommandOK(cmd)) :: StaysOwn(cfg, t, cmds)) <==> !NamesForeign(t)
  {
    if NamesForeign(t) {
      var cmds := ForeignComesToResolve(cfg, t);
      assert !StaysOwn(cfg, t, cmds);
    } else {
      forall cmds: seq<Command> | forall cmd | cmd in cmds :: CommandOK(cmd)
        ensures StaysOwn(cfg, t, cmds)
      {
        RunSound(cfg, cmds);
        ResolvesToOwn(Run(cfg, cmds), t);
      }
    }
  }

  lemma DanglingConfig() returns (cfg: Config)
    ensures DistinctKeys(SessionNameOf, cfg.sessions) && WellFormed(cfg) && LastContextsOwn(cfg) && ActiveName(cfg) == "s"
    ensures exists t :: t in cfg.sessions && t.name == "t" && t.lastContext == "s/x"
  {
    var none := Endpoint("", "", "", false, "");
    var s, t := Session("s", "", "", "", none, ""), Session("t", "", "", "", none, "s/x");
    cfg := EMPTY_CONFIG.(sessions := [s, t], activeSession := "s");
    assert s.name[0] != t.name[0];
    FirstIndexUnique(SessionNameOf, cfg.sessions, "s", 0);
    assert t in cfg.sessions;
  }

  /** A refresh that makes a dangling last context resolve to another session. */
  lemma DanglingLastContextExample() returns (cfg: Config, found: Found)
    ensures DistinctKeys(SessionNameOf, cfg.sessions) && WellFormed(cfg) && LastContextsOwn(cfg)
    ensures ActiveName(cfg) == "s" && FoundOK(Some(found))
    ensures !LastContextsOwn(Refresh(cfg, "s", found.orgs, found.projects, 0))
  {
    cfg := DanglingConfig();
    found := Found([DiscoveredOrg("x", "X")], []);
    var f := OrgContext("s", found.orgs[0]);
    DiscoveredFresh("s", found, f);
    assert f.name == "s/x";
    RefreshKeepsLastContextsIff(cfg, "s", found, 0);
  }

  // ---- Which session a login leaves active ----

  lemma KeptContextFound(file: Config, session: Session, found: Option<Found>, now: int, c: DiscoveredContext)
    requires Sound(file) && session.name != "" && SlashFree(session.name) && FoundOK(found)
    requires c.session != session.name
    ensures c in RefreshedLogin(file, session, found, now).contexts <==> c in file.contexts
  {
    var cfg := LoggedIn(file, session);
    NoMigrationNeeded(file);
    if found.Some? {
      SoundOthersQualified(cfg, session.name);
      RefreshedContexts(cfg, session.name, found.value.orgs, found.value.projects, now);
      KeepMember(NotOwnedBy(session.name), cfg.contexts, c);
      KeepMember(NotOwnedBy(session.name), Refresh(cfg, session.name, found.value.orgs, found.value.projects, now).contexts, c);
    }
  }

  /** The current context is one of another session's. */
  ghost predicate CurrentElsewhere(cfg: Config, sessionName: string) {
    CurrentContextEntry(cfg).Some? && CurrentContextEntry(cfg).value.session != sessionName
  }

  /** With the session stored and marked active, it is the active one unless the current context is another's. */
  lemma MarkedActiveIff(cfg: Config, sessionName: string)
    requires Sound(cfg) && cfg.activeSession == sessionName && HasSession(cfg.sessions, sessionName)
    ensures ActiveName(cfg) == sessionName <==> !CurrentElsewhere(cfg, sessionName)
  {
    SessionNamed(cfg, sessionName);
    var c := CurrentContextEntry(cfg);
    if c.Some? {
      assert c.value in cfg.contexts;
      SessionNamed(cfg, c.value.session);
    }
  }

  /** The current context stays another session's, or not, as long as the contexts of other sessions stay. */
  lemma CurrentElsewhereFollows(cfg: Config, after: Config, sessionName: string)
    requires WellFormed(cfg) && WellFormed(after) && after.currentContext == cfg.currentContext
    requires forall c | c in cfg.contexts && c.session != sessionName :: c in after.contexts
    requires CurrentElsewhere(cfg, sessionName)
    ensures CurrentElsewhere(after, sessionName)
  {
    var c := CurrentContextEntry(cfg).value;
    assert c in cfg.contexts && ContextNameOf(c) == cfg.currentContext;
    ContextFound(after, c);
  }

  lemma LoginKeepsCurrentElsewhere(file: Config, session: Session, found: Option<Found>, now: int)
    requires Sound(file) && session.name != "" && SlashFree(session.name) && FoundOK(found)
    ensures CurrentElsewhere(RefreshedLogin(file, session, found, now), session.name) <==> CurrentElsewhere(file, session.name)
  {
    var after := RefreshedLogin(file, session, found, now);
    NoMigrationNeeded(file);
    RefreshedLoginSound(file, session, found, now);
    forall c: DiscoveredContext | c.session != session.name
      ensures c in after.contexts <==> c in file.contexts
    {
      KeptContextFound(file, session, found, now, c);
    }
    if CurrentElsewhere(file, session.name) {
      CurrentElsewhereFollows(file, after, session.name);
    }
    if CurrentElsewhere(after, session.name) {
      CurrentElsewhereFollows(after, file, session.name);
    }
  }

  lemma SelectedActive(cfg: Config, sessionName: string, c: DiscoveredContext)
    requires Sound(cfg) && c in cfg.contexts && c.session == sessionName
    ensures ActiveName(Selected(cfg, sessionName, c.name)) == sessionName
  {
    var after := Selected(cfg, sessionName, c.name);
    ContextFound(cfg, c);
    QualifiedHasSlash(c);
    WithLastContextSound(cfg.sessions, sessionName, c.name);
    SessionNamed(after, sessionName);
  }

  /** What it takes for a login to select a context: organizations found, one of its own contexts picked, onboarding complete. */
  predicate Selects(file: Config, session: Session, a: LoginAnswers, now: int) {
    && a.tokenSource && a.found.Some? && a.found.value.orgs != []
    && Picked(ContextNames(Keep(OwnedBy(session.name), RefreshedLogin(file, session, a.found, now).contexts)), a.pick).Some?
    && a.onboarding == Complete
  }

  /** Only a context that exists can be picked, so onboarding is always looked at. */
  lemma OfferSelectsIff(cfg: Config, sessionName: string, someOrgs: bool, a: LoginAnswers)
    requires WellFormed(cfg)
    ensures OfferContexts(cfg, sessionName, someOrgs, a).WithContext? <==>
              someOrgs && Picked(ContextNames(Keep(OwnedBy(sessionName), cfg.contexts)), a.pick).Some? && a.onboarding == Complete
  {
    if Picked(ContextNames(Keep(OwnedBy(sessionName), cfg.contexts)), a.pick).Some? {
      var c := PickedIsOffered(cfg.contexts, sessionName, a.pick);
      ContextFound(cfg, c);
    }
  }

  lemma LoginSelectsIff(file: Config, session: Session, a: LoginAnswers, now: int)
    requires Sound(file) && CommandOK(DoLogin(session, a, now))
    ensures LoginEnds(file, session, a, now).WithContext? <==> Selects(file, session, a, now)
  {
    if a.found.Some? {
      RefreshedLoginSound(file, session, a.found, now);
      OfferSelectsIff(RefreshedLogin(file, session, a.found, now), session.name, a.found.value.orgs != [], a);
    }
  }

  /**
    A login that succeeds makes its session the active one exactly when it selects a
    context, or the old current context is no other session's. Otherwise that session
    stays active.
   */
  lemma LoginActivatesIff(file: Config, session: Session, a: LoginAnswers, now: int)
    requires Sound(file) && CommandOK(DoLogin(session, a, now)) && !LoginEnds(file, session, a, now).Aborted?
    ensures ActiveName(Login(file, session, a, now)) == session.name
       <==> Selects(file, session, a, now) || !CurrentElsewhere(file, session.name)
  {
    var end := LoginEnds(file, session, a, now);
    LoginSelectsIff(file, session, a, now);
    LoginShape(file, session, a, now);
    LoggedInSound(file, session);
    RefreshedLoginSound(file, session, a.found, now);
    if end.WithContext? {
      var c := PickedIsOffered(end.cfg.contexts, session.name, a.pick);
      SelectedActive(end.cfg, session.name, c);
    } else {
      LoginKeepsCurrentElsewhere(file, session, a.found, now);
      MarkedActiveIff(end.cfg, session.name);
    }
  }

  lemma OtherActiveConfig() returns (file: Config)
    ensures Sound(file) && CurrentElsewhere(file, "s") && ActiveName(file) == "t"
  {
    var t := Session("t", "", "", "", Endpoint("", "", "", false, ""), "");
    var c := DiscoveredContext("t/x", "t", "x", "", "");
    file := EMPTY_CONFIG.(sessions := [t], contexts := [c], currentContext := "t/x");
    assert c.QualifiedName() == c.name;
    FirstIndexUnique(ContextNameOf, file.contexts, "t/x", 0);
    FirstIndexUnique(SessionNameOf, file.sessions, "t", 0);
    assert t in file.sessions;
  }

  /** A login whose discovery fails: the session of the current context is still the active one. */
  lemma LoginLeavesOtherActiveExample() returns (file: Config, session: Session, a: LoginAnswers)
    ensures Sound(file) && CommandOK(DoLogin(session, a, 0)) && session.name == "s"
    ensures !LoginEnds(file, session, a, 0).Aborted? && Login(file, session, a, 0).activeSession == "s"
    ensures ActiveName(Login(file, session, a, 0)) != "s"
  {
    file := OtherActiveConfig();
    session := Session("s", "", "", "", Endpoint("", "", "", false, ""), "");
    a := LoginAnswers(true, None, false, None, Complete);
    LoginActivatesIff(file, session, a, 0);
  }

  // ---- Coming back to a session ----

  ghost predicate Remembers(ss: seq<Session>, name: string, ctxName: string) {
    exists s :: s in ss && s.name == name && s.lastContext == ctxName
  }

  /** The command logs s in or out, refreshes it, or uses one of its contexts. */
  ghost predicate Disturbs(cfg: Config, cmd: Command, s: string) {
    || Touches(cfg, cmd, s)
    || match cmd
       case DoUse(query) =>
         var r := ResolveInSession(cfg, query, ActiveName(cfg));
         r.Some? && r.value.session == s
       case DoUsePicked(_) => ActiveName(cfg) == s
       case DoBootstrap(session) => session.name == s
       case _ => false
  }

  lemma WithLastContextRemembers(ss: seq<Session>, other: string, otherName: string, name: string, ctxName: string)
    requires Remembers(ss, name, ctxName) && other != name
    ensures Remembers(WithLastContext(ss, other, otherName), name, ctxName)
  {
    var after := WithLastContext(ss, other, otherName);
    var s :| s in ss && s.name == name && s.lastContext == ctxName;
    var j :| 0 <= j < |ss| && ss[j] == s;
    var i := FirstIndex(SessionNameOf, ss, other);
    assert i < |ss| ==> SessionNameOf(ss[i]) == other;
    assert after[j] == s;
  }

  lemma UpsertRemembers(ss: seq<Session>, session: Session, name: string, ctxName: string)
    requires Remembers(ss, name, ctxName) && session.name != name
    ensures Remembers(Upsert(SessionNameOf, ss, session), name, ctxName)
  {
    var s :| s in ss && s.name == name && s.lastContext == ctxName;
    UpsertMembers(SessionNameOf, ss, session);
    assert SessionNameOf(s) != SessionNameOf(session);
  }

  lemma UsedRemembers(file: Config, after: Config, c: DiscoveredContext)
    requires Remembers(file.sessions, c.session, c.name) && c in file.contexts
    requires after == file || exists d :: d in file.contexts && d.session != c.session && after == UseContext(file, d)
    ensures c in after.contexts && Remembers(after.sessions, c.session, c.name)
  {
    if after != file {
      var d :| d in file.contexts && d.session != c.session && after == UseContext(file, d);
      WithLastContextRemembers(file.sessions, d.session, d.name, c.session, c.name);
    }
  }

  lemma LoginRemembers(file: Config, session: Session, a: LoginAnswers, now: int, c: DiscoveredContext)
    requires Sound(file) && CommandOK(DoLogin(session, a, now)) && session.name != c.session
    requires Remembers(file.sessions, c.session, c.name) && c in file.contexts
    ensures c in Login(file, session, a, now).contexts && Remembers(Login(file, session, a, now).sessions, c.session, c.name)
  {
    var end := LoginEnds(file, session, a, now);
    NoMigrationNeeded(file);
    LoginShape(file, session, a, now);
    KeptContextFound(file, session, a.found, now, c);
    UpsertRemembers(file.sessions, session, c.session, c.name);
    if end.WithContext? {
      WithLastContextRemembers(end.cfg.sessions, session.name, end.name, c.session, c.name);
    }
  }

  lemma RefreshRemembers(file: Config, found: Option<Found>, now: int, c: DiscoveredContext)
    requires Sound(file) && c in file.contexts && ActiveName(file) != c.session
    ensures c in RefreshActive(file, found, now).contexts && RefreshActive(file, found, now).sessions == file.sessions
  {
    NoMigrationNeeded(file);
    ActiveExists(file);
    if found.Some? && ActiveSessionEntry(file).Some? {
      var s, after := ActiveName(file), RefreshActive(file, found, now);
      SoundOthersQualified(file, s);
      RefreshedContexts(file, s, found.value.orgs, found.value.projects, now);
      KeepMember(NotOwnedBy(s), file.contexts, c);
      KeepMember(NotOwnedBy(s), after.contexts, c);
    }
  }

  lemma LogoutRemembers(file: Config, email: string, c: DiscoveredContext)
    requires Sound(file) && c in file.contexts && c.session !in EmailNames(file.sessions, email)
    requires Remembers(file.sessions, c.session, c.name)
    ensures c in LogoutByEmail(file, email).contexts && Remembers(LogoutByEmail(file, email).sessions, c.session, c.name)
  {
    NoMigrationNeeded(file);
    LogoutRemoves(file, email);
    var s :| s in file.sessions && s.name == c.session && s.lastContext == c.name;
    assert s.userEmail != email;
  }

  lemma RekeyRemembers(file: Config, name: string, ctxName: string)
    requires Sound(file) && Remembers(file.sessions, name, ctxName)
    ensures Rekey(file).contexts == file.contexts && Remembers(Rekey(file).sessions, name, ctxName)
  {
    NoMigrationNeeded(file);
    RekeyedNames(file.sessions);
    var after := UserKeys.MovedAll(file.sessions);
    var s :| s in file.sessions && s.name == name && s.lastContext == ctxName;
    var i :| 0 <= i < |file.sessions| && file.sessions[i] == s;
    assert after[i] in after;
  }

  lemma UsedPickElsewhere(file: Config, pick: Option<nat>, s: string)
    requires Sound(file) && ActiveName(file) != s
    ensures UsePicked(file, pick) == file || exists c :: c in file.contexts && c.session != s && UsePicked(file, pick) == UseContext(file, c)
  {
    NoMigrationNeeded(file);
    if UsePicked(file, pick) != file {
      var c := PickedIsOffered(file.contexts, ActiveName(file), pick);
      ContextFound(file, c);
    }
  }

  lemma StepRemembers(file: Config, cmd: Command, c: DiscoveredContext)
    requires Sound(file) && CommandOK(cmd) && !Disturbs(file, cmd, c.session)
    requires c in file.contexts && Remembers(file.sessions, c.session, c.name)
    ensures c in Step(file, cmd).contexts && Remembers(Step(file, cmd).sessions, c.session, c.name)
  {
    NoMigrationNeeded(file);
    match cmd
    case DoLogin(session, answers, now) => LoginRemembers(file, session, answers, now, c);
    case DoRefresh(found, now) => RefreshRemembers(file, found, now, c);
    case DoUse(query) =>
      ResolvedIsOwned(file, query, ActiveName(file));
      UsedRemembers(file, UseQuery(file, query), c);
    case DoUsePicked(pick) =>
      UsedPickElsewhere(file, pick, c.session);
      UsedRemembers(file, UsePicked(file, pick), c);
    case DoSwitch(_, _) =>
    case DoLogout(userEmail) => LogoutRemembers(file, userEmail, c);
    case DoLogoutAll =>
    case DoConsoleLogin(session, found, now) =>
      KeptContextFound(file, session, found, now, c);
      UpsertRemembers(file.sessions, session, c.session, c.name);
    case DoConsolePick(_) =>
    case DoBootstrap(session) => UpsertRemembers(file.sessions, session, c.session, c.name);
    case DoRekey => RekeyRemembers(file, c.session, c.name);
  }

  lemma {:induction false} RunRemembers(file: Config, cmds: seq<Command>, c: DiscoveredContext)
    requires Sound(file) && c in file.contexts && Remembers(file.sessions, c.session, c.name)
    requires forall cmd | cmd in cmds :: CommandOK(cmd)
    requires forall i | 0 <= i < |cmds| :: !Disturbs(Run(file, cmds[..i]), cmds[i], c.session)
    ensures c in Run(file, cmds).contexts && Remembers(Run(file, cmds).sessions, c.session, c.name)
  {
    if cmds == [] {
    } else {
      var front := cmds[..|cmds| - 1];
      assert forall cmd | cmd in front :: cmd in cmds;
      forall i | 0 <= i < |front|
        ensures !Disturbs(Run(file, front[..i]), front[i], c.session)
      {
        assert front[..i] == cmds[..i];
      }
      RunRemembers(file, front, c);
      RunSound(file, front);
      StepRemembers(Run(file, front), cmds[|cmds| - 1], c);
    }
  }

  lemma BackTo(cfg: Config, s: Session, c: DiscoveredContext)
    requires Sound(cfg) && s in cfg.sessions && c in cfg.contexts && s.name == c.session && s.lastContext == c.name
    ensures CurrentContextEntry(SwitchTo(cfg, s)) == Some(c) && ActiveName(SwitchTo(cfg, s)) == c.session
  {
    ContextFound(cfg, c);
    QualifiedHasSlash(c);
    SessionFound(cfg, s);
  }

  lemma UsedIsRemembered(file: Config, c: DiscoveredContext)
    requires Sound(file) && c in file.contexts
    ensures Sound(UseContext(file, c)) && Remembers(UseContext(file, c).sessions, c.session, c.name)
  {
    UseContextSound(file, c);
    UseActivates(file, c);
    ActiveExists(UseContext(file, c));
  }

  /** Use a context, do whatever in other sessions, switch back to its session: the context is current again. */
  lemma {:induction false} SwitchBackRestores(file: Config, c: DiscoveredContext, cmds: seq<Command>, email: Option<string>, pick: Option<nat>)
    requires Sound(file) && c in file.contexts
    requires forall cmd | cmd in cmds :: CommandOK(cmd)
    requires forall i | 0 <= i < |cmds| :: !Disturbs(Run(UseContext(file, c), cmds[..i]), cmds[i], c.session)
    requires var target := SwitchTarget(Run(UseContext(file, c), cmds), email, pick); target.Some? && target.value.name == c.session
    ensures var after := Switch(Run(UseContext(file, c), cmds), email, pick);
            CurrentContextEntry(after) == Some(c) && ActiveName(after) == c.session
  {
    var cfg := Run(UseContext(file, c), cmds);
    UsedIsRemembered(file, c);
    RunRemembers(UseContext(file, c), cmds, c);
    RunSound(UseContext(file, c), cmds);
    NoMigrationNeeded(cfg);
    TargetIsOffered(cfg, email, pick);
    var s :| s in cfg.sessions && s.name == c.session && s.lastContext == c.name;
    SessionFound(cfg, s);
    SessionFound(cfg, SwitchTarget(cfg, email, pick).value);
    BackTo(cfg, s, c);
  }

  // ---- What login, refresh and logout leave behind ----

  /** The session lists exactly what the API reported, each organization and project once. */
  ghost predicate ListsReported(cs: seq<DiscoveredContext>, s: string, found: Found) {
    && (forall orgID, projectID :: Lists(cs, s, orgID, projectID) <==> Reported(found.orgs, found.projects, orgID, projectID))
    && forall i, j | 0 <= i < j < |cs| && cs[i].session == s && cs[j].session == s ::
         cs[i].organizationID != cs[j].organizationID || cs[i].projectID != cs[j].projectID
  }

  lemma RefreshReported(cfg: Config, s: string, found: Found, now: int)
    requires Sound(cfg) && SlashFree(s) && FoundOK(Some(found))
    ensures ListsReported(Refresh(cfg, s, found.orgs, found.projects, now).contexts, s, found)
  {
    SoundOthersQualified(cfg, s);
    RefreshListsReported(cfg, s, found.orgs, found.projects, now);
  }

  /**
    `ctx refresh` brings the active session up to date with what was reported and touches neither
    sessions nor the pointers; without an active session or an answer it does nothing.
   */
  lemma RefreshUpdatesActive(file: Config, found: Option<Found>, now: int)
    requires Sound(file) && FoundOK(found)
    ensures var after := RefreshActive(file, found, now);
            && after.sessions == file.sessions && after.currentContext == file.currentContext && after.activeSession == file.activeSession
            && (ActiveSessionEntry(file).None? || found.None? ==> after == file)
            && (ActiveSessionEntry(file).Some? && found.Some? ==>
                  ListsReported(after.contexts, ActiveSessionEntry(file).value.name, found.value) && after.lastRefreshed == Some(now))
  {
    NoMigrationNeeded(file);
    ActiveExists(file);
    if ActiveSessionEntry(file).Some? && found.Some? {
      RefreshReported(file, ActiveSessionEntry(file).value.name, found.value, now);
    }
  }

  lemma StoredUnder(ss: seq<Session>, session: Session, ctxName: string)
    ensures Find(SessionNameOf, Upsert(SessionNameOf, ss, session), session.name) == Some(session)
    ensures Find(SessionNameOf, WithLastContext(Upsert(SessionNameOf, ss, session), session.name, ctxName), session.name)
         == Some(session.(lastContext := ctxName))
  {
    var stored := Upsert(SessionNameOf, ss, session);
    UpsertFirstIndex(SessionNameOf, ss, session, SessionNameOf(session));
    var i := FirstIndex(SessionNameOf, stored, session.name);
    FirstIndexUnique(SessionNameOf, WithLastContext(stored, session.name, ctxName), session.name, i);
  }

  /** Logging out a user removes that user's sessions and contexts and nothing else; an unknown user leaves the file alone. */
  lemma LogoutRemovesUser(file: Config, email: string)
    ensures if exists s :: s in Migrate(file).sessions && s.userEmail == email
            then UserRemoved(Migrate(file), email, LogoutByEmail(file, email))
            else LogoutByEmail(file, email) == file
  {
    KeepMembers(HasEmail(email), Migrate(file).sessions);
    LogoutRemoves(Migrate(file), email);
    if s :| s in Migrate(file).sessions && s.userEmail == email {
      KeepMember(HasEmail(email), Migrate(file).sessions, s);
    }
    var hits := Keep(HasEmail(email), Migrate(file).sessions);
    assert hits != [] ==> hits[0] in hits;
  }

  lemma RefreshedLoginKeyed(file: Config, session: Session, found: Option<Found>, now: int)
    requires Sound(file) && CacheKeyed(file)
    ensures CacheKeyed(RefreshedLogin(file, session, found, now))
  {
    NoMigrationNeeded(file);
    if found.Some? {
      RefreshKeyed(LoggedIn(file, session), session.name, found.value.orgs, found.value.projects, now);
    }
  }

  lemma RefreshActiveKeyed(file: Config, found: Option<Found>, now: int)
    requires Sound(file) && CacheKeyed(file)
    ensures CacheKeyed(RefreshActive(file, found, now))
  {
    NoMigrationNeeded(file);
    if ActiveSessionEntry(file).Some? && found.Some? {
      RefreshKeyed(file, ActiveSessionEntry(file).value.name, found.value.orgs, found.value.projects, now);
    }
  }

  lemma StepKeyed(file: Config, cmd: Command)
    requires Sound(file) && CacheKeyed(file)
    ensures CacheKeyed(Step(file, cmd))
  {
    NoMigrationNeeded(file);
    match cmd
    case DoLogin(session, a, now) =>
      LoginShape(file, session, a, now);
      RefreshedLoginKeyed(file, session, a.found, now);
    case DoRefresh(found, now) => RefreshActiveKeyed(file, found, now);
    case DoConsoleLogin(session, found, now) => RefreshedLoginKeyed(file, session, found, now);
    case DoLogout(email) => LogoutRemovesUser(file, email);
    case _ =>
  }

  /** After every run each cached organization and project has one display name per session. */
  lemma {:induction false} RunKeyed(file: Config, cmds: seq<Command>)
    requires Sound(file) && CacheKeyed(file) && forall cmd | cmd in cmds :: CommandOK(cmd)
    ensures CacheKeyed(Run(file, cmds))
  {
    if cmds == [] {
    } else {
      var front := cmds[..|cmds| - 1];
      assert forall cmd | cmd in front :: cmd in cmds;
      RunKeyed(file, front);
      RunSound(file, front);
      StepKeyed(Run(file, front), cmds[|cmds| - 1]);
    }
  }

  /** A login that saves stores its session as given, marks it active, and lists for it what was reported; a session remembers what was selected. */
  lemma LoginStores(file: Config, session: Session, a: LoginAnswers, now: int)
    requires Sound(file) && CommandOK(DoLogin(session, a, now)) && !LoginEnds(file, session, a, now).Aborted?
    ensures var after := Login(file, session, a, now);
            && after.activeSession == session.name
            && (a.found.Some? ==> ListsReported(after.contexts, session.name, a.found.value) && after.lastRefreshed == Some(now))
            && (if Selects(file, session, a, now) then SessionByName(after, session.name) == Some(session.(lastContext := after.currentContext))
                else SessionByName(after, session.name) == Some(session) && after.currentContext == file.currentContext)
  {
    var end := LoginEnds(file, session, a, now);
    LoginSelectsIff(file, session, a, now);
    LoginShape(file, session, a, now);
    NoMigrationNeeded(file);
    LoggedInSound(file, session);
    if a.found.Some? {
      RefreshReported(LoggedIn(file, session), session.name, a.found.value, now);
    }
    StoredUnder(file.sessions, session, if end.WithContext? then end.name else "");
  }

  /** With an organization reported there is something to offer. */
  lemma SomethingOffered(file: Config, session: Session, found: Found, now: int)
    requires Sound(file) && session.name != "" && SlashFree(session.name) && FoundOK(Some(found)) && found.orgs != []
    ensures Keep(OwnedBy(session.name), RefreshedLogin(file, session, Some(found), now).contexts) != []
  {
    var after := RefreshedLogin(file, session, Some(found), now);
    LoggedInSound(file, session);
    RefreshReported(LoggedIn(file, session), session.name, found, now);
    assert Reported(found.orgs, found.projects, found.orgs[0].name, "");
    assert Lists(after.contexts, session.name, found.orgs[0].name, "");
    var c :| c in after.contexts && c.session == session.name;
    KeepMember(OwnedBy(session.name), after.contexts, c);
  }

  /**
    A login saves nothing exactly if there is no token source, or discovery worked and
    then: no organization was found and the portal is not known, or nothing was picked, or
    the onboarding check failed.
   */
  lemma LoginAbortsIff(file: Config, session: Session, a: LoginAnswers, now: int)
    requires Sound(file) && CommandOK(DoLogin(session, a, now))
    ensures LoginEnds(file, session, a, now).Aborted? <==>
              || !a.tokenSource
              || (a.found.Some? && a.found.value.orgs == [] && !a.portalKnown)
              || (a.found.Some? && a.found.value.orgs != []
                  && (a.onboarding == CheckFailed
                      || Picked(ContextNames(Keep(OwnedBy(session.name), RefreshedLogin(file, session, a.found, now).contexts)), a.pick).None?))
  {
    if a.found.Some? && a.found.value.orgs != [] {
      var refreshed := RefreshedLogin(file, session, a.found, now);
      SomethingOffered(file, session, a.found.value, now);
      RefreshedLoginSound(file, session, a.found, now);
      if Picked(ContextNames(Keep(OwnedBy(session.name), refreshed.contexts)), a.pick).Some? {
        var c := PickedIsOffered(refreshed.contexts, session.name, a.pick);
        ContextFound(refreshed, c);
      }
    }
  }

  /** With no session active, the one made from the keyring becomes active unless another name is marked, which leads nowhere. */
  lemma BootstrapActivatesIff(file: Config, session: Session)
    requires Sound(file) && SessionOK(session) && ActiveSessionEntry(file).None?
    ensures SessionByName(Bootstrap(file, session), session.name) == Some(session)
    ensures ActiveName(Bootstrap(file, session)) == session.name <==> file.activeSession in {"", session.name}
  {
    var after := Bootstrap(file, session);
    NoMigrationNeeded(file);
    StoredUnder(file.sessions, session, "");
    if CurrentContextEntry(file).Some? {
      assert CurrentContextEntry(file).value in file.contexts;
      SessionNamed(file, CurrentContextEntry(file).value.session);
    }
    UpsertFirstIndex(SessionNameOf, file.sessions, session, after.activeSession);
  }

  /** While the active session has a key nothing happens; otherwise the new session is stored, and marked active if none was marked. */
  lemma BootstrapStores(file: Config, session: Session)
    requires Sound(file) && SessionOK(session)
    ensures var after := Bootstrap(file, session);
            if ActiveSessionEntry(file).Some? && ActiveSessionEntry(file).value.userKey != "" then after == file
            else
              && SessionByName(after, session.name) == Some(session)
              && after.activeSession == (if file.activeSession == "" then session.name else file.activeSession)
              && after.currentContext == file.currentContext && after.contexts == file.contexts
  {
    NoMigrationNeeded(file);
    StoredUnder(file.sessions, session, "");
  }

  function LogoutEach(file: Config, emails: seq<string>): Config {
    if emails == [] then file else LogoutByEmail(LogoutEach(file, emails[..|emails| - 1]), emails[|emails| - 1])
  }

  /** The pointers lead somewhere or are empty. */
  ghost predicate NothingDangles(cfg: Config) {
    && (cfg.activeSession == "" || HasSession(cfg.sessions, cfg.activeSession))
    && (cfg.currentContext == "" || exists c :: c in cfg.contexts && c.name == cfg.currentContext)
  }

  lemma LogoutDanglesNothing(cfg: Config, email: string, after: Config)
    requires NothingDangles(cfg) && UserRemoved(cfg, email, after)
    ensures NothingDangles(after)
  {
    if after.activeSession != "" {
      var s :| s in cfg.sessions && s.name == cfg.activeSession;
      assert s.userEmail != email;
    }
  }

  lemma LogoutStep(cfg: Config, email: string)
    requires Sound(cfg) && NothingDangles(cfg)
    ensures var after := LogoutByEmail(cfg, email);
            && Sound(after) && NothingDangles(after)
            && (forall s :: s in after.sessions <==> s in cfg.sessions && s.userEmail != email)
            && after.organizations == cfg.organizations && after.projects == cfg.projects && after.lastRefreshed == cfg.lastRefreshed
  {
    NoMigrationNeeded(cfg);
    LogoutRemovesUser(cfg, email);
    LogoutSound(cfg, email);
    if exists s :: s in cfg.sessions && s.userEmail == email {
      LogoutDanglesNothing(cfg, email, LogoutByEmail(cfg, email));
    }
  }

  lemma {:induction false} LogoutEachLeaves(file: Config, emails: seq<string>)
    requires Sound(file) && NothingDangles(file)
    ensures var after := LogoutEach(file, emails);
            && Sound(after) && NothingDangles(after)
            && (forall s :: s in after.sessions <==> s in file.sessions && s.userEmail !in emails)
            && after.organizations == file.organizations && after.projects == file.projects && after.lastRefreshed == file.lastRefreshed
  {
    if emails == [] {
    } else {
      var front, last := emails[..|emails| - 1], emails[|emails| - 1];
      assert emails == front + [last];
      LogoutEachLeaves(file, front);
      LogoutStep(LogoutEach(file, front), last);
    }
  }

  /** Logging out everybody leaves no session and no context, so no query means anything in any session, but the cache stays. */
  lemma LogoutAllClears(file: Config, s: string, query: string)
    ensures var after := LogoutAll(file);
            && after.sessions == [] && after.contexts == [] && after.activeSession == "" && after.currentContext == ""
            && after.organizations == Migrate(file).organizations && after.projects == Migrate(file).projects
            && ActiveSessionEntry(after).None? && ResolveInSession(after, query, s).None?
  {
    ResolvedIsOwned(LogoutAll(file), query, s);
  }

  lemma FirstOf<T>(xs: seq<T>) returns (x: T)
    requires xs != []
    ensures x in xs
  {
    x := xs[0];
  }

  /** Where nothing dangles and no session is left, nothing is. */
  lemma NoSessionNothing(cfg: Config)
    requires Sound(cfg) && NothingDangles(cfg) && forall s :: s !in cfg.sessions
    ensures cfg.sessions == [] && cfg.contexts == [] && cfg.activeSession == "" && cfg.currentContext == ""
  {
    if cfg.sessions != [] {
      var s := FirstOf(cfg.sessions);
    }
    if cfg.contexts != [] {
      var c := FirstOf(cfg.contexts);
    }
  }

  /** It is logging out one user after the other, in any order. */
  lemma {:induction false} LogoutAllIsEveryLogout(file: Config, emails: seq<string>)
    requires Sound(file) && NothingDangles(file)
    requires forall s | s in file.sessions :: s.userEmail in emails
    ensures LogoutAll(file) == LogoutEach(file, emails)
  {
    NoMigrationNeeded(file);
    LogoutEachLeaves(file, emails);
    NoSessionNothing(LogoutEach(file, emails));
  }

  // ---- The commands as they run: load, update the object step by step, save ----

  method SetLastContext(cfg: ConfigV1Beta1, sessionName: string, ctxName: string)
    modifies cfg`sessions
    ensures cfg.sessions == WithLastContext(old(cfg.sessions), sessionName, ctxName)
  {
    for i := 0 to |cfg.sessions|
      invariant cfg.sessions == old(cfg.sessions)
      invariant forall j | 0 <= j < i :: cfg.sessions[j].name != sessionName
    {
      if cfg.sessions[i].name == sessionName {
        FirstIndexUnique(SessionNameOf, cfg.sessions, sessionName, i);
        cfg.sessions := cfg.sessions[i := cfg.sessions[i].(lastContext := ctxName)];
        return;
      }
    }
  }

  method SessionsByEmail(cfg: ConfigV1Beta1, email: string) returns (r: seq<Session>)
    ensures r == Keep(HasEmail(email), cfg.sessions)
  {
    r := [];
    for i := 0 to |cfg.sessions|
      invariant r == Keep(HasEmail(email), cfg.sessions[..i])
    {
      KeepNext(HasEmail(email), cfg.sessions, i);
      if cfg.sessions[i].userEmail == email {
        r := r + [cfg.sessions[i]];
      }
    }
    assert cfg.sessions[..|cfg.sessions|] == cfg.sessions;
  }

  /** The last part of `login`: offer the session's contexts and select the one picked. */
  method SelectContext(cfg: ConfigV1Beta1, file: Config, sessionName: string, someOrgs: bool, a: LoginAnswers) returns (disk: Config)
    modifies cfg
    ensures disk == Saved(file, sessionName, OfferContexts(old(cfg.View()), sessionName, someOrgs, a))
  {
    var own := cfg.ContextsForSession(sessionName);
    if !someOrgs || own == [] {
      return if a.portalKnown then cfg.View() else file;
    }
    var selected := Picked(ContextNames(own), a.pick);
    if selected.None? {
      return file;
    }
    var selectedCtx := cfg.FindContextByName(selected.value);
    if selectedCtx.Some? {
      if a.onboarding == CheckFailed {
        return file;
      }
      if a.onboarding == Incomplete {
        return cfg.View();
      }
    }
    cfg.currentContext := selected.value;
    SetLastContext(cfg, sessionName, selected.value);
    return cfg.View();
  }

  /** The config steps of `login` after authentication. */
  method RunLogin(file: Config, session: Session, a: LoginAnswers, now: int) returns (disk: Config)
    ensures disk == Login(file, session, a, now)
  {
    var cfg := new ConfigV1Beta1.Load(file);
    cfg.UpsertSession(session);
    cfg.activeSession := session.name;
    if !a.tokenSource {
      return file;
    }
    if a.found.None? {
      return cfg.View();
    }
    UpdateConfigCache(cfg, session.name, a.found.value.orgs, a.found.value.projects, now);
    disk := SelectContext(cfg, file, session.name, a.found.value.orgs != [], a);
  }

  /** Signing in from the console; None when there is no token source for the new credentials. */
  method RunConsoleLogin(file: Config, session: Session, found: Option<Found>, now: int) returns (disk: Config)
    ensures disk == RefreshedLogin(file, session, found, now)
  {
    var cfg := new ConfigV1Beta1.Load(file);
    cfg.UpsertSession(session);
    cfg.activeSession := session.name;
    assert cfg.View() == LoggedIn(file, session);
    if found.Some? {
      UpdateConfigCache(cfg, session.name, found.value.orgs, found.value.projects, now);
    }
    return cfg.View();
  }

  method RunConsolePick(file: Config, pick: nat) returns (disk: Config)
    ensures disk == ConsolePick(file, pick)
  {
    var cfg := new ConfigV1Beta1.Load(file);
    var active := cfg.FindActiveSession();
    var offered := cfg.ContextsWithin(if active.Some? then active.value.name else "");
    if pick >= |offered| {
      return file;
    }
    cfg.currentContext := offered[pick].name;
    return cfg.View();
  }

  method RunBootstrap(file: Config, session: Session) returns (disk: Config)
    ensures disk == Bootstrap(file, session)
  {
    var cfg := new ConfigV1Beta1.Load(file);
    var active := cfg.FindActiveSession();
    if active.Some? && active.value.userKey != "" {
      return file;
    }
    cfg.UpsertSession(session);
    if cfg.activeSession == "" {
      cfg.activeSession := session.name;
    }
    return cfg.View();
  }

  method RunRefresh(file: Config, found: Option<Found>, now: int) returns (disk: Config)
    ensures disk == RefreshActive(file, found, now)
  {
    var cfg := new ConfigV1Beta1.Load(file);
    var active := cfg.FindActiveSession();
    if active.None? || found.None? {
      return file;
    }
    UpdateConfigCache(cfg, active.value.name, found.value.orgs, found.value.projects, now);
    return cfg.View();
  }

  /** The context the command line or the picker names, relative to the active session. */
  method FindUsed(cfg: ConfigV1Beta1, query: Option<string>, pick: Option<nat>) returns (r: Option<DiscoveredContext>)
    ensures var v := cfg.View();
            r == if query.Some? then ResolveInSession(v, query.value, ActiveName(v))
                 else
                   var name := Picked(ContextNames(Keep(OwnedBy(ActiveName(v)), v.contexts)), pick);
                   if name.None? then None else ContextByName(v, name.value)
  {
    var active := cfg.FindActiveSession();
    var activeName := if active.Some? then active.value.name else "";
    if query.Some? {
      r := cfg.ResolveContextInSession(query.value, activeName);
    } else {
      var own := cfg.ContextsForSession(activeName);
      var name := Picked(ContextNames(own), pick);
      if name.None? {
        return None;
      }
      r := cfg.FindContextByName(name.value);
    }
  }

  /** `ctx use`: the query given on the command line, or the context picked. */
  method RunUse(file: Config, query: Option<string>, pick: Option<nat>) returns (disk: Config)
    ensures disk == if query.Some? then UseQuery(file, query.value) else UsePicked(file, pick)
  {
    var cfg := new ConfigV1Beta1.Load(file);
    if cfg.contexts == [] {
      return file;
    }
    var resolved := FindUsed(cfg, query, pick);
    if resolved.None? {
      return file;
    }
    cfg.currentContext := resolved.value.name;
    cfg.activeSession := resolved.value.session;
    SetLastContext(cfg, resolved.value.session, resolved.value.name);
    return cfg.View();
  }

  method RunSwitch(file: Config, email: Option<string>, pick: Option<nat>) returns (disk: Config)
    ensures disk == Switch(file, email, pick)
  {
    var cfg := new ConfigV1Beta1.Load(file);
    var offered := cfg.sessions;
    if email.Some? {
      offered := SessionsByEmail(cfg, email.value);
    }
    var name := Picked(SessionNames(offered), pick);
    if name.None? {
      return file;
    }
    var session := cfg.FindSessionByName(name.value);
    if session.None? {
      return file;
    }
    cfg.activeSession := name.value;
    var last := cfg.FindContextByName(session.value.lastContext);
    if session.value.lastContext != "" && last.Some? {
      cfg.currentContext := session.value.lastContext;
    } else {
      cfg.currentContext := "";
    }
    return cfg.View();
  }

  method RunLogoutByEmail(file: Config, email: string) returns (disk: Config)
    ensures disk == LogoutByEmail(file, email)
  {
    var cfg := new ConfigV1Beta1.Load(file);
    var sessions := SessionsByEmail(cfg, email);
    if sessions == [] {
      return file;
    }
    cfg.RemoveSessionsByEmail(email);
    if cfg.currentContext != "" {
      var current := cfg.FindContextByName(cfg.currentContext);
      if current.None? {
        cfg.currentContext := "";
      }
    }
    return cfg.View();
  }

  method RunLogoutAll(file: Config) returns (disk: Config)
    ensures disk == LogoutAll(file)
  {
    var cfg := new ConfigV1Beta1.Load(file);
    cfg.sessions := [];
    cfg.contexts := [];
    cfg.currentContext := "";
    cfg.activeSession := "";
    return cfg.View();
  }
}
