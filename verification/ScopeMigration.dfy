/**
  Upgrading a config written before context names carried their session. Contexts
  are renamed one after another, and after each rename the stored pointers that held the
  old name are moved to the new one.
 */
module ScopeMigration {
  import opened Text
  import opened KeyedList
  import opened ConfigTypes

  predicate Renamed(c: DiscoveredContext) {
    c.session != "" && c.name != c.QualifiedName()
  }

  function NewName(c: DiscoveredContext): string {
    if Renamed(c) then c.QualifiedName() else c.name
  }

  function MigratedContext(c: DiscoveredContext): DiscoveredContext {
    c.(name := NewName(c))
  }

  function MigratedContexts(cs: seq<DiscoveredContext>): seq<DiscoveredContext> {
    seq(|cs|, i requires 0 <= i < |cs| => MigratedContext(cs[i]))
  }

  datatype Rename = Rename(from: string, to: string)

  /** Where a pointer stands after the first n renames, done one after another. */
  function Chase(rs: seq<Rename>, p: string, n: nat): string
    requires n <= |rs|
  {
    if n == 0 then p
    else
      var q := Chase(rs, p, n - 1);
      if q == rs[n - 1].from then rs[n - 1].to else q
  }

  /** A context that keeps its name moves no pointer. */
  function Renames(cs: seq<DiscoveredContext>): seq<Rename> {
    seq(|cs|, i requires 0 <= i < |cs| => Rename(cs[i].name, NewName(cs[i])))
  }

  function MigratedPointer(cs: seq<DiscoveredContext>, p: string, n: nat): string
    requires n <= |cs|
  {
    Chase(Renames(cs), p, n)
  }

  function MigratedSessions(cs: seq<DiscoveredContext>, ss: seq<Session>, n: nat): seq<Session>
    requires n <= |cs|
  {
    seq(|ss|, j requires 0 <= j < |ss| => ss[j].(lastContext := MigratedPointer(cs, ss[j].lastContext, n)))
  }

  function OrgStamped(): CachedOrg -> bool {
    (o: CachedOrg) => o.session != ""
  }

  function ProjectStamped(): CachedProject -> bool {
    (p: CachedProject) => p.session != ""
  }

  function Migrate(cfg: Config): Config {
    cfg.(
      contexts := MigratedContexts(cfg.contexts),
      currentContext := MigratedPointer(cfg.contexts, cfg.currentContext, |cfg.contexts|),
      sessions := MigratedSessions(cfg.contexts, cfg.sessions, |cfg.contexts|),
      organizations := Keep(OrgStamped(), cfg.organizations),
      projects := Keep(ProjectStamped(), cfg.projects))
  }

  // ---- Idempotence ----

  lemma {:induction false} ChaseSettled(rs: seq<Rename>, p: string, n: nat)
    requires n <= |rs| && forall i | 0 <= i < |rs| :: rs[i].to == rs[i].from
    ensures Chase(rs, p, n) == p
  {
    if n == 0 {
    } else {
      ChaseSettled(rs, p, n - 1);
    }
  }

  lemma PointerSettled(cs: seq<DiscoveredContext>, p: string)
    requires forall c | c in cs :: !Renamed(c)
    ensures MigratedPointer(cs, p, |cs|) == p
  {
    forall i | 0 <= i < |cs|
      ensures Renames(cs)[i].to == Renames(cs)[i].from
    {
      assert cs[i] in cs;
    }
    ChaseSettled(Renames(cs), p, |cs|);
  }

  /** A config whose contexts are all qualified and whose cache entries are all stamped is not touched. */
  lemma MigrateSettled(cfg: Config)
    requires forall c | c in cfg.contexts :: !Renamed(c)
    requires forall o | o in cfg.organizations :: o.session != ""
    requires forall p | p in cfg.projects :: p.session != ""
    ensures Migrate(cfg) == cfg
  {
    assert MigratedContexts(cfg.contexts) == cfg.contexts;
    PointerSettled(cfg.contexts, cfg.currentContext);
    forall s | s in cfg.sessions {
      PointerSettled(cfg.contexts, s.lastContext);
    }
    assert MigratedSessions(cfg.contexts, cfg.sessions, |cfg.contexts|) == cfg.sessions;
    KeepAll(OrgStamped(), cfg.organizations);
    KeepAll(ProjectStamped(), cfg.projects);
  }

  lemma MigrateIdempotent(cfg: Config)
    ensures Migrate(Migrate(cfg)) == Migrate(cfg)
  {
    KeepMembers(OrgStamped(), cfg.organizations);
    KeepMembers(ProjectStamped(), cfg.projects);
    MigrateSettled(Migrate(cfg));
  }

  /**
    Afterwards every context that has a session carries it in its name and every cached
    entry carries one; nothing else about contexts and sessions has changed but the
    sessions' last contexts.
   */
  lemma MigrateScopes(cfg: Config)
    ensures var after := Migrate(cfg);
            && |after.contexts| == |cfg.contexts| && |after.sessions| == |cfg.sessions|
            && (forall i | 0 <= i < |cfg.contexts| ::
                  var c := cfg.contexts[i];
                  after.contexts[i] == c.(name := if c.session == "" then c.name else c.session + "/" + c.Ref()))
            && (forall i | 0 <= i < |cfg.sessions| :: after.sessions[i] == cfg.sessions[i].(lastContext := after.sessions[i].lastContext))
            && (forall o :: o in after.organizations <==> o in cfg.organizations && o.session != "")
            && (forall p :: p in after.projects <==> p in cfg.projects && p.session != "")
            && after.activeSession == cfg.activeSession && after.lastRefreshed == cfg.lastRefreshed
  {
    KeepMembers(OrgStamped(), cfg.organizations);
    KeepMembers(ProjectStamped(), cfg.projects);
  }

  // ---- What a pointer means before and after ----

  predicate LegacyName(c: DiscoveredContext) {
    SlashFree(c.session) && SlashFree(c.organizationID) && (c.name == c.Ref() || c.name == c.QualifiedName())
  }

  ghost predicate LegacyNamed(cs: seq<DiscoveredContext>) {
    DistinctKeys(ContextNameOf, cs) && forall i | 0 <= i < |cs| :: LegacyName(cs[i])
  }

  predicate SameTarget(c: DiscoveredContext, d: DiscoveredContext) {
    c.session == d.session && c.organizationID == d.organizationID && c.projectID == d.projectID
  }

  /**
    Another context carries the key the renames give to context k: as its bare reference
    (an organization named like k's session), or as its own new key while k has no session.
    The order of the list decides whether that diverts a pointer to k.
   */
  predicate Diverts(cs: seq<DiscoveredContext>, k: nat, m: nat)
    requires k < |cs| && m < |cs|
  {
    var c, d := cs[k], cs[m];
    && !SameTarget(c, d)
    && if c.session != "" then
         c.name != c.QualifiedName() && d.name == c.QualifiedName() && if d.session != "" then k < m else m < k
       else
         d.session != "" && d.QualifiedName() == c.name && m < k
  }

  ghost predicate Diverted(cs: seq<DiscoveredContext>, k: nat)
    requires k < |cs|
  {
    exists m: nat | m < |cs| :: Diverts(cs, k, m)
  }

  /** Does the migrated pointer still lead to a context with k's session, organization and project? */
  predicate KeepsTarget(cs: seq<DiscoveredContext>, k: nat)
    requires k < |cs|
  {
    var found := Find(ContextNameOf, MigratedContexts(cs), MigratedPointer(cs, cs[k].name, |cs|));
    found.Some? && SameTarget(found.value, cs[k])
  }

  ghost predicate DistinctFrom(rs: seq<Rename>) {
    forall i, j | 0 <= i < j < |rs| :: rs[i].from != rs[j].from
  }

  lemma {:induction false} ChaseUntilRenamed(rs: seq<Rename>, k: nat, n: nat)
    requires DistinctFrom(rs) && n <= k < |rs|
    ensures Chase(rs, rs[k].from, n) == rs[k].from
  {
    if n == 0 {
    } else {
      ChaseUntilRenamed(rs, k, n - 1);
    }
  }

  /** After its own rename a pointer stays put unless some later context is renamed away from the new key. */
  lemma {:induction false} ChaseStays(rs: seq<Rename>, k: nat, n: nat)
    requires DistinctFrom(rs) && k < n <= |rs|
    requires forall m | k < m < n && rs[m].from == rs[k].to :: rs[m].to == rs[m].from
    ensures Chase(rs, rs[k].from, n) == rs[k].to
  {
    if n == k + 1 {
      ChaseUntilRenamed(rs, k, k);
    } else {
      ChaseStays(rs, k, n - 1);
    }
  }

  /** A later context that holds the new key diverts, or is not renamed. */
  lemma HolderDivertsOrStays(cs: seq<DiscoveredContext>, k: nat, m: nat)
    requires LegacyNamed(cs) && k < m < |cs|
    requires cs[m].name == NewName(cs[k])
    ensures !Renamed(cs[m]) || (cs[m].session != "" && Diverts(cs, k, m))
  {
  }

  /** A new key is no shorter than the old name. */
  ghost predicate RenamesGrow(rs: seq<Rename>) {
    forall i | 0 <= i < |rs| :: |rs[i].from| <= |rs[i].to|
  }

  lemma LegacyRenamesGrow(cs: seq<DiscoveredContext>)
    requires LegacyNamed(cs)
    ensures RenamesGrow(Renames(cs)) && DistinctFrom(Renames(cs))
  {
    forall i | 0 <= i < |cs|
      ensures |cs[i].name| <= |NewName(cs[i])|
    {
      assert LegacyName(cs[i]);
    }
    forall i, j | 0 <= i < j < |cs|
      ensures cs[i].name != cs[j].name
    {
      assert ContextNameOf(cs[i]) != ContextNameOf(cs[j]);
    }
  }

  lemma {:induction false} ChaseGrows(rs: seq<Rename>, p: string, m: nat, n: nat)
    requires RenamesGrow(rs) && m <= n <= |rs|
    ensures |Chase(rs, p, m)| <= |Chase(rs, p, n)|
  {
    if m == n {
    } else {
      ChaseGrows(rs, p, m, n - 1);
    }
  }

  /** A later context renamed away from the new key takes the pointer with it, for good. */
  lemma {:induction false} ChaseTaken(rs: seq<Rename>, k: nat, m: nat, n: nat)
    requires DistinctFrom(rs) && RenamesGrow(rs) && k < m < n <= |rs|
    requires rs[m].from == rs[k].to
    ensures |Chase(rs, rs[k].from, n)| >= |rs[m].to|
  {
    ChaseStays(rs, k, m);
    ChaseGrows(rs, rs[k].from, m + 1, n);
  }

  /** A later diverting context holds the new key as its bare reference, and has a longer new key of its own. */
  lemma DiverterIsBare(cs: seq<DiscoveredContext>, k: nat, m: nat)
    requires LegacyNamed(cs) && k < m < |cs|
    requires cs[k].session != "" && cs[m].session != "" && Diverts(cs, k, m)
    ensures Renamed(cs[m])
    ensures cs[m].name == NewName(cs[k])
    ensures |cs[m].QualifiedName()| > |cs[k].QualifiedName()|
  {
    var c, d := cs[k], cs[m];
    if d.name == d.QualifiedName() {
      QualifiedNameInjective(c, d);
    }
  }

  /** Two contexts that end up with the same key lead to the same place, unless one of them diverts the other. */
  lemma SameKeyMeaning(cs: seq<DiscoveredContext>, k: nat, f: nat)
    requires LegacyNamed(cs) && f < k < |cs|
    requires NewName(cs[f]) == NewName(cs[k])
    ensures SameTarget(cs[f], cs[k]) <==> !Diverts(cs, k, f)
  {
    assert ContextNameOf(cs[f]) != ContextNameOf(cs[k]);
    if cs[f].session != "" && cs[k].session != "" {
      QualifiedNameInjective(cs[f], cs[k]);
    }
  }

  lemma FirstWithKey(cs: seq<DiscoveredContext>, k: nat) returns (f: nat)
    requires k < |cs|
    ensures f <= k && NewName(cs[f]) == NewName(cs[k])
    ensures Find(ContextNameOf, MigratedContexts(cs), NewName(cs[k])) == Some(MigratedContext(cs[f]))
    ensures forall j: nat | j < f :: NewName(cs[j]) != NewName(cs[k])
  {
    var ms := MigratedContexts(cs);
    f := FirstIndex(ContextNameOf, ms, ms[k].name);
    forall j: nat | j < f
      ensures NewName(cs[j]) != ms[k].name
    {
      assert ContextNameOf(ms[j]) != ms[k].name;
    }
  }

  lemma FoundHasName(cs: seq<DiscoveredContext>, p: string)
    ensures var found := Find(ContextNameOf, MigratedContexts(cs), p);
            found.Some? ==> found.value.name == p && (found.value.session != "" ==> found.value.QualifiedName() == p)
  {
  }

  lemma LaterDiversionLoses(cs: seq<DiscoveredContext>, k: nat, m: nat)
    requires LegacyNamed(cs) && k < m < |cs|
    requires cs[m].session != "" && Diverts(cs, k, m)
    ensures !KeepsTarget(cs, k)
  {
    DiverterIsBare(cs, k, m);
    LegacyRenamesGrow(cs);
    ChaseTaken(Renames(cs), k, m, |cs|);
    FoundHasName(cs, MigratedPointer(cs, cs[k].name, |cs|));
  }

  lemma SameTargetSameNames(c: DiscoveredContext, d: DiscoveredContext)
    ensures SameTarget(c, d) ==> c.Ref() == d.Ref() && c.QualifiedName() == d.QualifiedName()
  {
  }

  lemma EarlierDiversionLoses(cs: seq<DiscoveredContext>, k: nat, m: nat, f: nat)
    requires LegacyNamed(cs) && m < k < |cs| && f <= k && Diverts(cs, k, m)
    requires NewName(cs[f]) == NewName(cs[k])
    requires forall j: nat | j < f :: NewName(cs[j]) != NewName(cs[k])
    ensures !SameTarget(cs[f], cs[k])
  {
    assert NewName(cs[m]) == NewName(cs[k]);
    assert f <= m;
    if f < m {
      assert ContextNameOf(cs[f]) != ContextNameOf(cs[m]) && ContextNameOf(cs[f]) != ContextNameOf(cs[k]);
      SameTargetSameNames(cs[f], cs[k]);
    }
  }

  lemma UndivertedPointer(cs: seq<DiscoveredContext>, k: nat)
    requires LegacyNamed(cs) && k < |cs|
    requires forall m: nat | k < m < |cs| && cs[m].session != "" :: !Diverts(cs, k, m)
    ensures MigratedPointer(cs, cs[k].name, |cs|) == NewName(cs[k])
  {
    forall m: nat | k < m < |cs| && cs[m].name == NewName(cs[k])
      ensures !Renamed(cs[m])
    {
      HolderDivertsOrStays(cs, k, m);
    }
    LegacyRenamesGrow(cs);
    ChaseStays(Renames(cs), k, |cs|);
  }

  /** The context the lookup finds first means the same exactly when nothing before k diverts it. */
  lemma FirstDecides(cs: seq<DiscoveredContext>, k: nat, f: nat)
    requires LegacyNamed(cs) && f <= k < |cs|
    requires NewName(cs[f]) == NewName(cs[k])
    requires forall j: nat | j < f :: NewName(cs[j]) != NewName(cs[k])
    ensures SameTarget(cs[f], cs[k]) <==> forall m: nat | m < k :: !Diverts(cs, k, m)
  {
    if m: nat :| m < k && Diverts(cs, k, m) {
      EarlierDiversionLoses(cs, k, m, f);
    } else if f < k {
      SameKeyMeaning(cs, k, f);
    }
  }

  lemma PointerAtKeyKeepsIff(cs: seq<DiscoveredContext>, k: nat, f: nat)
    requires k < |cs| && f < |cs| && MigratedPointer(cs, cs[k].name, |cs|) == NewName(cs[k])
    requires Find(ContextNameOf, MigratedContexts(cs), NewName(cs[k])) == Some(MigratedContext(cs[f]))
    ensures KeepsTarget(cs, k) <==> SameTarget(cs[f], cs[k])
  {
  }

  lemma UndivertedKeeps(cs: seq<DiscoveredContext>, k: nat)
    requires LegacyNamed(cs) && k < |cs|
    requires forall m: nat | k < m < |cs| && cs[m].session != "" :: !Diverts(cs, k, m)
    ensures KeepsTarget(cs, k) <==> forall m: nat | m < k :: !Diverts(cs, k, m)
  {
    UndivertedPointer(cs, k);
    var f := FirstWithKey(cs, k);
    PointerAtKeyKeepsIff(cs, k, f);
    FirstDecides(cs, k, f);
  }

  /** The migration keeps what a resolving pointer leads to exactly when no other context diverts it. */
  lemma PointerKeepsTargetIff(cs: seq<DiscoveredContext>, k: nat)
    requires LegacyNamed(cs) && k < |cs|
    ensures KeepsTarget(cs, k) <==> !Diverted(cs, k)
  {
    if m: nat :| m < |cs| && k < m && cs[m].session != "" && Diverts(cs, k, m) {
      LaterDiversionLoses(cs, k, m);
    } else {
      UndivertedKeeps(cs, k);
      forall m: nat | m < |cs| && Diverts(cs, k, m)
        ensures m < k
      {
        assert m != k ==> ContextNameOf(cs[m]) != ContextNameOf(cs[k]);
      }
    }
  }

  /** The documented case: when no organization is named like a session, nothing is ever diverted. */
  lemma NoOrgNamedLikeSession(cs: seq<DiscoveredContext>, k: nat)
    requires LegacyNamed(cs) && k < |cs|
    requires forall c, d | c in cs && d in cs && d.session != "" :: c.organizationID != d.session
    ensures !Diverted(cs, k)
  {
    if m: nat :| m < |cs| && Diverts(cs, k, m) {
      var c, d := cs[k], cs[m];
      assert c in cs && d in cs;
      RefHasSlash(c);
      RefHasSlash(d);
      QualifiedHasSlash(c);
      QualifiedHasSlash(d);
      if c.session != "" {
        if d.name == d.Ref() {
          JoinInjective(d.organizationID, d.projectID, c.session, c.Ref(), '/');
        } else {
          QualifiedNameInjective(c, d);
        }
      } else {
        if c.name == c.Ref() {
          JoinInjective(c.organizationID, c.projectID, d.session, d.Ref(), '/');
        } else {
          QualifiedNameInjective(c, d);
        }
      }
    }
  }

  lemma PointerMeaningKept(cs: seq<DiscoveredContext>, p: string)
    requires LegacyNamed(cs)
    requires forall c, d | c in cs && d in cs && d.session != "" :: c.organizationID != d.session
    requires Find(ContextNameOf, cs, p).Some?
    ensures var found := Find(ContextNameOf, MigratedContexts(cs), MigratedPointer(cs, p, |cs|));
            found.Some? && SameTarget(found.value, Find(ContextNameOf, cs, p).value)
  {
    var k := FirstIndex(ContextNameOf, cs, p);
    NoOrgNamedLikeSession(cs, k);
    PointerKeepsTargetIff(cs, k);
  }

  /**
    A current context, or a session's last context, that resolved before the migration
    resolves after it to the same session, organization and project.
   */
  lemma MigrateKeepsMeaning(cfg: Config)
    requires LegacyNamed(cfg.contexts)
    requires forall c, d | c in cfg.contexts && d in cfg.contexts && d.session != "" :: c.organizationID != d.session
    ensures CurrentContextEntry(cfg).Some? ==>
              && CurrentContextEntry(Migrate(cfg)).Some?
              && SameTarget(CurrentContextEntry(Migrate(cfg)).value, CurrentContextEntry(cfg).value)
    ensures |Migrate(cfg).sessions| == |cfg.sessions|
    ensures forall j | 0 <= j < |cfg.sessions| && ContextByName(cfg, cfg.sessions[j].lastContext).Some? ::
              var after := ContextByName(Migrate(cfg), Migrate(cfg).sessions[j].lastContext);
              after.Some? && SameTarget(after.value, ContextByName(cfg, cfg.sessions[j].lastContext).value)
  {
    var cs := cfg.contexts;
    if CurrentContextEntry(cfg).Some? {
      PointerMeaningKept(cs, cfg.currentContext);
      LegacyRenamesGrow(cs);
      ChaseGrows(Renames(cs), cfg.currentContext, 0, |cs|);
    }
    forall j | 0 <= j < |cfg.sessions| && ContextByName(cfg, cfg.sessions[j].lastContext).Some?
      ensures var after := ContextByName(Migrate(cfg), Migrate(cfg).sessions[j].lastContext);
              after.Some? && SameTarget(after.value, ContextByName(cfg, cfg.sessions[j].lastContext).value)
    {
      PointerMeaningKept(cs, cfg.sessions[j].lastContext);
    }
  }

  /** Without that condition the current context can silently change session. */
  lemma DivertedExample() returns (cfg: Config)
    ensures |cfg.contexts| == 2 && LegacyNamed(cfg.contexts)
    ensures CurrentContextEntry(cfg) == Some(cfg.contexts[0])
    ensures CurrentContextEntry(Migrate(cfg)) == Some(MigratedContext(cfg.contexts[1]))
    ensures cfg.contexts[0].session != cfg.contexts[1].session
  {
    var c := DiscoveredContext("acme", "prod", "acme", "", "");
    var d := DiscoveredContext("prod/acme", "stage", "prod", "acme", DEFAULT_NAMESPACE);
    cfg := EMPTY_CONFIG.(contexts := [c, d], currentContext := "acme");
    var cs := cfg.contexts;
    assert c.QualifiedName() == "prod/acme";
    assert d.Ref() == "prod/acme";
    assert d.QualifiedName() == "stage/prod/acme";
    assert MigratedPointer(cs, "acme", 0) == "acme";
    assert MigratedPointer(cs, "acme", 1) == "prod/acme";
    assert MigratedPointer(cs, "acme", 2) == "stage/prod/acme";
    FirstIndexUnique(ContextNameOf, cs, "acme", 0);
    FirstIndexUnique(ContextNameOf, MigratedContexts(cs), "stage/prod/acme", 1);
  }
}
