/**
  The plugin catalog registry: the official catalog, catalogs seeded by managed
  configuration, and the user's own, loaded with that precedence and saved without the first two.
 */
module Catalogs {
  import opened Text
  import opened KeyedList
  import opened HostPattern
  import opened CatalogSource
  import opened AllowList

  const OFFICIAL := "datum"
  const LEGACY_OFFICIAL := "default"

  datatype CatalogType = OfficialType | CustomType

  datatype Catalog = Catalog(
    name: string,
    source: string,
    kind: CatalogType,
    trustedAt: int,
    lastUpdated: int,
    description: string,
    owner: string,
    homepage: string,
    managed: bool,
    disabled: bool,
    disabledReason: string)

  function CanonicalCatalogName(name: string): string {
    if name == LEGACY_OFFICIAL then OFFICIAL else name
  }

  predicate NamedOfficial(c: Catalog) {
    CanonicalCatalogName(c.name) == OFFICIAL
  }

  function CatalogNameOf(c: Catalog): string { c.name }

  predicate NameChar(c: char) {
    'a' <= c <= 'z' || '0' <= c <= '9'
  }

  predicate ValidCatalogName(name: string) {
    && name != "" && name !in {OFFICIAL, LEGACY_OFFICIAL, "official"}
    && NameChar(name[0])
    && forall c | c in name :: NameChar(c) || c == '-'
  }

  datatype ManagedIndex = ManagedIndex(name: string, source: string, description: string, owner: string)

  /** Everything a load depends on besides the user's file. */
  datatype Env = Env(
    officialSource: string,
    indexes: seq<ManagedIndex>,
    allowed: seq<string>,
    machine: Machine)

  const OFFICIAL_DESCRIPTION := "Datum-curated plugins"

  function OfficialCatalog(env: Env): Catalog {
    Catalog(OFFICIAL, env.officialSource, OfficialType, 0, 0, OFFICIAL_DESCRIPTION, "", "", false, false, "")
  }

  // ---- Loading ----

  predicate Seedable(mi: ManagedIndex) {
    mi.source != "" && ValidCatalogName(mi.name)
  }

  function Seed(mi: ManagedIndex): Catalog {
    Catalog(mi.name, mi.source, CustomType, 0, 0, mi.description, mi.owner, "", true, false, "")
  }

  function Seeded(indexes: seq<ManagedIndex>): seq<Catalog> {
    if indexes == [] then []
    else
      var last := indexes[|indexes| - 1];
      Seeded(indexes[..|indexes| - 1]) + if Seedable(last) then [Seed(last)] else []
  }

  /** Add unless the name is taken. */
  function AddNew(cs: seq<Catalog>, c: Catalog): seq<Catalog> {
    if FirstIndex(CatalogNameOf, cs, c.name) < |cs| then cs else cs + [c]
  }

  function AddAllNew(cs: seq<Catalog>, es: seq<Catalog>): seq<Catalog> {
    if es == [] then cs else AddNew(AddAllNew(cs, es[..|es| - 1]), es[|es| - 1])
  }

  function NotNamedOfficial(): Catalog -> bool {
    (c: Catalog) => !NamedOfficial(c)
  }

  const DISABLED_REASON := "its source is no longer permitted by your organization's plugin catalog allow-list"

  predicate Exempt(c: Catalog) {
    c.managed || NamedOfficial(c)
  }

  function Marked(env: Env, c: Catalog): Catalog {
    if Exempt(c) || Permits(env.allowed, c.name, Classify(env.machine, c.source)) then c
    else c.(disabled := true, disabledReason := DISABLED_REASON)
  }

  function MarkedAll(env: Env, cs: seq<Catalog>): seq<Catalog> {
    seq(|cs|, i requires 0 <= i < |cs| => Marked(env, cs[i]))
  }

  /** The catalogs that are there whatever the user registered. */
  function Base(env: Env): seq<Catalog> {
    AddAllNew([OfficialCatalog(env)], Seeded(env.indexes))
  }

  function Load(env: Env, file: seq<Catalog>): seq<Catalog> {
    MarkedAll(env, AddAllNew(Base(env), Keep(NotNamedOfficial(), file)))
  }

  // ---- Saving ----

  function IsCustom(): Catalog -> bool {
    (c: Catalog) => !Exempt(c)
  }

  /** The marks set at load time are not written. */
  function Plain(c: Catalog): Catalog {
    c.(managed := false, disabled := false, disabledReason := "")
  }

  function Save(cs: seq<Catalog>): seq<Catalog> {
    var custom := Keep(IsCustom(), cs);
    seq(|custom|, i requires 0 <= i < |custom| => Plain(custom[i]))
  }

  /** What a file can hold. */
  ghost predicate FileOK(file: seq<Catalog>) {
    forall c | c in file :: c == Plain(c)
  }

  // ---- Adding without duplicates ----

  predicate Taken(cs: seq<Catalog>, name: string) {
    FirstIndex(CatalogNameOf, cs, name) < |cs|
  }

  lemma TakenIff(cs: seq<Catalog>, name: string)
    ensures Taken(cs, name) <==> exists c :: c in cs && c.name == name
  {
  }

  lemma AddNewShape(cs: seq<Catalog>, c: Catalog)
    requires DistinctKeys(CatalogNameOf, cs)
    ensures cs <= AddNew(cs, c) && DistinctKeys(CatalogNameOf, AddNew(cs, c))
    ensures AddNew(cs, c) == cs || AddNew(cs, c) == cs + [c]
    ensures Taken(AddNew(cs, c), c.name)
    ensures forall name | Taken(cs, name) :: Taken(AddNew(cs, c), name)
  {
    var after := AddNew(cs, c);
    TakenIff(cs, c.name);
    TakenIff(after, c.name);
    assert !Taken(cs, c.name) ==> after[|cs|] == c;
    forall name | Taken(cs, name)
      ensures Taken(after, name)
    {
      TakenIff(cs, name);
      TakenIff(after, name);
      var d :| d in cs && d.name == name;
      assert d in after;
    }
  }

  lemma {:induction false} AddAllNewShape(cs: seq<Catalog>, es: seq<Catalog>)
    requires DistinctKeys(CatalogNameOf, cs)
    ensures cs <= AddAllNew(cs, es)
    ensures DistinctKeys(CatalogNameOf, AddAllNew(cs, es))
    ensures forall c | c in AddAllNew(cs, es)[|cs|..] :: c in es
    ensures forall e | e in es :: Taken(AddAllNew(cs, es), e.name)
  {
    if es == [] {
    } else {
      var front, last := es[..|es| - 1], es[|es| - 1];
      assert es == front + [last];
      AddAllNewShape(cs, front);
      AddNewShape(AddAllNew(cs, front), last);
      if AddAllNew(cs, es) != AddAllNew(cs, front) {
        assert AddAllNew(cs, es)[|cs|..] == AddAllNew(cs, front)[|cs|..] + [last];
      }
    }
  }

  lemma {:induction false} AddAllNewDistinct(cs: seq<Catalog>, es: seq<Catalog>)
    requires DistinctKeys(CatalogNameOf, cs + es)
    ensures AddAllNew(cs, es) == cs + es
  {
    if es == [] {
      assert cs + es == cs;
    } else {
      var front, last := es[..|es| - 1], es[|es| - 1];
      var all := cs + es;
      assert all[..|all| - 1] == cs + front && all[|all| - 1] == last;
      AddAllNewDistinct(cs, front);
      forall i | 0 <= i < |cs + front|
        ensures CatalogNameOf((cs + front)[i]) != last.name
      {
        assert (cs + front)[i] == all[i];
        assert CatalogNameOf(all[i]) != CatalogNameOf(all[|all| - 1]);
      }
      assert all == (cs + front) + [last];
    }
  }

  // ---- What a loaded registry looks like ----

  lemma {:induction false} SeededShape(indexes: seq<ManagedIndex>)
    ensures forall c | c in Seeded(indexes) :: c.managed && !NamedOfficial(c) && c.name != OFFICIAL
    ensures forall mi | mi in indexes && Seedable(mi) :: Seed(mi) in Seeded(indexes)
  {
    if indexes == [] {
    } else {
      SeededShape(indexes[..|indexes| - 1]);
      assert indexes == indexes[..|indexes| - 1] + [indexes[|indexes| - 1]];
    }
  }

  lemma BaseShape(env: Env)
    ensures Base(env) != [] && Base(env)[0] == OfficialCatalog(env)
    ensures DistinctKeys(CatalogNameOf, Base(env))
    ensures forall i | 0 < i < |Base(env)| :: Base(env)[i].managed && !NamedOfficial(Base(env)[i])
    ensures forall mi | mi in env.indexes && Seedable(mi) :: FirstIndex(CatalogNameOf, Base(env), mi.name) < |Base(env)|
  {
    var official := [OfficialCatalog(env)];
    SeededShape(env.indexes);
    AddAllNewShape(official, Seeded(env.indexes));
    forall i | 0 < i < |Base(env)|
      ensures Base(env)[i].managed && !NamedOfficial(Base(env)[i])
    {
      assert Base(env)[i] == Base(env)[1..][i - 1];
    }
    forall mi | mi in env.indexes && Seedable(mi)
      ensures FirstIndex(CatalogNameOf, Base(env), mi.name) < |Base(env)|
    {
      assert Seed(mi) in Seeded(env.indexes);
    }
  }

  /** The part of a loaded registry that came from the file, before marking. */
  function Own(env: Env, file: seq<Catalog>): seq<Catalog> {
    var base, all := Base(env), AddAllNew(Base(env), Keep(NotNamedOfficial(), file));
    if |base| <= |all| then all[|base|..] else []
  }

  lemma {:induction false} AddedTail(base: seq<Catalog>, kept: seq<Catalog>)
    requires DistinctKeys(CatalogNameOf, base)
    ensures var all := AddAllNew(base, kept);
            && |base| <= |all| && all == base + all[|base|..] && DistinctKeys(CatalogNameOf, all)
            && forall c | c in all[|base|..] :: c in kept
  {
    AddAllNewShape(base, kept);
  }

  lemma BaseDistinct(env: Env)
    ensures DistinctKeys(CatalogNameOf, Base(env))
  {
    AddAllNewShape([OfficialCatalog(env)], Seeded(env.indexes));
  }

  lemma {:induction false} OwnSplits(env: Env, file: seq<Catalog>)
    ensures AddAllNew(Base(env), Keep(NotNamedOfficial(), file)) == Base(env) + Own(env, file)
    ensures DistinctKeys(CatalogNameOf, Base(env) + Own(env, file))
    ensures forall c | c in Own(env, file) :: c in Keep(NotNamedOfficial(), file)
  {
    BaseDistinct(env);
    AddedTail(Base(env), Keep(NotNamedOfficial(), file));
  }

  lemma {:induction false} OwnShape(env: Env, file: seq<Catalog>)
    requires FileOK(file)
    ensures AddAllNew(Base(env), Keep(NotNamedOfficial(), file)) == Base(env) + Own(env, file)
    ensures DistinctKeys(CatalogNameOf, Base(env) + Own(env, file))
    ensures forall c | c in Own(env, file) :: c == Plain(c) && !Exempt(c)
  {
    OwnSplits(env, file);
    forall c | c in Own(env, file)
      ensures c == Plain(c) && !Exempt(c)
    {
      KeepMember(NotNamedOfficial(), file, c);
    }
  }

  lemma MarkedConcat(env: Env, cs: seq<Catalog>, ds: seq<Catalog>)
    requires forall c | c in cs :: Exempt(c)
    ensures MarkedAll(env, cs + ds) == cs + MarkedAll(env, ds)
  {
  }

  lemma BaseExempt(env: Env)
    ensures forall c | c in Base(env) :: Exempt(c)
  {
    BaseShape(env);
  }

  lemma LoadShape(env: Env, file: seq<Catalog>)
    requires FileOK(file)
    ensures DistinctKeys(CatalogNameOf, Base(env) + Own(env, file))
    ensures forall c | c in Own(env, file) :: c == Plain(c) && !Exempt(c)
    ensures Load(env, file) == Base(env) + MarkedAll(env, Own(env, file))
  {
    OwnShape(env, file);
    BaseExempt(env);
    MarkedConcat(env, Base(env), Own(env, file));
  }

  lemma {:induction false} SeededEnabled(indexes: seq<ManagedIndex>)
    ensures forall c | c in Seeded(indexes) :: !c.disabled
  {
    if indexes == [] {
    } else {
      SeededEnabled(indexes[..|indexes| - 1]);
    }
  }

  lemma BaseEnabled(env: Env, i: nat)
    requires 0 < i < |Base(env)|
    ensures !Base(env)[i].disabled
  {
    SeededEnabled(env.indexes);
    AddAllNewShape([OfficialCatalog(env)], Seeded(env.indexes));
    assert Base(env)[i] == Base(env)[1..][i - 1];
  }

  /** Names are distinct; the official catalog comes first and nothing else goes by its name; it and managed ones are never disabled. */
  lemma LoadedRegistry(env: Env, file: seq<Catalog>)
    requires FileOK(file)
    ensures var reg := Load(env, file);
            && DistinctKeys(CatalogNameOf, reg)
            && reg != [] && reg[0] == Catalog("datum", env.officialSource, OfficialType, 0, 0, OFFICIAL_DESCRIPTION, "", "", false, false, "")
            && (forall i | 0 < i < |reg| :: !NamedOfficial(reg[i]))
            && (forall c | c in reg && Exempt(c) :: !c.disabled)
            && (forall c | c in reg && !Exempt(c) :: c.disabled <==> !Permits(env.allowed, c.name, Classify(env.machine, c.source)))
  {
    LoadShape(env, file);
    BaseShape(env);
    var base, own, reg := Base(env), Own(env, file), Load(env, file);
    forall i, j | 0 <= i < j < |reg|
      ensures CatalogNameOf(reg[i]) != CatalogNameOf(reg[j])
    {
      assert CatalogNameOf((base + own)[i]) != CatalogNameOf((base + own)[j]);
      assert CatalogNameOf((base + own)[i]) == CatalogNameOf(reg[i]) && CatalogNameOf((base + own)[j]) == CatalogNameOf(reg[j]);
    }
    forall i | |base| <= i < |reg|
      ensures !Exempt(reg[i]) && (reg[i].disabled <==> !Permits(env.allowed, reg[i].name, Classify(env.machine, reg[i].source)))
    {
      assert own[i - |base|] in own;
      assert reg[i] == Marked(env, own[i - |base|]);
    }
    forall i | 0 <= i < |base|
      ensures !base[i].disabled && Exempt(base[i])
    {
      if i > 0 {
        BaseEnabled(env, i);
      }
    }
  }

  lemma TakenSnoc(cs: seq<Catalog>, c: Catalog)
    ensures forall name :: Taken(cs + [c], name) <==> Taken(cs, name) || name == c.name
  {
    forall name
      ensures Taken(cs + [c], name) <==> Taken(cs, name) || name == c.name
    {
      TakenIff(cs, name);
      TakenIff(cs + [c], name);
      assert (cs + [c])[|cs|] == c;
    }
  }

  lemma {:induction false} TakenAfterAll(cs: seq<Catalog>, es: seq<Catalog>, name: string)
    ensures Taken(AddAllNew(cs, es), name) <==> Taken(cs, name) || exists j | 0 <= j < |es| :: es[j].name == name
  {
    if es == [] {
    } else {
      var front, last := es[..|es| - 1], es[|es| - 1];
      TakenAfterAll(cs, front, name);
      TakenSnoc(AddAllNew(cs, front), last);
      if j :| 0 <= j < |es| && es[j].name == name {
        assert j < |front| ==> front[j].name == name;
      }
    }
  }

  lemma MarkedKeepsNames(env: Env, cs: seq<Catalog>, name: string)
    ensures Taken(MarkedAll(env, cs), name) <==> Taken(cs, name)
  {
    var marked := MarkedAll(env, cs);
    TakenIff(cs, name);
    TakenIff(marked, name);
    if c :| c in cs && c.name == name {
      var i :| 0 <= i < |cs| && cs[i] == c;
      assert marked[i] in marked;
    }
    if c :| c in marked && c.name == name {
      var i :| 0 <= i < |marked| && marked[i] == c;
      assert cs[i] in cs;
    }
  }

  // ---- What is found under a name ----

  lemma {:induction false} FoundAmongNew(cs: seq<Catalog>, c: Catalog, name: string)
    ensures Find(CatalogNameOf, AddNew(cs, c), name) ==
              if Taken(cs, name) then Find(CatalogNameOf, cs, name) else if c.name == name then Some(c) else None
  {
    var after, i := AddNew(cs, c), FirstIndex(CatalogNameOf, cs, name);
    if i < |cs| {
      FirstIndexUnique(CatalogNameOf, after, name, i);
    } else if c.name == name {
      assert after == cs + [c];
      FirstIndexUnique(CatalogNameOf, after, name, |cs|);
    } else {
      TakenIff(cs, name);
      TakenSnoc(cs, c);
    }
  }

  /** An entry under a name that nothing before it has is the one found. */
  lemma {:induction false} FirstIsFound(cs: seq<Catalog>, es: seq<Catalog>, i: nat)
    requires i < |es| && !Taken(cs, es[i].name) && forall j | 0 <= j < i :: es[j].name != es[i].name
    ensures Find(CatalogNameOf, AddAllNew(cs, es), es[i].name) == Some(es[i])
  {
    var front, last := es[..|es| - 1], es[|es| - 1];
    FoundAmongNew(AddAllNew(cs, front), last, es[i].name);
    TakenAfterAll(cs, front, es[i].name);
    if i < |front| {
      FirstIsFound(cs, front, i);
      assert front[i].name == es[i].name;
    }
  }

  lemma {:induction false} SeededFrom(indexes: seq<ManagedIndex>, c: Catalog)
    requires c in Seeded(indexes)
    ensures exists j | 0 <= j < |indexes| :: Seedable(indexes[j]) && c == Seed(indexes[j])
  {
    var front := indexes[..|indexes| - 1];
    if c in Seeded(front) {
      SeededFrom(front, c);
      var j :| 0 <= j < |front| && Seedable(front[j]) && c == Seed(front[j]);
      assert indexes[j] == front[j];
    } else {
      assert c == Seed(indexes[|indexes| - 1]);
    }
  }

  lemma {:induction false} SeededAt(indexes: seq<ManagedIndex>, i: nat) returns (k: nat)
    requires i < |indexes| && Seedable(indexes[i])
    requires forall j | 0 <= j < i :: !Seedable(indexes[j]) || indexes[j].name != indexes[i].name
    ensures k < |Seeded(indexes)| && Seeded(indexes)[k] == Seed(indexes[i])
    ensures forall j | 0 <= j < k :: Seeded(indexes)[j].name != indexes[i].name
  {
    var front := indexes[..|indexes| - 1];
    if i < |front| {
      k := SeededAt(front, i);
      assert forall j | 0 <= j <= k :: Seeded(indexes)[j] == Seeded(front)[j];
    } else {
      k := |Seeded(front)|;
      forall j | 0 <= j < k
        ensures Seeded(front)[j].name != indexes[i].name
      {
        SeededFrom(front, Seeded(front)[j]);
      }
    }
  }

  /** What the base holds under a name is found there in the whole registry. */
  lemma BaseIsFound(env: Env, file: seq<Catalog>, name: string)
    requires FileOK(file) && Taken(Base(env), name)
    ensures Find(CatalogNameOf, Load(env, file), name) == Find(CatalogNameOf, Base(env), name)
  {
    LoadShape(env, file);
    var base, reg := Base(env), Load(env, file);
    var i := FirstIndex(CatalogNameOf, base, name);
    assert base[i] == reg[i];
    forall j | 0 <= j < i
      ensures CatalogNameOf(reg[j]) != name
    {
      assert reg[j] == base[j];
    }
    FirstIndexUnique(CatalogNameOf, reg, name, i);
  }

  /**
    A name that managed configuration seeds belongs to the first index that seeds it, with its
    source, description and owner, enabled, whatever the user's file says.
   */
  lemma ManagedWins(env: Env, file: seq<Catalog>, i: nat)
    requires FileOK(file) && i < |env.indexes| && env.indexes[i].source != "" && ValidCatalogName(env.indexes[i].name)
    requires forall j | 0 <= j < i && env.indexes[j].name == env.indexes[i].name :: env.indexes[j].source == ""
    ensures var mi := env.indexes[i];
            Find(CatalogNameOf, Load(env, file), mi.name) ==
              Some(Catalog(mi.name, mi.source, CustomType, 0, 0, mi.description, mi.owner, "", true, false, ""))
  {
    var k := SeededAt(env.indexes, i);
    FirstIsFound([OfficialCatalog(env)], Seeded(env.indexes), k);
    BaseIsFound(env, file, env.indexes[i].name);
  }

  lemma {:induction false} KeptAt(file: seq<Catalog>, i: nat) returns (k: nat)
    requires i < |file| && !NamedOfficial(file[i]) && forall j | 0 <= j < i :: file[j].name != file[i].name
    ensures var kept := Keep(NotNamedOfficial(), file);
            k < |kept| && kept[k] == file[i] && forall j | 0 <= j < k :: kept[j].name != file[i].name
  {
    k := KeepPlace(NotNamedOfficial(), file, i);
    var kept := Keep(NotNamedOfficial(), file);
    forall j | 0 <= j < k
      ensures kept[j].name != file[i].name
    {
      assert kept[j] == kept[..k][j];
      KeepMember(NotNamedOfficial(), file[..i], kept[j]);
    }
  }

  lemma {:induction false} MarkedFound(env: Env, cs: seq<Catalog>, name: string)
    ensures Find(CatalogNameOf, MarkedAll(env, cs), name) ==
              var c := Find(CatalogNameOf, cs, name); if c.Some? then Some(Marked(env, c.value)) else None
  {
    var marked, i := MarkedAll(env, cs), FirstIndex(CatalogNameOf, cs, name);
    if i < |cs| {
      assert CatalogNameOf(marked[i]) == name;
      forall j | 0 <= j < i
        ensures CatalogNameOf(marked[j]) != name
      {
        assert CatalogNameOf(cs[j]) != name;
      }
      FirstIndexUnique(CatalogNameOf, marked, name, i);
    } else {
      MarkedKeepsNames(env, cs, name);
    }
  }

  lemma NotInBase(env: Env, name: string)
    requires name != OFFICIAL && forall mi | mi in env.indexes && mi.name == name :: !Seedable(mi)
    ensures !Taken(Base(env), name)
  {
    TakenAfterAll([OfficialCatalog(env)], Seeded(env.indexes), name);
    if j :| 0 <= j < |Seeded(env.indexes)| && Seeded(env.indexes)[j].name == name {
      SeededFrom(env.indexes, Seeded(env.indexes)[j]);
    }
  }

  lemma MarkedUser(env: Env, c: Catalog)
    requires c == Plain(c) && c.name !in {"datum", "default"}
    ensures !NamedOfficial(c)
    ensures Marked(env, c) ==
              if Permits(env.allowed, c.name, Classify(env.machine, c.source)) then c else c.(disabled := true, disabledReason := DISABLED_REASON)
  {
  }

  /**
    Any other name belongs to the first entry of the user's file that has it, as it stands there
    but for the mark that its source is not permitted.
   */
  lemma UserEntryFound(env: Env, file: seq<Catalog>, i: nat)
    requires FileOK(file) && i < |file| && file[i].name !in {"datum", "default"}
    requires forall mi | mi in env.indexes && mi.name == file[i].name :: mi.source == "" || !ValidCatalogName(mi.name)
    requires forall j | 0 <= j < i :: file[j].name != file[i].name
    ensures var c, permitted := file[i], Permits(env.allowed, file[i].name, Classify(env.machine, file[i].source));
            Find(CatalogNameOf, Load(env, file), c.name) == Some(if permitted then c else c.(disabled := true, disabledReason := DISABLED_REASON))
  {
    assert file[i] in file;
    MarkedUser(env, file[i]);
    var k := KeptAt(file, i);
    NotInBase(env, file[i].name);
    FirstIsFound(Base(env), Keep(NotNamedOfficial(), file), k);
    MarkedFound(env, AddAllNew(Base(env), Keep(NotNamedOfficial(), file)), file[i].name);
  }

  // ---- Which catalogs carry the official badge ----

  /** The entry makes it into the registry: its name is neither there already nor that of an earlier entry. */
  predicate Survives(cs: seq<Catalog>, es: seq<Catalog>, i: nat)
    requires i < |es|
  {
    !Taken(cs, es[i].name) && forall j | 0 <= j < i :: es[j].name != es[i].name
  }

  lemma SurvivesFront(cs: seq<Catalog>, front: seq<Catalog>, last: Catalog, c: Catalog)
    ensures var es := front + [last];
            (exists i | 0 <= i < |es| :: es[i] == c && Survives(cs, es, i)) <==>
              || (exists i | 0 <= i < |front| :: front[i] == c && Survives(cs, front, i))
              || (last == c && Survives(cs, es, |front|))
  {
    var es := front + [last];
    forall i | 0 <= i < |front|
      ensures es[i] == front[i] && (Survives(cs, front, i) <==> Survives(cs, es, i))
    {
      assert forall j | 0 <= j <= i :: es[j] == front[j];
    }
  }

  lemma {:induction false} AddedSurvive(cs: seq<Catalog>, es: seq<Catalog>, c: Catalog)
    ensures c in AddAllNew(cs, es) <==> c in cs || exists i | 0 <= i < |es| :: es[i] == c && Survives(cs, es, i)
  {
    if es == [] {
    } else {
      var front, last := es[..|es| - 1], es[|es| - 1];
      assert es == front + [last];
      AddedSurvive(cs, front, c);
      TakenAfterAll(cs, front, last.name);
      SurvivesFront(cs, front, last, c);
      assert Survives(cs, es, |front|) <==> !Taken(AddAllNew(cs, front), last.name);
    }
  }

  lemma {:induction false} SeededKind(indexes: seq<ManagedIndex>)
    ensures forall c | c in Seeded(indexes) :: c.kind == CustomType
  {
    if indexes == [] {
    } else {
      SeededKind(indexes[..|indexes| - 1]);
    }
  }

  lemma BaseKind(env: Env, i: nat)
    requires 0 < i < |Base(env)|
    ensures Base(env)[i].kind == CustomType
  {
    SeededKind(env.indexes);
    AddAllNewShape([OfficialCatalog(env)], Seeded(env.indexes));
    assert Base(env)[i] == Base(env)[1..][i - 1];
  }

  lemma NotInBoth(base: seq<Catalog>, own: seq<Catalog>, c: Catalog)
    requires DistinctKeys(CatalogNameOf, base + own)
    ensures !(c in base && c in own)
  {
    forall i, j | 0 <= i < |base| && 0 <= j < |own|
      ensures base[i] != own[j]
    {
      assert CatalogNameOf((base + own)[i]) != CatalogNameOf((base + own)[|base| + j]);
    }
  }

  lemma {:induction false} OwnSurvive(env: Env, file: seq<Catalog>, c: Catalog)
    ensures var kept := Keep(NotNamedOfficial(), file);
            c in Own(env, file) <==> exists i | 0 <= i < |kept| :: kept[i] == c && Survives(Base(env), kept, i)
  {
    var base, own, kept := Base(env), Own(env, file), Keep(NotNamedOfficial(), file);
    OwnSplits(env, file);
    AddedSurvive(base, kept, c);
    TakenIff(base, c.name);
    if c in own && c in base {
      NotInBoth(base, own, c);
    }
  }

  /** Only the first catalog is of the official kind, which decides its badge. */
  ghost predicate OneBadge(reg: seq<Catalog>) {
    forall i | 0 < i < |reg| :: reg[i].kind == CustomType
  }

  lemma BadgesSplit(env: Env, base: seq<Catalog>, own: seq<Catalog>)
    requires base != [] && OneBadge(base)
    ensures OneBadge(base + MarkedAll(env, own)) <==> forall c | c in own :: c.kind == CustomType
  {
    var reg := base + MarkedAll(env, own);
    forall j | 0 <= j < |own|
      ensures reg[|base| + j].kind == own[j].kind
    {
    }
  }

  ghost predicate BadgeSurvives(base: seq<Catalog>, kept: seq<Catalog>) {
    exists i | 0 <= i < |kept| :: kept[i].kind == OfficialType && Survives(base, kept, i)
  }

  lemma {:induction false} OwnBadges(env: Env, file: seq<Catalog>)
    ensures (forall c | c in Own(env, file) :: c.kind == CustomType) <==> !BadgeSurvives(Base(env), Keep(NotNamedOfficial(), file))
  {
    var own, kept := Own(env, file), Keep(NotNamedOfficial(), file);
    if i :| 0 <= i < |kept| && kept[i].kind == OfficialType && Survives(Base(env), kept, i) {
      OwnSurvive(env, file, kept[i]);
    }
    forall c | c in own && c.kind == OfficialType
      ensures BadgeSurvives(Base(env), kept)
    {
      OwnSurvive(env, file, c);
    }
  }

  /** The official badge is given once exactly when no entry of the official kind in the user's file survives: kinds are not checked. */
  lemma {:induction false} OfficialBadgeOnceIff(env: Env, file: seq<Catalog>)
    requires FileOK(file)
    ensures OneBadge(Load(env, file)) <==> !BadgeSurvives(Base(env), Keep(NotNamedOfficial(), file))
  {
    LoadShape(env, file);
    BaseShape(env);
    forall i | 0 < i < |Base(env)|
      ensures Base(env)[i].kind == CustomType
    {
      BaseKind(env, i);
    }
    BadgesSplit(env, Base(env), Own(env, file));
    OwnBadges(env, file);
  }

  // ---- Saving and loading again ----

  lemma PlainMarked(env: Env, cs: seq<Catalog>)
    requires forall c | c in cs :: c == Plain(c) && !Exempt(c)
    ensures Keep(IsCustom(), MarkedAll(env, cs)) == MarkedAll(env, cs)
    ensures Save(MarkedAll(env, cs)) == cs
  {
    var marked := MarkedAll(env, cs);
    forall c | c in marked
      ensures IsCustom()(c)
    {
      var i :| 0 <= i < |marked| && marked[i] == c;
      assert cs[i] in cs;
    }
    KeepAll(IsCustom(), marked);
    forall i | 0 <= i < |cs|
      ensures Plain(marked[i]) == cs[i]
    {
      assert cs[i] in cs;
    }
  }

  /** Saving a registry made of what is always there and marked catalogs of the user's writes the latter, unmarked. */
  lemma SavedBaseAndOwn(env: Env, own: seq<Catalog>)
    requires forall c | c in own :: c == Plain(c) && !Exempt(c)
    ensures Save(Base(env) + MarkedAll(env, own)) == own
  {
    BaseExempt(env);
    KeepNothing(IsCustom(), Base(env));
    KeepConcat(IsCustom(), Base(env), MarkedAll(env, own));
    PlainMarked(env, own);
    assert [] + MarkedAll(env, own) == MarkedAll(env, own);
  }

  /** Saving writes exactly the user's own catalogs. */
  lemma SavedIsOwn(env: Env, file: seq<Catalog>)
    requires FileOK(file)
    ensures Save(Load(env, file)) == Own(env, file) && FileOK(Own(env, file))
  {
    LoadShape(env, file);
    SavedBaseAndOwn(env, Own(env, file));
  }

  /** Own catalogs with names of their own are loaded as they are. */
  lemma LoadOwn(env: Env, own: seq<Catalog>)
    requires FileOK(own) && forall c | c in own :: !NamedOfficial(c)
    requires DistinctKeys(CatalogNameOf, Base(env) + own)
    ensures Load(env, own) == Base(env) + MarkedAll(env, own)
  {
    KeepAll(NotNamedOfficial(), own);
    AddAllNewDistinct(Base(env), own);
    LoadShape(env, own);
  }

  /** An entry of the user's that claims to be official is loaded with the official badge, and enabled. */
  lemma SecondBadgeExample(env: Env) returns (file: seq<Catalog>)
    requires env.indexes == [] && env.allowed == []
    ensures FileOK(file) && |Load(env, file)| == 2
    ensures Load(env, file)[1].name == "acme" && Load(env, file)[1].kind == OfficialType && !Load(env, file)[1].disabled
  {
    var c := Catalog("acme", "acme/plugins", OfficialType, 0, 0, "", "", "", false, false, "");
    file := [c];
    assert Base(env) == [OfficialCatalog(env)];
    assert OFFICIAL[0] != c.name[0];
    LoadOwn(env, file);
  }

  /** Under a fixed managed configuration, saving and loading again gives the same registry. */
  lemma LoadSaveLoad(env: Env, file: seq<Catalog>)
    requires FileOK(file)
    ensures Load(env, Save(Load(env, file))) == Load(env, file)
  {
    SavedIsOwn(env, file);
    LoadShape(env, file);
    LoadOwn(env, Own(env, file));
  }

  // ---- index add and index remove ----

  /** Whether a third-party catalog is trusted: not asked with --yes, no answer, or the line typed. */
  datatype Trust = Assumed | Unanswered | Answered(line: string)

  predicate Trusted(t: Trust) {
    t.Assumed? || (t.Answered? && Normal(t.line) in {"y", "yes"})
  }

  /** The identity block of a catalog manifest; every part is optional. */
  datatype Header = Header(description: string, owner: string, homepage: string)

  /** An `index add`: its arguments, the trust decision, and the header fetched afterwards, if any. */
  datatype AddRequest = AddRequest(name: string, source: string, trust: Trust, now: int, fetched: Option<Header>, fetchedAt: int)

  function NewCatalog(rq: AddRequest): Catalog {
    Catalog(rq.name, rq.source, CustomType, rq.now, 0, "", "", "", false, false, "")
  }

  function WithHeader(c: Catalog, h: Header, now: int): Catalog {
    c.(description := if h.description != "" then h.description else c.description,
       owner := if h.owner != "" then h.owner else c.owner,
       homepage := if h.homepage != "" then h.homepage else c.homepage,
       lastUpdated := now)
  }

  function Added(rq: AddRequest): Catalog {
    if rq.fetched.Some? then WithHeader(NewCatalog(rq), rq.fetched.value, rq.fetchedAt) else NewCatalog(rq)
  }

  /** `index add`: the registry it ends with, or None when the command refuses. */
  function Add(env: Env, file: seq<Catalog>, rq: AddRequest): Option<seq<Catalog>> {
    var reg := Load(env, file);
    if !ValidCatalogName(rq.name) then None
    else if ResolveCatalogSource(env.machine, rq.source).Malformed? then None
    else if Find(CatalogNameOf, reg, CanonicalCatalogName(rq.name)).Some? then None
    else if !Permits(env.allowed, rq.name, Classify(env.machine, rq.source)) then None
    else if !Trusted(rq.trust) then None
    else Some(reg + [Added(rq)])
  }

  function Differs(name: string): Catalog -> bool {
    (c: Catalog) => c.name != name
  }

  function Remove(env: Env, file: seq<Catalog>, name: string): Option<seq<Catalog>> {
    var reg := Load(env, file);
    var c := Find(CatalogNameOf, reg, CanonicalCatalogName(name));
    if CanonicalCatalogName(name) == OFFICIAL || c.None? || c.value.managed then None
    else Some(Keep(Differs(name), reg))
  }

  lemma DistinctSnoc(cs: seq<Catalog>, c: Catalog)
    requires DistinctKeys(CatalogNameOf, cs) && !Taken(cs, c.name)
    ensures DistinctKeys(CatalogNameOf, cs + [c])
  {
  }

  lemma ValidIsOrdinary(name: string)
    requires ValidCatalogName(name)
    ensures CanonicalCatalogName(name) == name && name != OFFICIAL
  {
  }

  lemma AddedSave(env: Env, file: seq<Catalog>, c: Catalog)
    requires FileOK(file) && c == Plain(c) && !Exempt(c)
    ensures Save(Load(env, file) + [c]) == Own(env, file) + [c]
  {
    SavedIsOwn(env, file);
    KeepSnoc(IsCustom(), Load(env, file), c);
  }

  lemma AddedDistinct(env: Env, file: seq<Catalog>, c: Catalog)
    requires FileOK(file) && !Taken(Load(env, file), c.name)
    ensures DistinctKeys(CatalogNameOf, Base(env) + (Own(env, file) + [c]))
  {
    var both := Base(env) + Own(env, file);
    OwnShape(env, file);
    MarkedKeepsNames(env, both, c.name);
    DistinctSnoc(both, c);
    Assoc(Base(env), Own(env, file), [c]);
  }

  lemma MarkedSnoc(env: Env, cs: seq<Catalog>, c: Catalog)
    ensures MarkedAll(env, cs + [c]) == MarkedAll(env, cs) + [Marked(env, c)]
  {
  }

  lemma AddedLoad(env: Env, file: seq<Catalog>, c: Catalog)
    requires FileOK(file) && c == Plain(c) && !Exempt(c) && !Taken(Load(env, file), c.name)
    ensures Load(env, Own(env, file) + [c]) == Load(env, file) + [Marked(env, c)]
  {
    var own := Own(env, file);
    AddedDistinct(env, file, c);
    LoadShape(env, file);
    LoadOwn(env, own + [c]);
    MarkedSnoc(env, own, c);
    Assoc(Base(env), MarkedAll(env, own), [Marked(env, c)]);
  }

  lemma FoundIff(cs: seq<Catalog>, name: string)
    ensures Find(CatalogNameOf, cs, name).Some? <==> exists c :: c in cs && c.name == name
    ensures Find(CatalogNameOf, cs, name).Some? ==>
              Find(CatalogNameOf, cs, name).value in cs && Find(CatalogNameOf, cs, name).value.name == name
  {
    TakenIff(cs, name);
  }

  /** `index add` succeeds exactly for a valid new name with a usable and permitted source that was vouched for with --yes or a typed y or yes. */
  lemma AddSucceedsIff(env: Env, file: seq<Catalog>, rq: AddRequest)
    ensures Add(env, file, rq).Some? <==>
              && ValidCatalogName(rq.name) && (forall c | c in Load(env, file) :: c.name != rq.name)
              && !ResolveCatalogSource(env.machine, rq.source).Malformed?
              && Permits(env.allowed, rq.name, Classify(env.machine, rq.source))
              && (rq.trust == Assumed || exists line :: rq.trust == Answered(line) && Normal(line) in {"y", "yes"})
  {
    FoundIff(Load(env, file), rq.name);
    if ValidCatalogName(rq.name) {
      ValidIsOrdinary(rq.name);
    }
  }

  /** How the line typed at the prompt is read. */
  lemma LinesRead()
    ensures Normal("") == "" && Normal("\n") == "" && Normal("n\n") == "n" && Normal("y\n") == "y" && Normal(" Yes\n") == "yes"
  {
    assert TrimSpace("\n"[1..]) == "";
    TrimSpaceIs("", "n", "\n");
    TrimSpaceIs("", "y", "\n");
    TrimSpaceIs(" ", "Yes", "\n");
    assert "" + "n" + "\n" == "n\n" && "" + "y" + "\n" == "y\n" && " " + "Yes" + "\n" == " Yes\n";
  }

  lemma NamesRefused(name: string)
    requires name in {"", "datum", "default", "official"} || HasPrefix(name, "-") || '.' in name || '/' in name
    ensures !ValidCatalogName(name)
  {
    if HasPrefix(name, "-") {
      assert name[0] == name[..1][0] == '-';
    }
  }

  /**
    No answer, an empty line and a typed n are all refusals, and a plain http source, a reserved
    name or one that reads like a flag, a host or a path is refused whatever is answered.
   */
  lemma AddRefuses(env: Env, file: seq<Catalog>, rq: AddRequest)
    ensures rq.trust in {Unanswered, Answered(""), Answered("\n"), Answered("n\n")} ==> Add(env, file, rq).None?
    ensures HasPrefix(rq.source, "http://") ==> Add(env, file, rq).None?
    ensures rq.name in {"", "datum", "default", "official"} || HasPrefix(rq.name, "-") || '.' in rq.name || '/' in rq.name ==>
              Add(env, file, rq).None?
  {
    LinesRead();
    assert "n"[0] == 'n' && "y"[0] == 'y' && "yes"[0] == 'y';
    if HasPrefix(rq.source, "http://") {
      PlainHttpRefused(env.machine, rq.source[7..]);
      assert rq.source == "http://" + rq.source[7..];
    }
    if rq.name in {"", "datum", "default", "official"} || HasPrefix(rq.name, "-") || '.' in rq.name || '/' in rq.name {
      NamesRefused(rq.name);
    }
  }

  /** `index remove` succeeds exactly for a catalog that is there and neither official nor managed. */
  lemma RemoveSucceedsIff(env: Env, file: seq<Catalog>, name: string)
    requires FileOK(file)
    ensures Remove(env, file, name).Some? <==> name !in {"datum", "default"} && exists c :: c in Load(env, file) && c.name == name && !c.managed
  {
    FoundIff(Load(env, file), CanonicalCatalogName(name));
    LoadedRegistry(env, file);
    if c :| c in Load(env, file) && c.name == name && !c.managed {
      var d := Find(CatalogNameOf, Load(env, file), name).value;
      assert CatalogNameOf(c) == CatalogNameOf(d);
    }
  }

  /** After a successful add the next load shows the same registry with the new catalog, enabled, at its end. */
  lemma AddThenLoad(env: Env, file: seq<Catalog>, rq: AddRequest)
    requires FileOK(file) && Add(env, file, rq).Some?
    ensures Load(env, Save(Add(env, file, rq).value)) == Load(env, file) + [Added(rq)]
    ensures var h := if rq.fetched.Some? then rq.fetched.value else Header("", "", "");
            var at := if rq.fetched.Some? then rq.fetchedAt else 0;
            Added(rq) == Catalog(rq.name, rq.source, CustomType, rq.now, at, h.description, h.owner, h.homepage, false, false, "")
  {
    ValidIsOrdinary(rq.name);
    AddedSave(env, file, Added(rq));
    AddedLoad(env, file, Added(rq));
  }

  lemma {:induction false} RemovedNext(env: Env, front: seq<Catalog>, last: Catalog, name: string)
    requires Keep(Differs(name), MarkedAll(env, front)) == MarkedAll(env, Keep(Differs(name), front))
    ensures Keep(Differs(name), MarkedAll(env, front + [last])) == MarkedAll(env, Keep(Differs(name), front + [last]))
  {
    MarkedSnoc(env, front, last);
    KeepSnoc(Differs(name), MarkedAll(env, front), Marked(env, last));
    KeepSnoc(Differs(name), front, last);
    MarkedSnoc(env, Keep(Differs(name), front), last);
  }

  /** Marking does not touch names, so it does not matter whether a name is removed before or after. */
  lemma {:induction false} RemovedMarked(env: Env, own: seq<Catalog>, name: string)
    ensures Keep(Differs(name), MarkedAll(env, own)) == MarkedAll(env, Keep(Differs(name), own))
  {
    if own == [] {
    } else {
      var front, last := own[..|own| - 1], own[|own| - 1];
      RemovedMarked(env, front, name);
      RemovedNext(env, front, last, name);
      assert own == front + [last];
    }
  }

  /** A name that can be removed is not one of those that are always there. */
  lemma RemovableIsOwn(env: Env, file: seq<Catalog>, name: string)
    requires FileOK(file) && Remove(env, file, name).Some?
    ensures forall c | c in Base(env) :: c.name != name
  {
    var base, reg := Base(env), Load(env, file);
    LoadShape(env, file);
    BaseShape(env);
    LoadedRegistry(env, file);
    var i := FirstIndex(CatalogNameOf, reg, name);
    forall c | c in base
      ensures c.name != name
    {
      var j :| 0 <= j < |base| && base[j] == c;
      assert reg[j] == c;
      if j != i {
        assert CatalogNameOf(reg[j]) != CatalogNameOf(reg[i]);
      }
    }
  }

  lemma {:induction false} LeftDistinct(base: seq<Catalog>, own: seq<Catalog>, name: string)
    requires DistinctKeys(CatalogNameOf, base + own) && forall c | c in base :: c.name != name
    ensures DistinctKeys(CatalogNameOf, base + Keep(Differs(name), own))
  {
    KeepDistinct(CatalogNameOf, Differs(name), base + own);
    KeepConcat(Differs(name), base, own);
    KeepAll(Differs(name), base);
  }

  lemma RemovedLoad(env: Env, file: seq<Catalog>, name: string)
    requires FileOK(file) && forall c | c in Base(env) :: c.name != name
    ensures var left := Keep(Differs(name), Own(env, file));
            && Load(env, left) == Base(env) + MarkedAll(env, left)
            && Save(Base(env) + MarkedAll(env, left)) == left
  {
    var own := Own(env, file);
    OwnShape(env, file);
    KeepMembers(Differs(name), own);
    LeftDistinct(Base(env), own, name);
    LoadOwn(env, Keep(Differs(name), own));
    SavedBaseAndOwn(env, Keep(Differs(name), own));
  }

  /** After a successful remove the next load shows the same registry without that name. */
  lemma RemoveThenLoad(env: Env, file: seq<Catalog>, name: string)
    requires FileOK(file) && Remove(env, file, name).Some?
    ensures Load(env, Save(Remove(env, file, name).value)) == Keep(Differs(name), Load(env, file))
    ensures forall c | c in Load(env, Save(Remove(env, file, name).value)) :: c.name != name
  {
    var base, own, reg := Base(env), Own(env, file), Load(env, file);
    LoadShape(env, file);
    RemovableIsOwn(env, file, name);
    KeepAll(Differs(name), base);
    KeepConcat(Differs(name), base, MarkedAll(env, own));
    RemovedMarked(env, own, name);
    RemovedLoad(env, file, name);
    KeepMembers(Differs(name), reg);
  }

  /** A catalog appended under a new name is the one found by it. */
  lemma {:induction false} NewIsFound(reg: seq<Catalog>, c: Catalog)
    requires !Taken(reg, c.name)
    ensures FirstIndex(CatalogNameOf, reg + [c], c.name) == |reg|
  {
    assert (reg + [c])[|reg|] == c;
    forall i | 0 <= i < |reg|
      ensures CatalogNameOf((reg + [c])[i]) != c.name
    {
      TakenIff(reg, c.name);
      assert (reg + [c])[i] == reg[i] && reg[i] in reg;
    }
    FirstIndexUnique(CatalogNameOf, reg + [c], c.name, |reg|);
  }

  lemma {:induction false} NewIsDropped(reg: seq<Catalog>, c: Catalog)
    requires !Taken(reg, c.name)
    ensures Keep(Differs(c.name), reg + [c]) == reg
  {
    KeepSnoc(Differs(c.name), reg, c);
    TakenIff(reg, c.name);
    KeepAll(Differs(c.name), reg);
  }

  /** Adding a catalog and removing it again leaves the registry as it was. */
  lemma AddRemoveCancel(env: Env, file: seq<Catalog>, rq: AddRequest)
    requires FileOK(file) && Add(env, file, rq).Some?
    ensures var added := Save(Add(env, file, rq).value);
            && FileOK(added)
            && Remove(env, added, rq.name).Some?
            && Load(env, Save(Remove(env, added, rq.name).value)) == Load(env, file)
  {
    var c, reg := Added(rq), Load(env, file);
    var added := Save(Add(env, file, rq).value);
    ValidIsOrdinary(rq.name);
    AddThenLoad(env, file, rq);
    assert FileOK(added);
    NewIsFound(reg, c);
    RemoveThenLoad(env, added, rq.name);
    NewIsDropped(reg, c);
  }

  // ---- The registry object ----

  lemma SaveSnoc(cs: seq<Catalog>, c: Catalog)
    ensures Save(cs + [c]) == Save(cs) + if Exempt(c) then [] else [Plain(c)]
  {
    KeepSnoc(IsCustom(), cs, c);
  }

  class Registry {
    var catalogs: seq<Catalog>

    constructor ()
      ensures catalogs == []
    {
      catalogs := [];
    }

    /** Marks, in place, every user-registered catalog whose source the allow-list no longer permits. */
    method ApplyAllowList(env: Env)
      requires MachineOK(env.machine)
      modifies this
      ensures catalogs == MarkedAll(env, old(catalogs))
    {
      for i := 0 to |catalogs|
        invariant |catalogs| == |old(catalogs)|
        invariant catalogs[i..] == old(catalogs)[i..]
        invariant forall j | 0 <= j < i :: catalogs[j] == Marked(env, old(catalogs)[j])
      {
        assert catalogs[i] == catalogs[i..][0] && old(catalogs)[i] == old(catalogs)[i..][0];
        var c := catalogs[i];
        if c.managed || CanonicalCatalogName(c.name) == OFFICIAL {
          continue;
        }
        var allowed := IsAllowed(env.machine, env.allowed, c.name, c.source);
        if !allowed {
          catalogs := catalogs[i := c.(disabled := true, disabledReason := DISABLED_REASON)];
        }
      }
    }

    method Find(name: string) returns (r: Option<Catalog>)
      ensures r == KeyedList.Find(CatalogNameOf, catalogs, CanonicalCatalogName(name))
    {
      var canonical := CanonicalCatalogName(name);
      for i := 0 to |catalogs|
        invariant forall j | 0 <= j < i :: catalogs[j].name != canonical
      {
        if catalogs[i].name == canonical {
          FirstIndexUnique(CatalogNameOf, catalogs, canonical, i);
          return Some(catalogs[i]);
        }
      }
      return None;
    }

    /** What is written to the file. */
    method SaveRegistry() returns (file: seq<Catalog>)
      ensures file == Save(catalogs)
    {
      file := [];
      for i := 0 to |catalogs|
        invariant file == Save(catalogs[..i])
      {
        var c := catalogs[i];
        SaveSnoc(catalogs[..i], c);
        assert catalogs[..i + 1] == catalogs[..i] + [c];
        if CanonicalCatalogName(c.name) == OFFICIAL || c.managed {
          continue;
        }
        file := file + [Plain(c)];
      }
      assert catalogs[..|catalogs|] == catalogs;
    }

    /** Copies what the manifest says about itself into the entry of that name. */
    method UpdateHeader(name: string, h: Header, now: int)
      modifies this
      ensures var i := FirstIndex(CatalogNameOf, old(catalogs), CanonicalCatalogName(name));
              catalogs == if i < |old(catalogs)| then old(catalogs)[i := WithHeader(old(catalogs)[i], h, now)] else old(catalogs)
    {
      var canonical := CanonicalCatalogName(name);
      for i := 0 to |catalogs|
        invariant catalogs == old(catalogs)
        invariant forall j | 0 <= j < i :: catalogs[j].name != canonical
      {
        if catalogs[i].name == canonical {
          FirstIndexUnique(CatalogNameOf, catalogs, canonical, i);
          var c := catalogs[i];
          if h.description != "" {
            c := c.(description := h.description);
          }
          if h.owner != "" {
            c := c.(owner := h.owner);
          }
          if h.homepage != "" {
            c := c.(homepage := h.homepage);
          }
          catalogs := catalogs[i := c.(lastUpdated := now)];
          return;
        }
      }
    }

    method Drop(name: string)
      modifies this
      ensures catalogs == Keep(Differs(name), old(catalogs))
    {
      var kept: seq<Catalog> := [];
      for i := 0 to |catalogs|
        invariant catalogs == old(catalogs)
        invariant kept == Keep(Differs(name), catalogs[..i])
      {
        KeepNext(Differs(name), catalogs, i);
        if catalogs[i].name != name {
          kept := kept + [catalogs[i]];
        }
      }
      assert catalogs[..|catalogs|] == catalogs;
      catalogs := kept;
    }
  }

  method SeededCatalogs(indexes: seq<ManagedIndex>) returns (out: seq<Catalog>)
    ensures out == Seeded(indexes)
  {
    out := [];
    for i := 0 to |indexes|
      invariant out == Seeded(indexes[..i])
    {
      assert indexes[..i + 1][..i] == indexes[..i];
      if indexes[i].source == "" || !ValidCatalogName(indexes[i].name) {
        continue;
      }
      out := out + [Seed(indexes[i])];
    }
    assert indexes[..|indexes|] == indexes;
  }

  /** The set of names seen so far stands for the names in the list. */
  ghost predicate Tracks(seen: set<string>, cs: seq<Catalog>) {
    forall name :: name in seen <==> Taken(cs, name)
  }

  method AddUnseen(cs: seq<Catalog>, seen: set<string>, c: Catalog) returns (all: seq<Catalog>, names: set<string>)
    requires Tracks(seen, cs)
    ensures all == AddNew(cs, c) && Tracks(names, all)
  {
    if c.name in seen {
      return cs, seen;
    }
    TakenSnoc(cs, c);
    return cs + [c], seen + {c.name};
  }

  lemma {:induction false} AddAllNewNext(cs: seq<Catalog>, es: seq<Catalog>, c: Catalog)
    ensures AddAllNew(cs, es + [c]) == AddNew(AddAllNew(cs, es), c)
  {
  }

  method AddAllUnseen(cs: seq<Catalog>, seen: set<string>, es: seq<Catalog>) returns (all: seq<Catalog>, names: set<string>)
    requires Tracks(seen, cs)
    ensures all == AddAllNew(cs, es) && Tracks(names, all)
  {
    all, names := cs, seen;
    for i := 0 to |es|
      invariant all == AddAllNew(cs, es[..i])
      invariant Tracks(names, all)
    {
      AddAllNewNext(cs, es[..i], es[i]);
      assert es[..i + 1] == es[..i] + [es[i]];
      all, names := AddUnseen(all, names, es[i]);
    }
    assert es[..|es|] == es;
  }

  lemma {:induction false} AddUserNext(cs: seq<Catalog>, file: seq<Catalog>, i: nat)
    requires i < |file|
    ensures var before := AddAllNew(cs, Keep(NotNamedOfficial(), file[..i]));
            AddAllNew(cs, Keep(NotNamedOfficial(), file[..i + 1])) == if NamedOfficial(file[i]) then before else AddNew(before, file[i])
  {
    var kept := Keep(NotNamedOfficial(), file[..i]);
    KeepNext(NotNamedOfficial(), file, i);
    if NamedOfficial(file[i]) {
      assert Keep(NotNamedOfficial(), file[..i + 1]) == kept;
    } else {
      assert Keep(NotNamedOfficial(), file[..i + 1]) == kept + [file[i]];
      AddAllNewNext(cs, kept, file[i]);
    }
  }

  method AddUserCatalogs(cs: seq<Catalog>, seen: set<string>, file: seq<Catalog>) returns (all: seq<Catalog>)
    requires Tracks(seen, cs)
    ensures all == AddAllNew(cs, Keep(NotNamedOfficial(), file))
  {
    all := cs;
    var names := seen;
    for i := 0 to |file|
      invariant all == AddAllNew(cs, Keep(NotNamedOfficial(), file[..i]))
      invariant Tracks(names, all)
    {
      AddUserNext(cs, file, i);
      if CanonicalCatalogName(file[i].name) == OFFICIAL {
        continue;
      }
      all, names := AddUnseen(all, names, file[i]);
    }
    assert file[..|file|] == file;
  }

  method LoadRegistry(env: Env, file: seq<Catalog>) returns (reg: Registry)
    requires MachineOK(env.machine)
    ensures fresh(reg) && reg.catalogs == Load(env, file)
  {
    reg := new Registry();
    var official := OfficialCatalog(env);
    TakenSnoc([], official);
    assert [] + [official] == [official];
    var seeded := SeededCatalogs(env.indexes);
    var all, seen := AddAllUnseen([official], {official.name}, seeded);
    all := AddUserCatalogs(all, seen, file);
    reg.catalogs := all;
    reg.ApplyAllowList(env);
  }

  /** Append, save, and once more when a header could be fetched. */
  method Register(reg: Registry, rq: AddRequest) returns (saved: seq<Catalog>)
    requires !Taken(reg.catalogs, rq.name) && ValidCatalogName(rq.name)
    modifies reg
    ensures saved == Save(old(reg.catalogs) + [Added(rq)])
  {
    NewIsFound(reg.catalogs, NewCatalog(rq));
    ValidIsOrdinary(rq.name);
    reg.catalogs := reg.catalogs + [NewCatalog(rq)];
    saved := reg.SaveRegistry();
    if rq.fetched.Some? {
      reg.UpdateHeader(rq.name, rq.fetched.value, rq.fetchedAt);
      assert reg.catalogs == old(reg.catalogs) + [Added(rq)];
      saved := reg.SaveRegistry();
    }
  }

  /** `index add`: the file afterwards, or None when it refuses. */
  method IndexAdd(env: Env, file: seq<Catalog>, rq: AddRequest) returns (r: Option<seq<Catalog>>)
    requires MachineOK(env.machine)
    ensures r == if Add(env, file, rq).Some? then Some(Save(Add(env, file, rq).value)) else None
  {
    if !ValidCatalogName(rq.name) {
      return None;
    }
    var resolved := ResolveCatalogSource(env.machine, rq.source);
    if resolved.Malformed? {
      return None;
    }
    var reg := LoadRegistry(env, file);
    var existing := reg.Find(rq.name);
    if existing.Some? {
      return None;
    }
    var allowed := IsAllowed(env.machine, env.allowed, rq.name, rq.source);
    if !allowed {
      return None;
    }
    if !rq.trust.Assumed? {
      if rq.trust.Unanswered? || Normal(rq.trust.line) !in {"y", "yes"} {
        return None;
      }
    }
    var saved := Register(reg, rq);
    return Some(saved);
  }

  /** `index remove`: the file afterwards, or None when it refuses. */
  method IndexRemove(env: Env, file: seq<Catalog>, name: string) returns (r: Option<seq<Catalog>>)
    requires MachineOK(env.machine)
    ensures r == if Remove(env, file, name).Some? then Some(Save(Remove(env, file, name).value)) else None
  {
    if CanonicalCatalogName(name) == OFFICIAL {
      return None;
    }
    var reg := LoadRegistry(env, file);
    var c := reg.Find(name);
    if c.None? || c.value.managed {
      return None;
    }
    reg.Drop(name);
    var saved := reg.SaveRegistry();
    return Some(saved);
  }
}
