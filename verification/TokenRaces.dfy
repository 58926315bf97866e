/**
  The persisting token source again, with its refresh cut in two. The mutex belongs to one
  source: between reading the keyring and writing the refreshed token back, a logout or
  login of another process, or another source, can come in.
 */
module TokenRaces {
  import opened Text
  import opened TokenSources

  /** Sources that have sent a refresh, with the credentials they will write when it is answered. */
  datatype World = World(entry: Entry, sources: map<nat, Credentials>, inFlight: map<nat, Credentials>)

  datatype Step =
    | Begin(source: nat, now: int, refresh: Credentials -> Refresh)   // up to the answer of the token endpoint
    | Finish(source: nat, persisted: bool)                            // from there to the end of the call
    | OpenSource(source: nat)
    | LogIn(creds: Credentials)
    | LogOut

  /** What a call that reads these credentials is going to write, if the endpoint grants it a new token. */
  function Renewed(read: Credentials, refresh: Credentials -> Refresh): Option<Credentials> {
    match refresh(read)
    case Refused(_) => None
    case Granted(token) => if token.access == read.token.access then None else Some(read.(token := token))
  }

  predicate Reads(w: World, a: Step) {
    a.Begin? && a.source in w.sources && a.source !in w.inFlight && !Valid(w.sources[a.source].token, a.now) && w.entry.Stored?
  }

  /** The call reads expired credentials from the keyring and is granted a new token for them. */
  predicate Refreshes(w: World, a: Step) {
    Reads(w, a) && !Valid(w.entry.creds.token, a.now) && Renewed(w.entry.creds, a.refresh).Some?
  }

  function Take(w: World, a: Step): World {
    match a
    case Begin(p, _, refresh) =>
      if Refreshes(w, a) then w.(sources := w.sources[p := w.entry.creds], inFlight := w.inFlight[p := Renewed(w.entry.creds, refresh).value])
      else if Reads(w, a) then w.(sources := w.sources[p := w.entry.creds])
      else w
    case Finish(p, persisted) =>
      if p !in w.inFlight then w
      else World(if persisted then Stored(w.inFlight[p]) else w.entry, w.sources[p := w.inFlight[p]], w.inFlight - {p})
    case OpenSource(p) => if w.entry.Stored? && p !in w.inFlight then w.(sources := w.sources[p := w.entry.creds]) else w
    case LogIn(creds) => w.(entry := Stored(creds))
    case LogOut => w.(entry := Missing)
  }

  function TakeAll(w: World, steps: seq<Step>): World {
    if steps == [] then w else Take(TakeAll(w, steps[..|steps| - 1]), steps[|steps| - 1])
  }

  ghost predicate NoLogIn(steps: seq<Step>) {
    forall a | a in steps :: !a.LogIn?
  }

  /** The token a call returns: it is settled in the first step, whatever other processes do before the second. */
  function Returns(w: World, a: Step): Option<Token>
    requires a.Begin?
  {
    if a.source !in w.sources || a.source in w.inFlight then None
    else if Valid(w.sources[a.source].token, a.now) then Some(w.sources[a.source].token)
    else if !w.entry.Stored? then None
    else if Valid(w.entry.creds.token, a.now) then Some(w.entry.creds.token)
    else
      match a.refresh(w.entry.creds)
      case Refused(_) => None
      case Granted(token) => Some(token)
  }

  // ---- Uninterrupted, the two halves are the call ----

  function Quiet(s: Shared): World {
    World(s.entry, s.sources, map[])
  }

  /** A call whose two halves follow each other is the atomic one, in what it leaves behind. */
  lemma HalvesMakeCall(s: Shared, p: nat, now: int, refresh: Credentials -> Refresh, persisted: bool)
    ensures Take(Take(Quiet(s), Begin(p, now, refresh)), Finish(p, persisted)) == Quiet(Do(s, Call(p, now, refresh, persisted)))
  {
    var w := Take(Quiet(s), Begin(p, now, refresh));
    if p in w.inFlight {
      assert map[p := w.inFlight[p]] - {p} == map[];
    }
  }

  // ---- Logout ----

  lemma {:induction false} GoneStaysGone(w: World, steps: seq<Step>)
    requires w.entry == Missing && w.inFlight == map[]
    requires NoLogIn(steps)
    ensures TakeAll(w, steps) == w
  {
    if steps == [] {
    } else {
      var front := steps[..|steps| - 1];
      assert steps[|steps| - 1] in steps && forall a | a in front :: a in steps;
      GoneStaysGone(w, front);
    }
  }

  lemma {:induction false} TakeOne(w: World, a: Step)
    ensures TakeAll(w, [a]) == Take(w, a)
  {
    assert [a][..0] == [];
  }

  /** After a logout nothing is put back before the next login if and only if no refresh was in flight. */
  lemma LogoutSticksIff(w: World)
    ensures (forall steps | NoLogIn(steps) :: TakeAll(Take(w, LogOut), steps).entry == Missing) <==> w.inFlight == map[]
  {
    var out := Take(w, LogOut);
    if w.inFlight == map[] {
      forall steps | NoLogIn(steps)
        ensures TakeAll(out, steps).entry == Missing
      {
        GoneStaysGone(out, steps);
      }
    } else {
      var p :| p in w.inFlight;
      TakeOne(out, Finish(p, true));
      assert TakeAll(out, [Finish(p, true)]).entry == Stored(w.inFlight[p]);
    }
  }

  /** And then a call returns the token the source already had while that is valid, and none otherwise. */
  lemma {:induction false} TokenAfterQuietLogout(w: World, steps: seq<Step>, a: Step)
    requires w.inFlight == map[] && a.Begin? && a.source in w.sources
    requires NoLogIn(steps)
    ensures var t := w.sources[a.source].token;
            Returns(TakeAll(Take(w, LogOut), steps), a) == if Valid(t, a.now) then Some(t) else None
  {
    GoneStaysGone(Take(w, LogOut), steps);
  }

  lemma {:induction false} TakeNext(w: World, steps: seq<Step>, a: Step)
    ensures TakeAll(w, steps + [a]) == Take(TakeAll(w, steps), a)
  {
    assert (steps + [a])[..|steps|] == steps;
  }

  /** A deleted entry that comes back: the logout of another process falls between read and write. */
  lemma {:induction false} PutBackExample(stale: Credentials, refresh: Credentials -> Refresh, token: Token)
    requires !Valid(stale.token, 0) && refresh(stale) == Granted(token) && token.access != stale.token.access
    ensures var steps := [] + [OpenSource(0)] + [Begin(0, 0, refresh)] + [LogOut] + [Finish(0, true)];
            TakeAll(World(Stored(stale), map[], map[]), steps).entry == Stored(stale.(token := token))
  {
    var w := World(Stored(stale), map[], map[]);
    TakeNext(w, [], OpenSource(0));
    TakeNext(w, [] + [OpenSource(0)], Begin(0, 0, refresh));
    TakeNext(w, [] + [OpenSource(0)] + [Begin(0, 0, refresh)], LogOut);
    TakeNext(w, [] + [OpenSource(0)] + [Begin(0, 0, refresh)] + [LogOut], Finish(0, true));
  }

  // ---- Login ----

  /**
    These credentials come from the login: they are the login's own, or stored ones that
    come from it with the token the endpoint granted for them.
   */
  predicate DescendsFrom(w: World, login: Credentials, steps: seq<Step>, c: Credentials)
    decreases |steps|
  {
    if steps == [] then c == login
    else
      var front, a := steps[..|steps| - 1], steps[|steps| - 1];
      var before := TakeAll(Take(w, LogIn(login)), front);
      || DescendsFrom(w, login, front, c)
      || (Refreshes(before, a)
          && DescendsFrom(w, login, front, before.entry.creds)
          && Renewed(before.entry.creds, a.refresh) == Some(c))
  }

  ghost predicate EntryDescends(w: World, login: Credentials, steps: seq<Step>) {
    var entry := TakeAll(Take(w, LogIn(login)), steps).entry;
    entry.Stored? ==> DescendsFrom(w, login, steps, entry.creds)
  }

  /** Whatever is in the keyring or about to be written comes from the login, and every source holds that or what it held. */
  ghost predicate TakenOverBy(w: World, login: Credentials, steps: seq<Step>) {
    var now := TakeAll(Take(w, LogIn(login)), steps);
    && EntryDescends(w, login, steps)
    && (forall p | p in now.inFlight :: DescendsFrom(w, login, steps, now.inFlight[p]))
    && (forall p | p in now.sources ::
          (p in w.sources && now.sources[p] == w.sources[p]) || DescendsFrom(w, login, steps, now.sources[p]))
  }

  /** Every refresh in flight at the login will write that very login; in particular none is. */
  ghost predicate NoneOlder(w: World, login: Credentials) {
    forall p | p in w.inFlight :: w.inFlight[p] == login
  }

  /** Where anything new in a step comes from: the entry, something in flight, or the refresh of the entry. */
  lemma StepSources(w: World, a: Step)
    requires !a.LogIn?
    ensures var now := Take(w, a);
            && (now.entry.Stored? ==> now.entry == w.entry || exists p :: p in w.inFlight && now.entry.creds == w.inFlight[p])
            && (forall p | p in now.inFlight ::
                  || (p in w.inFlight && now.inFlight[p] == w.inFlight[p])
                  || (Refreshes(w, a) && Renewed(w.entry.creds, a.refresh) == Some(now.inFlight[p])))
            && (forall p | p in now.sources ::
                  || (p in w.sources && now.sources[p] == w.sources[p])
                  || (w.entry.Stored? && now.sources[p] == w.entry.creds)
                  || (p in w.inFlight && now.sources[p] == w.inFlight[p]))
  {
  }

  lemma {:induction false} QuietLoginTakesOver(w: World, login: Credentials, steps: seq<Step>)
    requires NoneOlder(w, login) && NoLogIn(steps)
    ensures TakenOverBy(w, login, steps)
  {
    if steps == [] {
    } else {
      var front, a := steps[..|steps| - 1], steps[|steps| - 1];
      assert a in steps && forall b | b in front :: b in steps;
      QuietLoginTakesOver(w, login, front);
      StepSources(TakeAll(Take(w, LogIn(login)), front), a);
    }
  }

  /** An older refresh in flight does overwrite the new login. */
  lemma {:induction false} OlderOverwrites(w: World, login: Credentials, p: nat)
    requires p in w.inFlight && w.inFlight[p] != login
    ensures var steps := [Finish(p, true)];
            var now := TakeAll(Take(w, LogIn(login)), steps);
            now.entry == Stored(w.inFlight[p]) && !DescendsFrom(w, login, steps, w.inFlight[p])
  {
    TakeOne(Take(w, LogIn(login)), Finish(p, true));
    assert [Finish(p, true)][..0] == [];
  }

  /** From a login on the keyring only ever holds what comes from it if and only if no older refresh was in flight. */
  lemma LoginTakesOverIff(w: World, login: Credentials)
    ensures (forall steps | NoLogIn(steps) :: EntryDescends(w, login, steps)) <==> NoneOlder(w, login)
  {
    if NoneOlder(w, login) {
      forall steps | NoLogIn(steps)
        ensures EntryDescends(w, login, steps)
      {
        QuietLoginTakesOver(w, login, steps);
      }
    } else {
      var p :| p in w.inFlight && w.inFlight[p] != login;
      OlderOverwrites(w, login, p);
      assert !EntryDescends(w, login, [Finish(p, true)]);
    }
  }

  /** A source with an expired token reads the entry at its next call, and keeps it or sends a refresh for it. */
  lemma {:induction false} NextReadAdopts(w: World, login: Credentials, steps: seq<Step>, a: Step)
    requires NoneOlder(w, login) && NoLogIn(steps)
    requires Reads(TakeAll(Take(w, LogIn(login)), steps), a)
    ensures var before := TakeAll(Take(w, LogIn(login)), steps);
            var now := Take(before, a);
            && DescendsFrom(w, login, steps, before.entry.creds) && now.sources[a.source] == before.entry.creds
            && (a.source in now.inFlight <==> Refreshes(before, a))
            && (Refreshes(before, a) ==> Renewed(before.entry.creds, a.refresh) == Some(now.inFlight[a.source]))
  {
    QuietLoginTakesOver(w, login, steps);
  }
}
