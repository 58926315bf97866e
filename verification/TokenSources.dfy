/**
  Two token sources. The persisting one hands out the stored token, refreshes it and
  writes it back, while other processes log the user out and in again. The cooldown one
  spares the auth server after a failed refresh. The clock readings are inputs. Calls are
  atomic steps here. For the cooldown source that is what its mutex ensures; for the
  persisting one it is an assumption, since its mutex does not keep other processes out
  of the keyring while it refreshes. TokenRaces does without it.
 */
module TokenSources {
  import opened Text

  datatype Token = Token(access: string, expiry: Option<int>)

  predicate Valid(t: Token, now: int) {
    t.access != "" && (t.expiry.Some? ==> now < t.expiry.value)
  }

  /** Stored credentials; `profile` stands for everything but the token. */
  datatype Credentials = Credentials(token: Token, profile: string)

  /** The keyring entry of one user key. Unreadable: empty, malformed, or without a token. */
  datatype Entry = Missing | Unreadable | Stored(creds: Credentials)

  /** The token endpoint's answer to a refresh. */
  datatype Refresh = Refused(error: string) | Granted(token: Token)

  /** As in Go, a token and an error can be returned together. */
  datatype Result = Result(token: Option<Token>, error: Option<string>)

  const GONE := "the stored credentials are no longer available"
  const NOT_PERSISTED := "failed to persist refreshed token to keyring"

  datatype TokenStep = TokenStep(creds: Credentials, entry: Entry, result: Result)

  /**
    One call: `mem` is what the source holds, `entry` what the keyring holds; the token
    endpoint's answer depends on the credentials it is shown.
   */
  function CallToken(mem: Credentials, entry: Entry, now: int, refresh: Credentials -> Refresh, persisted: bool): TokenStep {
    if Valid(mem.token, now) then TokenStep(mem, entry, Result(Some(mem.token), None))
    else
      match entry
      case Missing => TokenStep(mem, entry, Result(None, Some(GONE)))
      case Unreadable => TokenStep(mem, entry, Result(None, Some(GONE)))
      case Stored(creds) =>
        if Valid(creds.token, now) then TokenStep(creds, entry, Result(Some(creds.token), None))
        else
          match refresh(creds)
          case Refused(error) => TokenStep(creds, entry, Result(None, Some(error)))
          case Granted(token) =>
            if token.access == creds.token.access then TokenStep(creds, entry, Result(Some(token), None))
            else
              var next := creds.(token := token);
              if persisted then TokenStep(next, Stored(next), Result(Some(token), None))
              else TokenStep(next, entry, Result(Some(token), Some(NOT_PERSISTED)))
  }

  /** A token in memory that has not expired is returned as it is, whatever the keyring holds and the endpoint would say. */
  lemma UnexpiredIsReturned(mem: Credentials, entry: Entry, now: int, refresh: Credentials -> Refresh, persisted: bool)
    requires mem.token.access != "" && (mem.token.expiry.None? || now < mem.token.expiry.value)
    ensures CallToken(mem, entry, now, refresh, persisted) == TokenStep(mem, entry, Result(Some(mem.token), None))
  {
  }

  /**
    An expired one never is: what is returned instead is the stored one, unexpired, or the
    one the endpoint has just granted for the stored credentials; where there is neither,
    an error. Without an error the keyring holds what the source does.
   */
  lemma ExpiredIsReplaced(mem: Credentials, entry: Entry, now: int, refresh: Credentials -> Refresh, persisted: bool)
    requires mem.token.access == "" || (mem.token.expiry.Some? && mem.token.expiry.value <= now)
    ensures var TokenStep(creds, after, r) := CallToken(mem, entry, now, refresh, persisted);
            && (r.error.None? ==> after == Stored(creds))
            && (r.token.Some? ==>
                  && entry.Stored?
                  && ((r.token.value == entry.creds.token && r.token.value.access != ""
                       && (r.token.value.expiry.Some? ==> now < r.token.value.expiry.value))
                      || refresh(entry.creds) == Granted(r.token.value)))
            && (r.token.None? ==> r.error.Some? && (entry.Stored? ==> refresh(entry.creds) == Refused(r.error.value)))
  {
  }

  class KeyringSlot {
    var entry: Entry
  }

  class PersistingTokenSource {
    var creds: Credentials
    const slot: KeyringSlot

    constructor (slot: KeyringSlot, creds: Credentials)
      ensures this.slot == slot && this.creds == creds
    {
      this.slot, this.creds := slot, creds;
    }

    method Token(now: int, refresh: Credentials -> Refresh, persisted: bool) returns (r: Result)
      modifies this, slot
      ensures TokenStep(creds, slot.entry, r) == CallToken(old(creds), old(slot.entry), now, refresh, persisted)
    {
      if Valid(creds.token, now) {
        return Result(Some(creds.token), None);
      }
      if !slot.entry.Stored? {
        return Result(None, Some(GONE));
      }
      creds := slot.entry.creds;
      if Valid(creds.token, now) {
        return Result(Some(creds.token), None);
      }
      var answer := refresh(creds);
      if answer.Refused? {
        return Result(None, Some(answer.error));
      }
      var newToken := answer.token;
      if newToken.access != creds.token.access {
        creds := creds.(token := newToken);
        if !persisted {
          return Result(Some(newToken), Some(NOT_PERSISTED));
        }
        slot.entry := Stored(creds);
      }
      return Result(Some(newToken), None);
    }
  }

  // ---- Several sources and other processes, in any order ----

  datatype Shared = Shared(entry: Entry, sources: map<nat, Credentials>)

  datatype Action =
    | Call(source: nat, now: int, refresh: Credentials -> Refresh, persisted: bool)
    | Open(source: nat)              // a process builds a token source from the stored entry
    | Login(creds: Credentials)
    | Logout

  function Do(s: Shared, a: Action): Shared {
    match a
    case Call(p, now, refresh, persisted) =>
      if p !in s.sources then s
      else
        var step := CallToken(s.sources[p], s.entry, now, refresh, persisted);
        Shared(step.entry, s.sources[p := step.creds])
    case Open(p) => if s.entry.Stored? then s.(sources := s.sources[p := s.entry.creds]) else s
    case Login(creds) => s.(entry := Stored(creds))
    case Logout => s.(entry := Missing)
  }

  function DoAll(s: Shared, actions: seq<Action>): Shared {
    if actions == [] then s else Do(DoAll(s, actions[..|actions| - 1]), actions[|actions| - 1])
  }

  /** After a logout, and until the next login, nobody puts the entry back, and every source keeps just the token it had in memory. */
  lemma {:induction false} LogoutSticks(s: Shared, actions: seq<Action>)
    requires s.entry == Missing
    requires forall a | a in actions :: !a.Login?
    ensures DoAll(s, actions) == s
  {
    if actions == [] {
    } else {
      var front := actions[..|actions| - 1];
      assert actions[|actions| - 1] in actions && forall a | a in front :: a in actions;
      LogoutSticks(s, front);
    }
  }

  /** So a source returns a token exactly while the one it held at the logout is valid, and never another one. */
  lemma {:induction false} TokenAfterLogout(s: Shared, actions: seq<Action>, p: nat, now: int, refresh: Credentials -> Refresh, persisted: bool)
    requires p in s.sources && forall a | a in actions :: !a.Login?
    ensures var after := DoAll(Do(s, Logout), actions);
            && p in after.sources
            && var r := CallToken(after.sources[p], after.entry, now, refresh, persisted).result;
               r.token == if Valid(s.sources[p].token, now) then Some(s.sources[p].token) else None
  {
    LogoutSticks(Do(s, Logout), actions);
  }

  /** The call shows the stored credentials to the token endpoint, which grants a new token. */
  predicate Renews(s: Shared, a: Action) {
    && a.Call? && a.source in s.sources && s.entry.Stored?
    && !Valid(s.sources[a.source].token, a.now)
    && !Valid(s.entry.creds.token, a.now)
    && a.refresh(s.entry.creds).Granted?
    && a.refresh(s.entry.creds).token.access != s.entry.creds.token.access
  }

  /**
    These credentials come from the login: they are the login's own, or stored ones that
    come from it with the token the endpoint granted for them.
   */
  predicate Descends(s: Shared, login: Credentials, actions: seq<Action>, c: Credentials)
    decreases |actions|
  {
    if actions == [] then c == login
    else
      var front, a := actions[..|actions| - 1], actions[|actions| - 1];
      var before := DoAll(Do(s, Login(login)), front);
      || Descends(s, login, front, c)
      || (Renews(before, a)
          && Descends(s, login, front, before.entry.creds)
          && c == before.entry.creds.(token := a.refresh(before.entry.creds).token))
  }

  /**
    From a login on, whatever is in the keyring comes from it, and every source holds what
    it held before or something that comes from it.
   */
  ghost predicate TakenOver(s: Shared, login: Credentials, actions: seq<Action>) {
    var now := DoAll(Do(s, Login(login)), actions);
    && (now.entry.Stored? ==> Descends(s, login, actions, now.entry.creds))
    && forall p | p in now.sources ::
         || (p in s.sources && now.sources[p] == s.sources[p])
         || Descends(s, login, actions, now.sources[p])
  }

  /** One step: a source stays as it is, or holds the stored credentials, or those with the token granted for them. */
  lemma StepAdopts(s: Shared, a: Action, p: nat)
    requires !a.Login? && p in Do(s, a).sources
    ensures var c := Do(s, a).sources[p];
            || (p in s.sources && c == s.sources[p])
            || (s.entry.Stored? && c == s.entry.creds)
            || (Renews(s, a) && c == s.entry.creds.(token := a.refresh(s.entry.creds).token))
  {
  }

  lemma StepKeepsEntry(s: Shared, a: Action)
    requires !a.Login? && Do(s, a).entry.Stored?
    ensures s.entry.Stored?
    ensures var c := Do(s, a).entry.creds;
            c == s.entry.creds || (Renews(s, a) && c == s.entry.creds.(token := a.refresh(s.entry.creds).token))
  {
  }

  /** Until the next login, logouts included. */
  lemma {:induction false} LoginTakesOver(s: Shared, login: Credentials, actions: seq<Action>)
    requires forall a | a in actions :: !a.Login?
    ensures TakenOver(s, login, actions)
    ensures (forall a | a in actions :: !a.Logout?) ==> DoAll(Do(s, Login(login)), actions).entry.Stored?
  {
    if actions == [] {
    } else {
      var front, a := actions[..|actions| - 1], actions[|actions| - 1];
      assert a in actions && forall b | b in front :: b in actions;
      LoginTakesOver(s, login, front);
      var before := DoAll(Do(s, Login(login)), front);
      if Do(before, a).entry.Stored? {
        StepKeepsEntry(before, a);
      }
      forall p | p in Do(before, a).sources
        ensures (p in s.sources && Do(before, a).sources[p] == s.sources[p]) || Descends(s, login, actions, Do(before, a).sources[p])
      {
        StepAdopts(before, a, p);
      }
    }
  }

  /**
    A source whose token in memory has expired adopts the stored credentials at its very
    next call: afterwards it holds exactly them, or them with the token granted for them,
    and both come from the last login.
   */
  lemma {:induction false} NextCallAdopts(s: Shared, login: Credentials, actions: seq<Action>, call: Action)
    requires forall a | a in actions :: !a.Login? && !a.Logout?
    requires call.Call? && call.source in DoAll(Do(s, Login(login)), actions).sources
    requires !Valid(DoAll(Do(s, Login(login)), actions).sources[call.source].token, call.now)
    ensures var before := DoAll(Do(s, Login(login)), actions);
            var adopted := Do(before, call).sources[call.source];
            && before.entry.Stored?
            && Descends(s, login, actions, before.entry.creds)
            && adopted == (if Renews(before, call) then before.entry.creds.(token := call.refresh(before.entry.creds).token) else before.entry.creds)
            && Descends(s, login, actions + [call], adopted)
  {
    LoginTakesOver(s, login, actions);
    assert (actions + [call])[..|actions|] == actions;
  }

  // ---- The cooldown source ----

  datatype Cooldown = Cooldown(lastErr: Option<string>, failedAt: int)

  datatype SourceAnswer = Fails(error: string) | Gives(token: Token)

  /** One request: the clock when it comes in, what the wrapped source would answer, and the clock when that answer is there. */
  datatype Request = Request(at: int, answer: SourceAnswer, answeredAt: int)

  datatype Served = Served(result: SourceAnswer, asked: bool)

  function Serve(c: Cooldown, cooldown: int, r: Request): (Cooldown, Served) {
    if c.lastErr.Some? && r.at - c.failedAt < cooldown then (c, Served(Fails(c.lastErr.value), false))
    else if r.answer.Fails? then (Cooldown(Some(r.answer.error), r.answeredAt), Served(r.answer, true))
    else (Cooldown(None, c.failedAt), Served(r.answer, true))
  }

  class CooldownTokenSource {
    const cooldown: int
    var lastErr: Option<string>
    var failedAt: int

    constructor (cooldown: int)
      ensures this.cooldown == cooldown && lastErr == None
    {
      this.cooldown, lastErr, failedAt := cooldown, None, 0;
    }

    method Token(r: Request) returns (result: SourceAnswer, ghost asked: bool)
      modifies this
      ensures (Cooldown(lastErr, failedAt), Served(result, asked)) == Serve(old(Cooldown(lastErr, failedAt)), cooldown, r)
    {
      if lastErr.Some? {
        if r.at - failedAt < cooldown {
          return Fails(lastErr.value), false;
        }
        lastErr := None;
      }
      if r.answer.Fails? {
        lastErr := Some(r.answer.error);
        failedAt := r.answeredAt;
      }
      return r.answer, true;
    }
  }

  function StateAfter(cooldown: int, rs: seq<Request>): Cooldown {
    if rs == [] then Cooldown(None, 0) else Serve(StateAfter(cooldown, rs[..|rs| - 1]), cooldown, rs[|rs| - 1]).0
  }

  /** How the i-th request of a run was served. */
  function ServedAt(cooldown: int, rs: seq<Request>, i: nat): Served
    requires i < |rs|
  {
    Serve(StateAfter(cooldown, rs[..i]), cooldown, rs[i]).1
  }

  predicate FailedAt(cooldown: int, rs: seq<Request>, i: nat)
    requires i < |rs|
  {
    ServedAt(cooldown, rs, i).asked && rs[i].answer.Fails?
  }

  /** The clock never runs backwards. */
  predicate Monotone(rs: seq<Request>) {
    && (forall i | 0 <= i < |rs| :: rs[i].at <= rs[i].answeredAt)
    && (forall i, j | 0 <= i < j < |rs| :: rs[i].answeredAt <= rs[j].at)
  }

  /** The remembered error is that of the last time the source was asked, unless it has been forgotten after its cooldown. */
  lemma {:induction false} Remembered(cooldown: int, rs: seq<Request>) returns (last: nat)
    ensures last <= |rs|
    ensures last < |rs| ==> FailedAt(cooldown, rs, last)
    ensures last < |rs| ==> StateAfter(cooldown, rs) == Cooldown(Some(rs[last].answer.error), rs[last].answeredAt)
    ensures last < |rs| ==> forall i | last < i < |rs| :: !ServedAt(cooldown, rs, i).asked
    ensures last == |rs| ==> StateAfter(cooldown, rs).lastErr.None?
  {
    if rs == [] {
      return 0;
    }
    var n := |rs| - 1;
    var front := rs[..n];
    forall i | 0 <= i < n
      ensures ServedAt(cooldown, rs, i) == ServedAt(cooldown, front, i)
    {
      assert rs[..i] == front[..i];
    }
    last := Remembered(cooldown, front);
    if ServedAt(cooldown, rs, n).asked {
      last := if rs[n].answer.Fails? then n else |rs|;
    } else {
      assert StateAfter(cooldown, front).lastErr.Some?;
    }
  }

  /** A request that is not passed on gets the error of the last request that was, and comes within its cooldown. */
  lemma UnaskedGetsCachedError(cooldown: int, rs: seq<Request>, j: nat) returns (i: nat)
    requires j < |rs| && !ServedAt(cooldown, rs, j).asked
    ensures i < j && FailedAt(cooldown, rs, i)
    ensures ServedAt(cooldown, rs, j).result == rs[i].answer
    ensures rs[j].at < rs[i].answeredAt + cooldown
    ensures forall m | i < m <= j :: !ServedAt(cooldown, rs, m).asked
  {
    i := Remembered(cooldown, rs[..j]);
    assert rs[..j][..i] == rs[..i];
    forall m | i < m < j
      ensures !ServedAt(cooldown, rs, m).asked
    {
      assert rs[..j][..m] == rs[..m];
      assert !ServedAt(cooldown, rs[..j], m).asked;
    }
  }

  /** While the clock is within the cooldown of failure i, the state still holds that failure. */
  lemma {:induction false} StillCooling(cooldown: int, rs: seq<Request>, i: nat, j: nat)
    requires Monotone(rs) && i < j < |rs| && FailedAt(cooldown, rs, i)
    ensures rs[j].at < rs[i].answeredAt + cooldown ==> StateAfter(cooldown, rs[..j]) == Cooldown(Some(rs[i].answer.error), rs[i].answeredAt)
  {
    assert rs[..j][..j - 1] == rs[..j - 1];
    if j > i + 1 {
      StillCooling(cooldown, rs, i, j - 1);
    }
  }

  /** The source is never asked within the cooldown after any failure. */
  lemma {:induction false} NoAskWithinCooldown(cooldown: int, rs: seq<Request>, i: nat, j: nat)
    requires Monotone(rs) && i < j < |rs|
    requires FailedAt(cooldown, rs, i) && ServedAt(cooldown, rs, j).asked
    ensures rs[j].at >= rs[i].answeredAt + cooldown
  {
    StillCooling(cooldown, rs, i, j);
  }

  /** The times at which refreshes failed. */
  function FailureTimes(cooldown: int, rs: seq<Request>): seq<int> {
    if rs == [] then []
    else
      var n := |rs| - 1;
      FailureTimes(cooldown, rs[..n]) + if FailedAt(cooldown, rs, n) then [rs[n].answeredAt] else []
  }

  /** The times span at least one cooldown per time after the first. */
  predicate Spread(times: seq<int>, cooldown: int) {
    times != [] ==> times[|times| - 1] - times[0] >= (|times| - 1) * cooldown
  }

  lemma SpreadNext(times: seq<int>, cooldown: int, next: int)
    requires Spread(times, cooldown) && (times != [] ==> next - times[|times| - 1] >= cooldown)
    ensures Spread(times + [next], cooldown)
  {
    assert |times| * cooldown == (|times| - 1) * cooldown + cooldown;
  }

  lemma {:induction false} LastFailure(cooldown: int, rs: seq<Request>) returns (i: nat)
    requires FailureTimes(cooldown, rs) != []
    ensures i < |rs| && FailedAt(cooldown, rs, i)
    ensures FailureTimes(cooldown, rs)[|FailureTimes(cooldown, rs)| - 1] == rs[i].answeredAt
  {
    i := |rs| - 1;
    if !FailedAt(cooldown, rs, i) {
      var front := rs[..i];
      i := LastFailure(cooldown, front);
      assert front[..i] == rs[..i];
    }
  }

  /** n failures take at least n - 1 cooldowns, however hot the client polls. */
  lemma {:induction false} FailuresSpread(cooldown: int, rs: seq<Request>)
    requires Monotone(rs)
    ensures Spread(FailureTimes(cooldown, rs), cooldown)
  {
    if rs == [] {
    } else {
      var n := |rs| - 1;
      var front, f := rs[..n], FailureTimes(cooldown, rs[..n]);
      FailuresSpread(cooldown, front);
      if FailedAt(cooldown, rs, n) {
        if f != [] {
          var i := LastFailure(cooldown, front);
          assert front[..i] == rs[..i];
          NoAskWithinCooldown(cooldown, rs, i, n);
        }
        SpreadNext(f, cooldown, rs[n].answeredAt);
      }
    }
  }
}
