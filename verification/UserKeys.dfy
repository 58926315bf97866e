/**
  Moving stored credentials from keys that name only the user to keys that also name the
  auth host. The keyring is shared with other programs and any access to it may fail; the config
  is saved only when the whole migration succeeded, so an interrupted one starts over from
  the old config and whatever it had already written.
 */
module UserKeys {
  import opened Text
  import opened ConfigTypes

  const KNOWN_USERS_KEY := "known_users"

  /** What a keyring entry's text decodes to. */
  datatype Entry =
    | EmptyText
    | Creds(hostname: string, secret: string)
    | Names(keys: seq<string>)
    | Garbage(text: string)

  type Entries = map<string, Entry>

  // ---- Which sessions move, and where to ----

  function UserKeyFor(identity: string, authHostname: string): string {
    if identity == "" || authHostname == "" then identity else identity + "@" + authHostname
  }

  function NewKey(s: Session): string {
    UserKeyFor(if s.userEmail == "" then s.userKey else s.userEmail, s.endpoint.authHostname)
  }

  predicate Moves(s: Session) {
    && s.endpoint.authHostname != ""
    && s.userKey != ""
    && !HasSuffix(s.userKey, "@" + s.endpoint.authHostname)
    && NewKey(s) != s.userKey
  }

  function Moved(s: Session): Session {
    if Moves(s) then s.(userKey := NewKey(s)) else s
  }

  function MovedAll(ss: seq<Session>): seq<Session> {
    seq(|ss|, i requires 0 <= i < |ss| => Moved(ss[i]))
  }

  lemma NewKeyQualified(s: Session)
    requires s.endpoint.authHostname != "" && s.userKey != ""
    ensures HasSuffix(NewKey(s), "@" + s.endpoint.authHostname)
    ensures NewKey(s) != KNOWN_USERS_KEY
  {
    var id, host := if s.userEmail == "" then s.userKey else s.userEmail, s.endpoint.authHostname;
    assert NewKey(s) == id + ("@" + host);
    assert NewKey(s)[|id|] == '@';
    assert '@' !in KNOWN_USERS_KEY;
  }

  predicate AnyMoves(ss: seq<Session>) {
    ss != [] && (Moves(ss[|ss| - 1]) || AnyMoves(ss[..|ss| - 1]))
  }

  /** The config is reported changed exactly when it is. */
  lemma {:induction false} AnyMovesIff(ss: seq<Session>)
    ensures AnyMoves(ss) <==> MovedAll(ss) != ss
  {
    if ss == [] {
    } else {
      var n := |ss| - 1;
      AnyMovesIff(ss[..n]);
      assert ss == ss[..n] + [ss[n]];
      assert MovedAll(ss) == MovedAll(ss[..n]) + [Moved(ss[n])];
      assert MovedAll(ss)[..n] == MovedAll(ss[..n]);
    }
  }

  lemma MovedStays(s: Session)
    ensures !Moves(Moved(s))
  {
  }

  // ---- The credentials ----

  predicate Vacant(c: Entries, key: string) {
    key !in c || c[key].EmptyText?
  }

  /** A credential stored there was minted for this host, or does not say. */
  predicate Claimable(c: Entries, key: string, authHost: string) {
    key in c && c[key].Creds? && (c[key].hostname == "" || c[key].hostname == authHost)
  }

  /** The credential copy for one session. */
  function Rehome(c: Entries, s: Session): Entries {
    if Moves(s) && Claimable(c, s.userKey, s.endpoint.authHostname) && Vacant(c, NewKey(s)) then c[NewKey(s) := c[s.userKey]] else c
  }

  function RehomeAll(c: Entries, ss: seq<Session>): Entries {
    if ss == [] then c else Rehome(RehomeAll(c, ss[..|ss| - 1]), ss[|ss| - 1])
  }

  lemma {:induction false} RehomeConcat(c: Entries, ss: seq<Session>, ts: seq<Session>)
    ensures RehomeAll(c, ss + ts) == RehomeAll(RehomeAll(c, ss), ts)
  {
    if ts == [] {
      assert ss + ts == ss;
    } else {
      var front := ts[..|ts| - 1];
      RehomeConcat(c, ss, front);
      assert (ss + ts)[..|ss + ts| - 1] == ss + front;
    }
  }

  /** Nothing non-empty is ever overwritten or deleted. */
  lemma {:induction false} NeverOverwrites(c: Entries, ss: seq<Session>, key: string)
    requires !Vacant(c, key)
    ensures key in RehomeAll(c, ss) && RehomeAll(c, ss)[key] == c[key]
  {
    if ss == [] {
    } else {
      NeverOverwrites(c, ss[..|ss| - 1], key);
    }
  }

  lemma {:induction false} FilledIsClaimable(c: Entries, ss: seq<Session>, key: string)
    requires Vacant(c, key) && !Vacant(RehomeAll(c, ss), key)
    ensures exists s :: s in ss && Moves(s) && key == NewKey(s) && Claimable(RehomeAll(c, ss), key, s.endpoint.authHostname)
  {
    var n := |ss| - 1;
    var before := RehomeAll(c, ss[..n]);
    assert ss[n] in ss;
    if !Vacant(before, key) {
      FilledIsClaimable(c, ss[..n], key);
      var s :| s in ss[..n] && Moves(s) && key == NewKey(s) && Claimable(before, key, s.endpoint.authHostname);
      assert s in ss;
    }
  }

  /**
    A key that came to hold something is the e-mail, or lacking that the old key, of some session
    with its auth host, and holds a credential minted for that host, or one that does not say.
   */
  lemma {:induction false} WritesClaimed(c: Entries, ss: seq<Session>, key: string)
    requires key in c ==> c[key] == EmptyText
    requires key in RehomeAll(c, ss) && RehomeAll(c, ss)[key] != EmptyText
    ensures RehomeAll(c, ss)[key].Creds?
    ensures exists s :: s in ss && s.userKey != "" && s.endpoint.authHostname != ""
              && key == (if s.userEmail == "" then s.userKey else s.userEmail) + "@" + s.endpoint.authHostname
              && (RehomeAll(c, ss)[key].hostname == "" || RehomeAll(c, ss)[key].hostname == s.endpoint.authHostname)
  {
    FilledIsClaimable(c, ss, key);
  }

  /** A session with a host and a key that does not end in it is given one that does. */
  lemma MovedKeys(ss: seq<Session>, i: nat)
    requires i < |ss|
    ensures |MovedAll(ss)| == |ss|
    ensures var s, suffix := ss[i], "@" + ss[i].endpoint.authHostname;
            MovedAll(ss)[i] == s.(userKey :=
              if s.endpoint.authHostname == "" || s.userKey == "" || HasSuffix(s.userKey, suffix) then s.userKey
              else (if s.userEmail == "" then s.userKey else s.userEmail) + suffix)
    ensures ss[i].endpoint.authHostname != "" && ss[i].userKey != "" ==> HasSuffix(MovedAll(ss)[i].userKey, "@" + ss[i].endpoint.authHostname)
  {
    if ss[i].endpoint.authHostname != "" && ss[i].userKey != "" {
      NewKeyQualified(ss[i]);
    }
  }

  // ---- A second run ----

  lemma {:induction false} RedoIdle(d: Entries, ss: seq<Session>)
    requires forall s | s in ss :: Rehome(d, s) == d
    ensures RehomeAll(d, ss) == d
  {
    if ss == [] {
    } else {
      assert ss[|ss| - 1] in ss && forall s | s in ss[..|ss| - 1] :: s in ss;
      RedoIdle(d, ss[..|ss| - 1]);
    }
  }

  /** Once a migration has succeeded, another one changes neither the config nor any credential, whatever the keyring holds by then. */
  lemma {:induction false} SecondRunIdle(ss: seq<Session>, c: Entries)
    ensures !AnyMoves(MovedAll(ss)) && MovedAll(MovedAll(ss)) == MovedAll(ss)
    ensures RehomeAll(c, MovedAll(ss)) == c
  {
    var moved := MovedAll(ss);
    forall i | 0 <= i < |ss|
      ensures !Moves(moved[i])
    {
      MovedStays(ss[i]);
    }
    assert MovedAll(moved) == moved;
    AnyMovesIff(moved);
    RedoIdle(c, moved);
  }

  // ---- What happens to one key while sessions are served ----

  /** A key vacant after m sessions and not after n was filled by one in between. */
  lemma {:induction false} FilledBetween(c: Entries, ss: seq<Session>, m: nat, n: nat, key: string) returns (i: nat)
    requires m <= n <= |ss|
    requires Vacant(RehomeAll(c, ss[..m]), key) && !Vacant(RehomeAll(c, ss[..n]), key)
    ensures m <= i < n && Moves(ss[i]) && NewKey(ss[i]) == key && Vacant(RehomeAll(c, ss[..i]), key)
    ensures Claimable(RehomeAll(c, ss[..i]), ss[i].userKey, ss[i].endpoint.authHostname)
  {
    assert m < n;
    assert ss[..n][..n - 1] == ss[..n - 1];
    if Vacant(RehomeAll(c, ss[..n - 1]), key) {
      i := n - 1;
    } else {
      i := FilledBetween(c, ss, m, n - 1, key);
    }
  }

  lemma {:induction false} OccupiedStays(c: Entries, ss: seq<Session>, m: nat, n: nat, key: string)
    requires m <= n <= |ss| && !Vacant(RehomeAll(c, ss[..m]), key)
    ensures key in RehomeAll(c, ss[..n]) && RehomeAll(c, ss[..n])[key] == RehomeAll(c, ss[..m])[key]
  {
    assert ss[..n] == ss[..m] + ss[m..n];
    RehomeConcat(c, ss[..m], ss[m..n]);
    NeverOverwrites(RehomeAll(c, ss[..m]), ss[m..n], key);
  }

  /** Once a session was served with a claimable credential, its new key is filled, with that credential if it was vacant. */
  lemma {:induction false} ServedIsFilled(c: Entries, ss: seq<Session>, i: nat, n: nat)
    requires i < n <= |ss| && Moves(ss[i])
    requires Claimable(RehomeAll(c, ss[..i]), ss[i].userKey, ss[i].endpoint.authHostname)
    ensures !Vacant(RehomeAll(c, ss[..n]), NewKey(ss[i]))
    ensures Vacant(RehomeAll(c, ss[..i]), NewKey(ss[i])) ==> RehomeAll(c, ss[..n])[NewKey(ss[i])] == RehomeAll(c, ss[..i])[ss[i].userKey]
  {
    assert ss[..i + 1][..i] == ss[..i];
    OccupiedStays(c, ss, i + 1, n, NewKey(ss[i]));
  }

  /** A key stays vacant as long as those who move into it find nothing to copy. */
  lemma {:induction false} StaysVacant(c: Entries, ss: seq<Session>, n: nat, key: string)
    requires n <= |ss| && Vacant(c, key)
    requires forall m | 0 <= m < n && Moves(ss[m]) && NewKey(ss[m]) == key :: Vacant(RehomeAll(c, ss[..m]), ss[m].userKey)
    ensures Vacant(RehomeAll(c, ss[..n]), key)
  {
    if n == 0 {
    } else {
      StaysVacant(c, ss, n - 1, key);
      assert ss[..n][..n - 1] == ss[..n - 1];
    }
  }

  /**
    When its turn comes, a credential of the session's own host, or of none, is copied to the new
    key if that is vacant, and both stay to the end.
   */
  lemma {:induction false} MatchingCredentialCopied(c: Entries, ss: seq<Session>, i: nat, newKey: string)
    requires i < |ss| && ss[i].userKey != "" && ss[i].endpoint.authHostname != ""
    requires !HasSuffix(ss[i].userKey, "@" + ss[i].endpoint.authHostname)
    requires newKey == (if ss[i].userEmail == "" then ss[i].userKey else ss[i].userEmail) + "@" + ss[i].endpoint.authHostname
    requires var before, s := RehomeAll(c, ss[..i]), ss[i];
             && s.userKey in before && before[s.userKey].Creds?
             && (before[s.userKey].hostname == "" || before[s.userKey].hostname == s.endpoint.authHostname)
             && (newKey in before ==> before[newKey] == EmptyText)
    ensures var before, after := RehomeAll(c, ss[..i]), RehomeAll(c, ss);
            && newKey in after && after[newKey] == before[ss[i].userKey]
            && ss[i].userKey in after && after[ss[i].userKey] == before[ss[i].userKey]
  {
    NewKeyQualified(ss[i]);
    assert NewKey(ss[i]) == newKey;
    assert ss[..|ss|] == ss;
    ServedIsFilled(c, ss, i, |ss|);
    OccupiedStays(c, ss, i, |ss|, ss[i].userKey);
  }

  /** A session whose old key holds a credential minted for another host, or no credential, fills nothing. */
  lemma {:induction false} ForeignCredentialStays(c: Entries, ss: seq<Session>, i: nat)
    requires i < |ss|
    requires var before, s := RehomeAll(c, ss[..i]), ss[i];
             s.userKey in before && before[s.userKey].Creds? ==> before[s.userKey].hostname !in {"", s.endpoint.authHostname}
    ensures RehomeAll(c, ss[..i + 1]) == RehomeAll(c, ss[..i])
  {
    assert ss[..i + 1][..i] == ss[..i];
  }

  // ---- When a key can be filled ----

  predicate SameMove(s: Session, t: Session) {
    Moves(s) && Moves(t) && NewKey(s) == NewKey(t) && s.userKey == t.userKey && s.endpoint.authHostname == t.endpoint.authHostname
  }

  /** A session from m on makes the same copy as f, before it. */
  predicate Repeated(ss: seq<Session>, f: nat, m: nat)
    requires f < |ss|
  {
    exists e | m <= e < f :: SameMove(ss[e], ss[f])
  }

  /**
    Session f can be the first to fill this key, when the credential started out under
    `root`: it moves into the key, and its own source is the root or filled before, and no
    session has made the same copy since.
   */
  predicate CanFill(ss: seq<Session>, root: string, key: string, f: nat)
    requires f < |ss|
    decreases f
  {
    && Moves(ss[f]) && NewKey(ss[f]) == key && root != key
    && ((ss[f].userKey == root && !Repeated(ss, f, 0))
        || exists g | 0 <= g < f :: CanFill(ss, root, ss[f].userKey, g) && !Repeated(ss, f, g + 1))
  }

  lemma {:induction false} OccupiedRootApart(c: Entries, ss: seq<Session>, f: nat, root: string)
    requires f < |ss| && Vacant(RehomeAll(c, ss[..f]), NewKey(ss[f])) && !Vacant(c, root)
    ensures root != NewKey(ss[f])
  {
    assert ss[..0] == [];
    OccupiedStays(c, ss, 0, f, root);
  }

  lemma {:induction false} NotRepeatedSince(c: Entries, ss: seq<Session>, f: nat, g: nat)
    requires g < f < |ss| && Moves(ss[f]) && Vacant(RehomeAll(c, ss[..f]), NewKey(ss[f]))
    requires Claimable(RehomeAll(c, ss[..f]), ss[f].userKey, ss[f].endpoint.authHostname)
    requires Moves(ss[g]) && NewKey(ss[g]) == ss[f].userKey
    requires Claimable(RehomeAll(c, ss[..g]), ss[g].userKey, ss[g].endpoint.authHostname)
    ensures !Repeated(ss, f, g + 1)
  {
    if e :| g + 1 <= e < f && SameMove(ss[e], ss[f]) {
      ServedIsFilled(c, ss, g, e);
      OccupiedStays(c, ss, e, f, ss[f].userKey);
      ServedIsFilled(c, ss, e, f);
    }
  }

  lemma {:induction false} NotRepeatedAtAll(c: Entries, ss: seq<Session>, f: nat)
    requires f < |ss| && Moves(ss[f]) && Vacant(RehomeAll(c, ss[..f]), NewKey(ss[f])) && !Vacant(c, ss[f].userKey)
    requires Claimable(RehomeAll(c, ss[..f]), ss[f].userKey, ss[f].endpoint.authHostname)
    ensures !Repeated(ss, f, 0)
  {
    if e :| 0 <= e < f && SameMove(ss[e], ss[f]) {
      assert ss[..0] == [];
      OccupiedStays(c, ss, 0, e, ss[f].userKey);
      OccupiedStays(c, ss, e, f, ss[f].userKey);
      ServedIsFilled(c, ss, e, f);
    }
  }

  /** Whoever is first to fill a key can be, from a key that was filled at the start. */
  lemma {:induction false} FirstFillIsPossible(c: Entries, ss: seq<Session>, f: nat) returns (root: string)
    requires f < |ss| && Moves(ss[f]) && Vacant(RehomeAll(c, ss[..f]), NewKey(ss[f]))
    requires Claimable(RehomeAll(c, ss[..f]), ss[f].userKey, ss[f].endpoint.authHostname)
    ensures !Vacant(c, root) && CanFill(ss, root, NewKey(ss[f]), f)
    ensures exists r | 0 <= r < |ss| :: ss[r].userKey == root
    decreases f
  {
    var s, key := ss[f], NewKey(ss[f]);
    assert ss[..0] == [];
    if Vacant(c, s.userKey) {
      var g := FilledBetween(c, ss, 0, f, s.userKey);
      root := FirstFillIsPossible(c, ss, g);
      OccupiedRootApart(c, ss, f, root);
      NotRepeatedSince(c, ss, f, g);
    } else {
      root := s.userKey;
      NotRepeatedAtAll(c, ss, f);
    }
  }

  // ---- Starting over after an interruption ----

  /** Whoever moves into j's new key after j makes the same copy as j, and someone does after f. */
  predicate CaughtUp(ss: seq<Session>, j: nat, f: nat)
    requires j < |ss|
  {
    && (forall g | j < g < |ss| && Moves(ss[g]) && NewKey(ss[g]) == NewKey(ss[j]) :: SameMove(ss[g], ss[j]))
    && exists g | f < g < |ss| :: SameMove(ss[g], ss[j])
  }

  /** Session j moves away from a key that, for a credential under `root`, f is the first to fill - too late for j, and nobody makes up for it. */
  predicate Late(ss: seq<Session>, root: string, j: nat, f: nat)
    requires j < |ss| && f < |ss|
  {
    && j < f && Moves(ss[j]) && CanFill(ss, root, ss[j].userKey, f)
    && NewKey(ss[j]) != root && NewKey(ss[j]) != ss[f].userKey
    && !CaughtUp(ss, j, f)
  }

  predicate LateSource(ss: seq<Session>) {
    exists r, j, f | 0 <= r < |ss| && 0 <= j < f < |ss| :: Late(ss, ss[r].userKey, j, f)
  }

  /** Everything that is filled on the left is filled alike on the right. */
  ghost predicate Within(c: Entries, d: Entries) {
    forall key | !Vacant(c, key) :: key in d && d[key] == c[key]
  }

  lemma {:induction false} ServedWithin(c: Entries, ss: seq<Session>, m: nat, n: nat)
    requires m <= n <= |ss|
    ensures Within(RehomeAll(c, ss[..m]), RehomeAll(c, ss[..n]))
  {
    forall key | !Vacant(RehomeAll(c, ss[..m]), key)
      ensures key in RehomeAll(c, ss[..n]) && RehomeAll(c, ss[..n])[key] == RehomeAll(c, ss[..m])[key]
    {
      OccupiedStays(c, ss, m, n, key);
    }
  }

  /** A session that makes the same copy after f fills j's new key, if nobody did before. */
  lemma {:induction false} MadeUpFor(c: Entries, ss: seq<Session>, j: nat, f: nat)
    requires j < f < |ss| && Moves(ss[j]) && Moves(ss[f]) && NewKey(ss[f]) == ss[j].userKey && CaughtUp(ss, j, f)
    requires Claimable(RehomeAll(c, ss[..f]), ss[f].userKey, ss[f].endpoint.authHostname)
    requires Claimable(RehomeAll(c, ss), ss[j].userKey, ss[j].endpoint.authHostname)
    ensures !Vacant(RehomeAll(c, ss), NewKey(ss[j]))
  {
    var b :| f < b < |ss| && SameMove(ss[b], ss[j]);
    assert ss[..|ss|] == ss;
    ServedIsFilled(c, ss, f, b);
    OccupiedStays(c, ss, b, |ss|, ss[j].userKey);
    ServedIsFilled(c, ss, b, |ss|);
  }

  /** If everyone who moves into j's new key from j on makes the same copy, it ends up with what j's old key has. */
  lemma {:induction false} FilledAlike(c: Entries, ss: seq<Session>, j: nat)
    requires j < |ss| && Vacant(RehomeAll(c, ss[..j]), NewKey(ss[j])) && !Vacant(RehomeAll(c, ss), NewKey(ss[j]))
    requires Moves(ss[j]) && forall g | j < g < |ss| && Moves(ss[g]) && NewKey(ss[g]) == NewKey(ss[j]) :: SameMove(ss[g], ss[j])
    ensures NewKey(ss[j]) in RehomeAll(c, ss) && ss[j].userKey in RehomeAll(c, ss)
    ensures RehomeAll(c, ss)[NewKey(ss[j])] == RehomeAll(c, ss)[ss[j].userKey]
  {
    assert ss[..|ss|] == ss;
    var g := FilledBetween(c, ss, j, |ss|, NewKey(ss[j]));
    assert ss[g].userKey == ss[j].userKey;
    OccupiedStays(c, ss, g, |ss|, ss[j].userKey);
    ServedIsFilled(c, ss, g, |ss|);
  }

  /** What a session copies when it is served again, it or a session after it copies in the uninterrupted run as well. */
  lemma {:induction false} CopiedAnyway(c: Entries, ss: seq<Session>, d: Entries, j: nat)
    requires !LateSource(ss) && j < |ss| && Moves(ss[j])
    requires Within(c, d) && Within(RehomeAll(c, ss[..j]), d) && Within(d, RehomeAll(c, ss))
    requires Claimable(d, ss[j].userKey, ss[j].endpoint.authHostname) && Vacant(d, NewKey(ss[j]))
    ensures NewKey(ss[j]) in RehomeAll(c, ss) && RehomeAll(c, ss)[NewKey(ss[j])] == d[ss[j].userKey]
  {
    var before, end := RehomeAll(c, ss[..j]), RehomeAll(c, ss);
    assert ss[..|ss|] == ss;
    assert Vacant(before, NewKey(ss[j]));
    if Vacant(before, ss[j].userKey) {
      var f := FilledBetween(c, ss, j, |ss|, ss[j].userKey);
      var root := FirstFillIsPossible(c, ss, f);
      assert root != NewKey(ss[j]);
      var r :| 0 <= r < |ss| && ss[r].userKey == root;
      assert !Late(ss, ss[r].userKey, j, f);
      ServedIsFilled(c, ss, f, |ss|);
      if NewKey(ss[j]) == ss[f].userKey {
        OccupiedStays(c, ss, f, |ss|, ss[f].userKey);
      } else {
        MadeUpFor(c, ss, j, f);
        FilledAlike(c, ss, j);
      }
    } else {
      OccupiedStays(c, ss, j, |ss|, ss[j].userKey);
      ServedIsFilled(c, ss, j, |ss|);
    }
  }

  /** Serving one session again stays within the uninterrupted run. */
  lemma {:induction false} RedoneWithin(c: Entries, ss: seq<Session>, d: Entries, j: nat)
    requires !LateSource(ss) && j < |ss|
    requires Within(c, d) && Within(RehomeAll(c, ss[..j]), d) && Within(d, RehomeAll(c, ss))
    ensures Within(Rehome(d, ss[j]), RehomeAll(c, ss))
  {
    if Rehome(d, ss[j]) != d {
      CopiedAnyway(c, ss, d, j);
    }
  }

  /** And keeps up with it. */
  lemma {:induction false} RedoneKeepsUp(c: Entries, ss: seq<Session>, d: Entries, j: nat)
    requires j < |ss| && Within(RehomeAll(c, ss[..j]), d) && Within(Rehome(d, ss[j]), RehomeAll(c, ss))
    ensures Within(RehomeAll(c, ss[..j + 1]), Rehome(d, ss[j]))
  {
    assert ss[..j + 1][..j] == ss[..j];
    var before, after := RehomeAll(c, ss[..j]), RehomeAll(c, ss[..j + 1]);
    assert ss[..|ss|] == ss;
    ServedWithin(c, ss, j + 1, |ss|);
    if after != before {
      assert !Vacant(Rehome(d, ss[j]), NewKey(ss[j]));
    }
  }

  /** Wherever the second attempt has got to, it has everything the first one had, and nothing that an uninterrupted run would not have. */
  lemma {:induction false} RedoBetween(c: Entries, ss: seq<Session>, k: nat, n: nat)
    requires !LateSource(ss) && k <= |ss| && n <= |ss|
    ensures Within(RehomeAll(c, ss[..if n <= k then k else n]), RehomeAll(RehomeAll(c, ss[..k]), ss[..n]))
    ensures Within(RehomeAll(RehomeAll(c, ss[..k]), ss[..n]), RehomeAll(c, ss))
  {
    var first := RehomeAll(c, ss[..k]);
    assert ss[..|ss|] == ss && ss[..0] == [];
    if n == 0 {
      ServedWithin(c, ss, k, |ss|);
    } else {
      RedoBetween(c, ss, k, n - 1);
      var d := RehomeAll(first, ss[..n - 1]);
      assert ss[..n][..n - 1] == ss[..n - 1];
      ServedWithin(c, ss, 0, if n - 1 <= k then k else n - 1);
      ServedWithin(c, ss, n - 1, if n - 1 <= k then k else n - 1);
      RedoneWithin(c, ss, d, n - 1);
      if k < n {
        RedoneKeepsUp(c, ss, d, n - 1);
      }
    }
  }

  /** A key that no copy fills is left as it was. */
  lemma {:induction false} VacantIsUntouched(c: Entries, ss: seq<Session>, key: string)
    requires Vacant(RehomeAll(c, ss), key)
    ensures key in RehomeAll(c, ss) <==> key in c
  {
    if ss == [] {
    } else {
      VacantIsUntouched(c, ss[..|ss| - 1], key);
    }
  }

  lemma {:induction false} SameWhenWithin(c: Entries, d: Entries)
    requires Within(c, d) && Within(d, c) && forall key | Vacant(c, key) && Vacant(d, key) :: key in c <==> key in d
    ensures c == d
  {
    forall key
      ensures key in c <==> key in d
      ensures key in c && key in d ==> c[key] == d[key]
    {
      assert Vacant(c, key) <==> Vacant(d, key);
    }
  }

  /** What is vacant at the end was vacant all along. */
  lemma {:induction false} VacantAllAlong(c: Entries, ss: seq<Session>, k: nat, key: string)
    requires k <= |ss| && Vacant(RehomeAll(c, ss), key)
    ensures Vacant(RehomeAll(c, ss[..k]), key)
  {
    assert ss[..|ss|] == ss;
    if !Vacant(RehomeAll(c, ss[..k]), key) {
      OccupiedStays(c, ss, k, |ss|, key);
    }
  }

  /** A migration interrupted after any number of sessions and run again ends with the credentials of an uninterrupted one. */
  lemma {:induction false} ResumeSafe(c: Entries, ss: seq<Session>, k: nat)
    requires !LateSource(ss) && k <= |ss|
    ensures RehomeAll(RehomeAll(c, ss[..k]), ss) == RehomeAll(c, ss)
  {
    var first := RehomeAll(c, ss[..k]);
    var again, end := RehomeAll(first, ss), RehomeAll(c, ss);
    RedoBetween(c, ss, k, |ss|);
    assert ss[..|ss|] == ss;
    forall key | Vacant(again, key) && Vacant(end, key)
      ensures key in again <==> key in end
    {
      VacantIsUntouched(first, ss, key);
      VacantIsUntouched(c, ss, key);
      VacantAllAlong(c, ss, k, key);
      VacantIsUntouched(c, ss[..k], key);
    }
    SameWhenWithin(again, end);
  }

  // ---- And when it is not harmless ----

  /** Sessions that share a new key share the old one and the auth host: several logins of one user on one auth host. */
  predicate RepeatsAgree(ss: seq<Session>) {
    forall i, j | 0 <= i < j < |ss| && Moves(ss[i]) && Moves(ss[j]) && NewKey(ss[i]) == NewKey(ss[j]) :: SameMove(ss[i], ss[j])
  }

  lemma {:induction false} OnlyThatValue(c: Entries, ss: seq<Session>, v: Entry)
    requires forall key | key in c :: c[key] == v
    ensures forall key | key in RehomeAll(c, ss) :: RehomeAll(c, ss)[key] == v
  {
    if ss == [] {
    } else {
      OnlyThatValue(c, ss[..|ss| - 1], v);
    }
  }

  /** A hostless credential under the root: everything filled later holds it too, and anyone may claim it. */
  function Seeded(root: string): Entries {
    map[root := Creds("", "")]
  }

  lemma {:induction false} SeededClaimable(root: string, ss: seq<Session>, n: nat, key: string, authHost: string)
    requires n <= |ss| && !Vacant(RehomeAll(Seeded(root), ss[..n]), key)
    ensures Claimable(RehomeAll(Seeded(root), ss[..n]), key, authHost)
  {
    OnlyThatValue(Seeded(root), ss[..n], Creds("", ""));
  }

  lemma {:induction false} VacantBefore(c: Entries, ss: seq<Session>, m: nat, g: nat, key: string)
    requires m <= g <= |ss| && Vacant(RehomeAll(c, ss[..g]), key)
    ensures Vacant(RehomeAll(c, ss[..m]), key)
  {
    if !Vacant(RehomeAll(c, ss[..m]), key) {
      OccupiedStays(c, ss, m, g, key);
    }
  }

  /** Who can be first to fill a key is, when only the root is filled. */
  lemma {:induction false} CanFillDoes(ss: seq<Session>, root: string, key: string, f: nat)
    requires RepeatsAgree(ss) && f < |ss| && CanFill(ss, root, key, f)
    ensures Vacant(RehomeAll(Seeded(root), ss[..f]), key)
    ensures !Vacant(RehomeAll(Seeded(root), ss[..f + 1]), key)
    decreases f
  {
    var c, s := Seeded(root), ss[f];
    assert ss[..0] == [];
    if s.userKey == root && !Repeated(ss, f, 0) {
      StaysVacant(c, ss, f, key);
      OccupiedStays(c, ss, 0, f, root);
    } else {
      var g :| 0 <= g < f && CanFill(ss, root, s.userKey, g) && !Repeated(ss, f, g + 1);
      CanFillDoes(ss, root, s.userKey, g);
      forall m | 0 <= m < f && Moves(ss[m]) && NewKey(ss[m]) == key
        ensures Vacant(RehomeAll(c, ss[..m]), ss[m].userKey)
      {
        assert SameMove(ss[m], s);
        VacantBefore(c, ss, m, g, s.userKey);
      }
      StaysVacant(c, ss, f, key);
      OccupiedStays(c, ss, g + 1, f, s.userKey);
    }
    SeededClaimable(root, ss, f, s.userKey, s.endpoint.authHostname);
    ServedIsFilled(c, ss, f, f + 1);
  }

  lemma {:induction false} AgreeNotAfter(ss: seq<Session>, j: nat, f: nat, m: nat)
    requires RepeatsAgree(ss) && j < f < |ss| && m < |ss| && Moves(ss[j]) && !CaughtUp(ss, j, f)
    requires m == j || SameMove(ss[m], ss[j])
    ensures m <= f
  {
  }

  /** Uninterrupted, the new key of a late session stays vacant. */
  lemma {:induction false} LateStaysVacant(ss: seq<Session>, root: string, j: nat, f: nat)
    requires RepeatsAgree(ss) && j < |ss| && f < |ss| && Late(ss, root, j, f)
    ensures Vacant(RehomeAll(Seeded(root), ss), NewKey(ss[j]))
  {
    var c := Seeded(root);
    CanFillDoes(ss, root, ss[j].userKey, f);
    forall m | 0 <= m < |ss| && Moves(ss[m]) && NewKey(ss[m]) == NewKey(ss[j])
      ensures Vacant(RehomeAll(c, ss[..m]), ss[m].userKey)
    {
      assert m == j || SameMove(ss[m], ss[j]);
      AgreeNotAfter(ss, j, f, m);
      VacantBefore(c, ss, m, f, ss[j].userKey);
    }
    assert ss[..|ss|] == ss;
    StaysVacant(c, ss, |ss|, NewKey(ss[j]));
  }

  /** Running again copies for j if nothing else fills its new key first; either way that key is filled. */
  lemma {:induction false} RedoClaims(d: Entries, ss: seq<Session>, j: nat)
    requires j < |ss| && Moves(ss[j])
    requires Claimable(d, ss[j].userKey, ss[j].endpoint.authHostname)
    ensures !Vacant(RehomeAll(d, ss), NewKey(ss[j]))
  {
    NeverOverwrites(d, ss[..j], ss[j].userKey);
    ServedIsFilled(d, ss, j, |ss|);
    assert ss[..|ss|] == ss;
  }

  /** From a late source a keyring can be built on which starting over goes differently: a hostless credential is copied once more. */
  lemma {:induction false} ResumeUnsafe(ss: seq<Session>) returns (c: Entries, k: nat)
    requires RepeatsAgree(ss) && LateSource(ss)
    ensures k <= |ss| && RehomeAll(RehomeAll(c, ss[..k]), ss) != RehomeAll(c, ss)
  {
    var r, j, f :| 0 <= r < |ss| && 0 <= j < f < |ss| && Late(ss, ss[r].userKey, j, f);
    var root := ss[r].userKey;
    c, k := Seeded(root), f + 1;
    CanFillDoes(ss, root, ss[j].userKey, f);
    SeededClaimable(root, ss, k, ss[j].userKey, ss[j].endpoint.authHostname);
    LateStaysVacant(ss, root, j, f);
    RedoClaims(RehomeAll(c, ss[..k]), ss, j);
  }

  /** Exactly when is interrupting harmless, whatever the keyring holds and wherever it happens? */
  lemma {:induction false} ResumeSafeIff(ss: seq<Session>)
    requires RepeatsAgree(ss)
    ensures (forall c: Entries, k: nat | k <= |ss| :: RehomeAll(RehomeAll(c, ss[..k]), ss) == RehomeAll(c, ss)) <==> !LateSource(ss)
  {
    if LateSource(ss) {
      var c, k := ResumeUnsafe(ss);
    } else {
      forall c: Entries, k: nat | k <= |ss|
        ensures RehomeAll(RehomeAll(c, ss[..k]), ss) == RehomeAll(c, ss)
      {
        ResumeSafe(c, ss, k);
      }
    }
  }

  lemma LateSourceMoves(first: Session, second: Session)
    requires first.userKey == "ann@one.example" && first.userEmail == "bob" && first.endpoint.authHostname == "two.example"
    requires second.userKey == "ann" && second.userEmail == "ann" && second.endpoint.authHostname == "one.example"
    ensures Moves(first) && Moves(second)
  {
    assert first.userKey[|first.userKey| - 12..] == "@one.example";
    assert "@one.example"[1] != "@two.example"[1];
  }

  /** Two sessions a config can hold: the first moves away from the key the second moves into. */
  lemma LateSourceExample() returns (ss: seq<Session>, c: Entries, k: nat)
    ensures |ss| == 2 && ss[0].userKey == "ann@one.example" && NewKey(ss[1]) == "ann@one.example"
    ensures RepeatsAgree(ss) && LateSource(ss)
    ensures k <= |ss| && RehomeAll(RehomeAll(c, ss[..k]), ss) != RehomeAll(c, ss)
  {
    var first := Session("bob@api.two.example", "ann@one.example", "bob", "", Endpoint("", "two.example", "", false, ""), "");
    var second := Session("ann@api.one.example", "ann", "ann", "", Endpoint("", "one.example", "", false, ""), "");
    ss := [first, second];
    assert NewKey(second) == "ann@one.example" && NewKey(first) == "bob@two.example";
    LateSourceMoves(first, second);
    assert NewKey(first)[0] != NewKey(second)[0];
    assert CanFill(ss, "ann", "ann@one.example", 1) && !CaughtUp(ss, 0, 1);
    assert Late(ss, ss[1].userKey, 0, 1);
    c, k := ResumeUnsafe(ss);
  }

  // ---- The keyring object, whose every access may fail ----

  datatype Got = Value(entry: Entry) | NotFound | GetFailed

  class Keyring {
    var entries: Entries
    var accesses: nat
    const fails: nat -> bool

    constructor (entries: Entries, fails: nat -> bool)
      ensures this.entries == entries && this.fails == fails && accesses == 0
    {
      this.entries, this.fails, accesses := entries, fails, 0;
    }

    method Get(key: string) returns (r: Got)
      modifies this`accesses
      ensures r.GetFailed? <==> fails(old(accesses))
      ensures !r.GetFailed? ==> r == if key in entries then Value(entries[key]) else NotFound
    {
      accesses := accesses + 1;
      if fails(accesses - 1) {
        return GetFailed;
      }
      return if key in entries then Value(entries[key]) else NotFound;
    }

    method Set(key: string, entry: Entry) returns (ok: bool)
      modifies this
      ensures ok <==> !fails(old(accesses))
      ensures entries == if ok then old(entries)[key := entry] else old(entries)
    {
      accesses := accesses + 1;
      if fails(accesses - 1) {
        return false;
      }
      entries := entries[key := entry];
      return true;
    }
  }

  /** The list of known users is readable. */
  predicate KnownReadable(es: Entries) {
    KNOWN_USERS_KEY !in es || es[KNOWN_USERS_KEY].EmptyText? || es[KNOWN_USERS_KEY].Names?
  }

  function KnownUsers(es: Entries): seq<string> {
    if KNOWN_USERS_KEY in es && es[KNOWN_USERS_KEY].Names? then es[KNOWN_USERS_KEY].keys else []
  }

  /** Everything but the list of known users. */
  function CredentialsOf(es: Entries): Entries {
    if KNOWN_USERS_KEY in es && es[KNOWN_USERS_KEY].Creds? then es else es - {KNOWN_USERS_KEY}
  }

  predicate NoDuplicates(keys: seq<string>) {
    forall i, j | 0 <= i < j < |keys| :: keys[i] != keys[j]
  }

  /** The list of known users only grows, by keys not yet on it. */
  method AddKnownUserKey(k: Keyring, newKey: string) returns (ok: bool)
    modifies k
    ensures CredentialsOf(k.entries) == CredentialsOf(old(k.entries))
    ensures KnownReadable(old(k.entries)) ==> KnownReadable(k.entries)
    ensures !KnownReadable(old(k.entries)) ==> !ok && k.entries == old(k.entries)
    ensures ok ==> KnownUsers(k.entries) == KnownUsers(old(k.entries)) + if newKey in KnownUsers(old(k.entries)) then [] else [newKey]
    ensures !ok ==> k.entries == old(k.entries)
    ensures NoDuplicates(KnownUsers(old(k.entries))) ==> NoDuplicates(KnownUsers(k.entries))
    ensures (forall n :: !k.fails(n)) && KnownReadable(old(k.entries)) ==> ok
  {
    var known: seq<string> := [];
    var got := k.Get(KNOWN_USERS_KEY);
    match got {
      case GetFailed => return false;
      case NotFound =>
      case Value(EmptyText) =>
      case Value(Names(keys)) => known := keys;
      case Value(_) => return false;
    }
    var found := false;
    for i := 0 to |known|
      invariant k.entries == old(k.entries)
      invariant !found && newKey !in known[..i]
    {
      if known[i] == newKey {
        found := true;
        break;
      }
    }
    assert known[..|known|] == known;
    assert found <==> newKey in known;
    if !found {
      ok := k.Set(KNOWN_USERS_KEY, Names(known + [newKey]));
      return;
    }
    return true;
  }

  /** `done` says whether the copy took place as far as the credentials go, which it may have even when a later access failed. */
  method RehomeCredential(k: Keyring, s: Session) returns (ok: bool, ghost done: bool)
    requires Moves(s)
    modifies k
    ensures ok ==> done
    ensures CredentialsOf(k.entries) == if done then Rehome(CredentialsOf(old(k.entries)), s) else CredentialsOf(old(k.entries))
    ensures KnownUsers(old(k.entries)) <= KnownUsers(k.entries)
    ensures KnownReadable(old(k.entries)) ==> KnownReadable(k.entries)
    ensures (forall n :: !k.fails(n)) && KnownReadable(old(k.entries)) ==> ok
  {
    var oldKey, newKey, authHost := s.userKey, NewKey(s), s.endpoint.authHostname;
    NewKeyQualified(s);
    var raw := k.Get(oldKey);
    if raw.GetFailed? {
      return false, false;
    }
    if raw.NotFound? || !raw.entry.Creds? {
      return true, true;
    }
    if raw.entry.hostname != "" && raw.entry.hostname != authHost {
      return true, true;
    }
    var existing := k.Get(newKey);
    if existing.Value? && !existing.entry.EmptyText? {
      return true, true;
    }
    if existing.GetFailed? {
      return false, false;
    }
    var stored := k.Set(newKey, raw.entry);
    if !stored {
      return false, false;
    }
    assert CredentialsOf(k.entries) == Rehome(CredentialsOf(old(k.entries)), s);
    ok := AddKnownUserKey(k, newKey);
    done := true;
  }

  /** The keyring has come from `before` to `now` by serving these sessions; the list of known users has only grown. */
  ghost predicate Progress(before: Entries, now: Entries, ss: seq<Session>) {
    && CredentialsOf(now) == RehomeAll(CredentialsOf(before), ss)
    && KnownUsers(before) <= KnownUsers(now)
    && (KnownReadable(before) ==> KnownReadable(now))
  }

  lemma ProgressNext(before: Entries, mid: Entries, now: Entries, ss: seq<Session>, s: Session)
    requires Progress(before, mid, ss) && Progress(mid, now, [s])
    ensures Progress(before, now, ss + [s])
  {
    RehomeConcat(CredentialsOf(before), ss, [s]);
  }

  /** The loop body: what happens to one session. */
  method MigrateSession(k: Keyring, s: Session) returns (moved: Session, did: bool, ok: bool, ghost done: bool)
    modifies k
    ensures ok ==> moved == Moved(s) && did == Moves(s) && done
    ensures Progress(old(k.entries), k.entries, if done then [s] else [])
    ensures (forall n :: !k.fails(n)) && KnownReadable(old(k.entries)) ==> ok
  {
    assert [s][..0] == [];
    if s.endpoint.authHostname == "" || s.userKey == "" {
      return s, false, true, true;
    }
    if HasSuffix(s.userKey, "@" + s.endpoint.authHostname) {
      return s, false, true, true;
    }
    var identity := if s.userEmail == "" then s.userKey else s.userEmail;
    var newKey := UserKeyFor(identity, s.endpoint.authHostname);
    if newKey == s.userKey {
      return s, false, true, true;
    }
    ok, done := RehomeCredential(k, s);
    moved, did := s.(userKey := newKey), true;
  }

  lemma PrefixNext(ss: seq<Session>, i: nat)
    requires i < |ss|
    ensures ss[..i + 1] == ss[..i] + [ss[i]]
    ensures MovedAll(ss[..i + 1]) == MovedAll(ss[..i]) + [Moved(ss[i])]
    ensures AnyMoves(ss[..i + 1]) == (Moves(ss[i]) || AnyMoves(ss[..i]))
  {
  }

  /**
    The migration loop. Wherever it stops - at the end or at a failing access - the
    credentials are those of a migration that stopped after some whole number of sessions,
    so starting over is covered by the lemmas above. Only when it got to the end is there
    a config to save.
   */
  method MigrateUserKeys(k: Keyring, ss: seq<Session>) returns (moved: seq<Session>, changed: bool, ok: bool, ghost served: nat)
    modifies k
    ensures ok ==> moved == MovedAll(ss) && served == |ss|
    ensures ok ==> changed == AnyMoves(ss)
    ensures served <= |ss| && Progress(old(k.entries), k.entries, ss[..served])
    ensures (forall n :: !k.fails(n)) && KnownReadable(old(k.entries)) ==> ok
  {
    moved, changed, served := [], false, 0;
    for i := 0 to |ss|
      invariant served == i
      invariant moved == MovedAll(ss[..i])
      invariant changed == AnyMoves(ss[..i])
      invariant Progress(old(k.entries), k.entries, ss[..i])
    {
      PrefixNext(ss, i);
      ghost var mid := k.entries;
      var s, did;
      ghost var done;
      s, did, ok, done := MigrateSession(k, ss[i]);
      if done {
        ProgressNext(old(k.entries), mid, k.entries, ss[..i], ss[i]);
        served := i + 1;
      }
      if !ok {
        return;
      }
      changed := changed || did;
      moved := moved + [s];
    }
    assert ss[..|ss|] == ss;
    return moved, changed, true, served;
  }
}
