/** Deduplication of an imported batch of accounts (admin/handler.go:2358-2405, 2657-2707, 2758-2798). */
module ImportDedupe {
  import opened Basics

  datatype Token = Token(refreshToken: string, sessionToken: string, accessToken: string, chatgptAccountID: string) {
    function ID(): string {
      Trim(chatgptAccountID)
    }

    predicate HasCredential() {
      refreshToken != "" || sessionToken != "" || accessToken != ""
    }
  }

  datatype Kind = RefreshKind | SessionKind | AccessKind | NoKind

  /** A token's primary credential; the prefixes rt:, st: and at: of the code are the kinds here. */
  datatype Identity = Identity(kind: Kind, credential: string)

  function IdentityOf(t: Token): Identity {
    if t.refreshToken != "" then Identity(RefreshKind, t.refreshToken)
    else if t.sessionToken != "" then Identity(SessionKind, t.sessionToken)
    else if t.accessToken != "" then Identity(AccessKind, t.accessToken)
    else Identity(NoKind, "")
  }

  function Credential(t: Token, kind: Kind): string {
    match kind
    case RefreshKind => t.refreshToken
    case SessionKind => t.sessionToken
    case AccessKind => t.accessToken
    case NoKind => ""
  }

  // ----- conflicting ids -----

  predicate Claims(t: Token, id: string, identity: Identity) {
    id != "" && t.ID() == id && t.HasCredential() && IdentityOf(t) == identity
  }

  /** Two tokens of the batch carry the id with different credentials. */
  ghost predicate Conflicting(tokens: seq<Token>, id: string) {
    exists t, u :: t in tokens && u in tokens && Claims(t, id, IdentityOf(t)) && Claims(u, id, IdentityOf(u)) && IdentityOf(t) != IdentityOf(u)
  }

  ghost predicate Collected(tokens: seq<Token>, identities: map<string, set<Identity>>) {
    && (forall id, x :: id in identities && x in identities[id] ==> exists t :: t in tokens && Claims(t, id, x))
    && (forall t :: t in tokens && t.ID() != "" && t.HasCredential() ==> t.ID() in identities && IdentityOf(t) in identities[t.ID()])
  }

  lemma CollectedOneMore(tokens: seq<Token>, identities: map<string, set<Identity>>, t: Token)
    requires Collected(tokens, identities) && t.ID() != "" && t.HasCredential()
    ensures
      var known := if t.ID() in identities then identities[t.ID()] else {};
      Collected(tokens + [t], identities[t.ID() := known + {IdentityOf(t)}])
  {
    var known := if t.ID() in identities then identities[t.ID()] else {};
    var after := identities[t.ID() := known + {IdentityOf(t)}];
    forall id, x | id in after && x in after[id]
      ensures exists u :: u in tokens + [t] && Claims(u, id, x)
    {
      if id in identities && x in identities[id] {
        var u :| u in tokens && Claims(u, id, x);
        assert u in tokens + [t];
      } else {
        assert t in tokens + [t] && Claims(t, id, x);
      }
    }
  }

  lemma {:induction false} SubsetSize<T>(a: set<T>, b: set<T>)
    requires a <= b
    ensures |a| <= |b|
  {
    if a != {} {
      var x :| x in a;
      SubsetSize(a - {x}, b - {x});
    }
  }

  lemma ManyMembers<T>(s: set<T>)
    ensures |s| > 1 <==> exists x, y :: x in s && y in s && x != y
  {
    if |s| > 1 {
      var x :| x in s;
      assert |s - {x}| > 0;
      var y :| y in s - {x};
    } else if x, y :| x in s && y in s && x != y {
      assert {x, y} <= s;
      SubsetSize({x, y}, s);
    }
  }

  lemma ConflictsAreMany(tokens: seq<Token>, identities: map<string, set<Identity>>, id: string)
    requires Collected(tokens, identities)
    ensures Conflicting(tokens, id) <==> id in identities && |identities[id]| > 1
  {
    if id in identities {
      ManyMembers(identities[id]);
    }
  }

  /** conflictingImportChatGPTIDs */
  method ConflictingIDs(tokens: seq<Token>) returns (conflicts: set<string>)
    ensures forall id :: id in conflicts <==> Conflicting(tokens, id)
  {
    var identities: map<string, set<Identity>> := map[];
    for i := 0 to |tokens|
      invariant Collected(tokens[..i], identities)
    {
      var t := tokens[i];
      assert tokens[..i + 1] == tokens[..i] + [t];
      var id := t.ID();
      if id == "" {
        continue;
      }
      if !t.HasCredential() {
        continue;
      }
      CollectedOneMore(tokens[..i], identities, t);
      var known := if id in identities then identities[id] else {};
      identities := identities[id := known + {IdentityOf(t)}];
    }
    assert tokens[..|tokens|] == tokens;
    conflicts := set id | id in identities && |identities[id]| > 1;
    forall id
      ensures id in conflicts <==> Conflicting(tokens, id)
    {
      ConflictsAreMany(tokens, identities, id);
    }
  }

  /** Of refresh, session and access token, the first that one of them has is the same in both. */
  predicate SameFirstCredential(t: Token, u: Token) {
    if t.refreshToken != "" || u.refreshToken != "" then t.refreshToken == u.refreshToken
    else if t.sessionToken != "" || u.sessionToken != "" then t.sessionToken == u.sessionToken
    else t.accessToken == u.accessToken
  }

  /** Which ids conflict, told by the fields of the tokens. */
  lemma ConflictingMeans(tokens: seq<Token>, id: string)
    ensures Conflicting(tokens, id) <==> exists t, u ::
      && t in tokens && u in tokens && id != "" && Trim(t.chatgptAccountID) == Trim(u.chatgptAccountID) == id
      && (t.refreshToken != "" || t.sessionToken != "" || t.accessToken != "")
      && (u.refreshToken != "" || u.sessionToken != "" || u.accessToken != "")
      && !SameFirstCredential(t, u)
  {
    assert forall t: Token, u: Token :: t.HasCredential() && u.HasCredential() ==>
      (SameFirstCredential(t, u) <==> IdentityOf(t) == IdentityOf(u));
  }

  /** reliableImportChatGPTID */
  function ReliableID(t: Token, conflicts: set<string>): string {
    if t.ID() in conflicts then "" else t.ID()
  }

  // ----- within the batch -----

  /** No earlier token has the same reliable id. */
  predicate FirstOfItsID(tokens: seq<Token>, conflicts: set<string>, i: nat)
    requires i < |tokens|
  {
    forall j :: 0 <= j < i ==> ReliableID(tokens[j], conflicts) != ReliableID(tokens[i], conflicts)
  }

  /** The token's credentials are remembered: all but those of a repeated reliable id. */
  predicate Remembered(tokens: seq<Token>, conflicts: set<string>, j: nat)
    requires j < |tokens|
  {
    ReliableID(tokens[j], conflicts) == "" || FirstOfItsID(tokens, conflicts, j)
  }

  predicate SharesPrimary(t: Token, earlier: Token) {
    t.HasCredential() && Credential(earlier, IdentityOf(t).kind) == IdentityOf(t).credential
  }

  /** The rule for keeping a token, stated outright. */
  predicate Kept(tokens: seq<Token>, conflicts: set<string>, i: nat)
    requires i < |tokens|
  {
    if ReliableID(tokens[i], conflicts) != "" then FirstOfItsID(tokens, conflicts, i)
    else
      && tokens[i].HasCredential()
      && forall j :: 0 <= j < i && Remembered(tokens, conflicts, j) ==> !SharesPrimary(tokens[i], tokens[j])
  }

  function KeptOf(tokens: seq<Token>, conflicts: set<string>, n: nat): seq<Token>
    requires n <= |tokens|
  {
    if n == 0 then []
    else KeptOf(tokens, conflicts, n - 1) + if Kept(tokens, conflicts, n - 1) then [tokens[n - 1]] else []
  }

  /** The sets hold the ids, and the credentials of one kind, of the first `n` tokens that are remembered. */
  ghost predicate SeenIDs(tokens: seq<Token>, conflicts: set<string>, n: nat, seen: set<string>)
    requires n <= |tokens|
  {
    forall id :: id in seen <==> id != "" && exists j :: 0 <= j < n && ReliableID(tokens[j], conflicts) == id
  }

  ghost predicate SeenOf(tokens: seq<Token>, conflicts: set<string>, n: nat, kind: Kind, seen: set<string>)
    requires n <= |tokens|
  {
    forall c :: c in seen <==> c != "" && exists j :: 0 <= j < n && Remembered(tokens, conflicts, j) && Credential(tokens[j], kind) == c
  }

  function Remember(seen: set<string>, credential: string): set<string> {
    if credential != "" then seen + {credential} else seen
  }

  lemma NothingSeen(tokens: seq<Token>, conflicts: set<string>)
    ensures SeenIDs(tokens, conflicts, 0, {})
    ensures forall kind :: SeenOf(tokens, conflicts, 0, kind, {})
  {
  }

  lemma SeenOneMoreOf(tokens: seq<Token>, conflicts: set<string>, i: nat, kind: Kind, seen: set<string>)
    requires i < |tokens| && SeenOf(tokens, conflicts, i, kind, seen)
    ensures SeenOf(tokens, conflicts, i + 1, kind,
                   if Remembered(tokens, conflicts, i) then Remember(seen, Credential(tokens[i], kind)) else seen)
  {
    hide Remembered, Credential;
  }

  lemma SeenOneMore(tokens: seq<Token>, conflicts: set<string>, i: nat, seenRT: set<string>, seenST: set<string>, seenAT: set<string>)
    requires i < |tokens|
    requires SeenOf(tokens, conflicts, i, RefreshKind, seenRT)
    requires SeenOf(tokens, conflicts, i, SessionKind, seenST)
    requires SeenOf(tokens, conflicts, i, AccessKind, seenAT)
    ensures var t, r := tokens[i], Remembered(tokens, conflicts, i);
      && SeenOf(tokens, conflicts, i + 1, RefreshKind, if r then Remember(seenRT, t.refreshToken) else seenRT)
      && SeenOf(tokens, conflicts, i + 1, SessionKind, if r then Remember(seenST, t.sessionToken) else seenST)
      && SeenOf(tokens, conflicts, i + 1, AccessKind, if r then Remember(seenAT, t.accessToken) else seenAT)
  {
    SeenOneMoreOf(tokens, conflicts, i, RefreshKind, seenRT);
    SeenOneMoreOf(tokens, conflicts, i, SessionKind, seenST);
    SeenOneMoreOf(tokens, conflicts, i, AccessKind, seenAT);
  }

  lemma KeptBySeen(tokens: seq<Token>, conflicts: set<string>, i: nat,
                   seenID: set<string>, seenRT: set<string>, seenST: set<string>, seenAT: set<string>)
    requires i < |tokens| && SeenIDs(tokens, conflicts, i, seenID)
    requires SeenOf(tokens, conflicts, i, RefreshKind, seenRT)
    requires SeenOf(tokens, conflicts, i, SessionKind, seenST)
    requires SeenOf(tokens, conflicts, i, AccessKind, seenAT)
    ensures var t, id := tokens[i], ReliableID(tokens[i], conflicts);
      && (id != "" ==> (Kept(tokens, conflicts, i) <==> id !in seenID) && (Remembered(tokens, conflicts, i) <==> id !in seenID))
      && (id == "" ==> Remembered(tokens, conflicts, i))
      && (id == "" ==> (Kept(tokens, conflicts, i) <==>
            if t.refreshToken != "" then t.refreshToken !in seenRT
            else if t.sessionToken != "" then t.sessionToken !in seenST
            else t.accessToken != "" && t.accessToken !in seenAT))
      && SeenIDs(tokens, conflicts, i + 1, if id != "" then seenID + {id} else seenID)
  {
  }

  /** The first loop of importAccountsCommon. */
  method Dedupe(tokens: seq<Token>, conflicts: set<string>) returns (unique: seq<Token>)
    ensures unique == KeptOf(tokens, conflicts, |tokens|)
  {
    hide Kept, Remembered, SeenOf, SeenIDs, FirstOfItsID, ReliableID;
    var seenID: set<string>, seenRT: set<string>, seenST: set<string>, seenAT: set<string> := {}, {}, {}, {};
    unique := [];
    NothingSeen(tokens, conflicts);
    for i := 0 to |tokens|
      invariant unique == KeptOf(tokens, conflicts, i)
      invariant SeenIDs(tokens, conflicts, i, seenID)
      invariant SeenOf(tokens, conflicts, i, RefreshKind, seenRT)
      invariant SeenOf(tokens, conflicts, i, SessionKind, seenST)
      invariant SeenOf(tokens, conflicts, i, AccessKind, seenAT)
    {
      var t := tokens[i];
      var id := ReliableID(t, conflicts);
      SeenOneMore(tokens, conflicts, i, seenRT, seenST, seenAT);
      KeptBySeen(tokens, conflicts, i, seenID, seenRT, seenST, seenAT);
      assert t.refreshToken in seenRT ==> seenRT + {t.refreshToken} == seenRT;
      assert t.sessionToken in seenST ==> seenST + {t.sessionToken} == seenST;
      assert t.accessToken in seenAT ==> seenAT + {t.accessToken} == seenAT;
      assert id in seenID ==> seenID + {id} == seenID;
      if id != "" {
        if id in seenID {
          continue;
        }
        seenID := seenID + {id};
        seenRT, seenST, seenAT := Remember(seenRT, t.refreshToken), Remember(seenST, t.sessionToken), Remember(seenAT, t.accessToken);
        unique := unique + [t];
        continue;
      }
      if t.refreshToken != "" {
        if t.refreshToken !in seenRT {
          seenRT := seenRT + {t.refreshToken};
          unique := unique + [t];
        }
        seenST, seenAT := Remember(seenST, t.sessionToken), Remember(seenAT, t.accessToken);
      } else if t.sessionToken != "" {
        if t.sessionToken !in seenST {
          seenST := seenST + {t.sessionToken};
          unique := unique + [t];
        }
        seenAT := Remember(seenAT, t.accessToken);
      } else if t.accessToken != "" {
        if t.accessToken !in seenAT {
          seenAT := seenAT + {t.accessToken};
          unique := unique + [t];
        }
      }
    }
  }

  // ----- what the batch loop promises -----

  /** Where a kept token was in the batch. */
  lemma {:induction false} KeptCameFrom(tokens: seq<Token>, conflicts: set<string>, n: nat, a: nat) returns (i: nat)
    requires n <= |tokens| && a < |KeptOf(tokens, conflicts, n)|
    ensures i < n && tokens[i] == KeptOf(tokens, conflicts, n)[a] && Kept(tokens, conflicts, i)
    ensures |KeptOf(tokens, conflicts, i)| == a
  {
    if a < |KeptOf(tokens, conflicts, n - 1)| {
      i := KeptCameFrom(tokens, conflicts, n - 1, a);
    } else {
      i := n - 1;
    }
  }

  lemma {:induction false} KeptGrows(tokens: seq<Token>, conflicts: set<string>, m: nat, n: nat)
    requires m <= n <= |tokens|
    ensures KeptOf(tokens, conflicts, m) <= KeptOf(tokens, conflicts, n)
    decreases n
  {
    hide Kept;
    if m < n {
      KeptGrows(tokens, conflicts, m, n - 1);
    }
  }

  /** Kept tokens have different reliable ids; those without one have different credentials. */
  lemma KeptAreDistinct(tokens: seq<Token>, conflicts: set<string>, a: nat, b: nat)
    requires a < b < |KeptOf(tokens, conflicts, |tokens|)|
    ensures var u := KeptOf(tokens, conflicts, |tokens|);
      if ReliableID(u[a], conflicts) == "" && ReliableID(u[b], conflicts) == "" then IdentityOf(u[a]) != IdentityOf(u[b])
      else ReliableID(u[a], conflicts) != ReliableID(u[b], conflicts)
    ensures var u := KeptOf(tokens, conflicts, |tokens|);
      u[a].ID() == u[b].ID() != "" ==> u[a].ID() in conflicts
  {
    var i := KeptCameFrom(tokens, conflicts, |tokens|, a);
    var j := KeptCameFrom(tokens, conflicts, |tokens|, b);
    if j <= i {
      KeptGrows(tokens, conflicts, j, i);
    }
  }

  lemma {:induction false} KeptIsIn(tokens: seq<Token>, conflicts: set<string>, n: nat, i: nat)
    requires i < n <= |tokens| && Kept(tokens, conflicts, i)
    ensures tokens[i] in KeptOf(tokens, conflicts, n)
  {
    if i < n - 1 {
      hide Kept;
      KeptIsIn(tokens, conflicts, n - 1, i);
    }
  }

  /** The first token with an id that does not conflict is kept, whatever credentials it shares. */
  lemma FirstOfIDIsKept(tokens: seq<Token>, conflicts: set<string>, i: nat)
    requires i < |tokens| && Trim(tokens[i].chatgptAccountID) != "" && Trim(tokens[i].chatgptAccountID) !in conflicts
    requires forall j :: 0 <= j < i ==> Trim(tokens[j].chatgptAccountID) != Trim(tokens[i].chatgptAccountID)
    ensures tokens[i] in KeptOf(tokens, conflicts, |tokens|)
  {
    KeptIsIn(tokens, conflicts, |tokens|, i);
  }

  /** Two tokens of the batch that share a reliable id share their credential too. */
  lemma SameIDSameCredential(tokens: seq<Token>, conflicts: set<string>, t: Token, u: Token)
    requires forall id :: id in conflicts <==> Conflicting(tokens, id)
    requires t in tokens && u in tokens && t.HasCredential() && u.HasCredential()
    requires ReliableID(t, conflicts) == ReliableID(u, conflicts) != ""
    ensures IdentityOf(t) == IdentityOf(u)
  {
    if IdentityOf(t) != IdentityOf(u) {
      assert Claims(t, t.ID(), IdentityOf(t)) && Claims(u, t.ID(), IdentityOf(u));
      assert Conflicting(tokens, t.ID());
    }
  }

  /** The later token's primary credential, the first it has of refresh, session and access token, is one of the earlier token's. */
  predicate Repeats(tokens: seq<Token>, i: nat, j: nat) {
    && j < i < |tokens|
    && var t, earlier := tokens[i], tokens[j];
      if t.refreshToken != "" then earlier.refreshToken == t.refreshToken
      else if t.sessionToken != "" then earlier.sessionToken == t.sessionToken
      else t.accessToken != "" && earlier.accessToken == t.accessToken
  }

  /** A token with a credential is dropped only when an earlier token has that credential. */
  lemma DroppedIsRepeated(tokens: seq<Token>, conflicts: set<string>, i: nat) returns (j: nat)
    requires forall id :: id in conflicts <==> Conflicting(tokens, id)
    requires forall t :: t in tokens ==> t.HasCredential()
    requires i < |tokens| && !Kept(tokens, conflicts, i)
    ensures Repeats(tokens, i, j)
  {
    if ReliableID(tokens[i], conflicts) != "" {
      j :| 0 <= j < i && ReliableID(tokens[j], conflicts) == ReliableID(tokens[i], conflicts);
      SameIDSameCredential(tokens, conflicts, tokens[i], tokens[j]);
    } else {
      j :| 0 <= j < i && Remembered(tokens, conflicts, j) && SharesPrimary(tokens[i], tokens[j]);
    }
  }

  /** From a token back to a kept one, each step to an earlier token that has its primary credential. */
  ghost predicate LeadsTo(tokens: seq<Token>, conflicts: set<string>, chain: seq<nat>, i: nat) {
    && chain != [] && chain[0] == i
    && (forall n :: 0 < n < |chain| ==> Repeats(tokens, chain[n - 1], chain[n]))
    && chain[|chain| - 1] < |tokens| && Kept(tokens, conflicts, chain[|chain| - 1])
  }

  /** No token is lost without a trace: shared credentials lead from it to one that is kept. */
  lemma {:induction false} DroppedLeadsToKept(tokens: seq<Token>, conflicts: set<string>, i: nat) returns (chain: seq<nat>)
    requires forall id :: id in conflicts <==> Conflicting(tokens, id)
    requires forall t :: t in tokens ==> t.HasCredential()
    requires i < |tokens|
    ensures LeadsTo(tokens, conflicts, chain, i)
    decreases i
  {
    if Kept(tokens, conflicts, i) {
      chain := [i];
    } else {
      hide Kept;
      var j := DroppedIsRepeated(tokens, conflicts, i);
      var rest := DroppedLeadsToKept(tokens, conflicts, j);
      chain := [i] + rest;
      forall n | 0 < n < |chain|
        ensures Repeats(tokens, chain[n - 1], chain[n])
      {
        assert n > 1 ==> chain[n - 1] == rest[n - 2] && chain[n] == rest[n - 1];
      }
    }
  }

  predicate Carries(t: Token, kind: Kind, credential: string) {
    credential != "" && Credential(t, kind) == credential
  }

  /** A kept token has the credential. */
  ghost predicate Survives(tokens: seq<Token>, conflicts: set<string>, kind: Kind, credential: string) {
    exists t :: t in KeptOf(tokens, conflicts, |tokens|) && Carries(t, kind, credential)
  }

  predicate NoneEarlier(tokens: seq<Token>, conflicts: set<string>, i: nat, kind: Kind, credential: string)
    requires i < |tokens|
  {
    forall j :: 0 <= j < i && Remembered(tokens, conflicts, j) ==> !Carries(tokens[j], kind, credential)
  }

  /**
   * What saves a credential: a remembered carrier with a reliable id, or one whose own primary credential no
   * remembered token before it has brought.
   */
  predicate Saves(tokens: seq<Token>, conflicts: set<string>, i: nat, kind: Kind, credential: string)
    requires i < |tokens|
  {
    var t := tokens[i];
    && Carries(t, kind, credential) && Remembered(tokens, conflicts, i)
    && (ReliableID(t, conflicts) != "" || NoneEarlier(tokens, conflicts, i, IdentityOf(t).kind, IdentityOf(t).credential))
  }

  /** A carrier is kept exactly when it saves the credential. */
  lemma KeptSaves(tokens: seq<Token>, conflicts: set<string>, i: nat, kind: Kind, credential: string)
    requires i < |tokens| && Carries(tokens[i], kind, credential)
    ensures Kept(tokens, conflicts, i) <==> Saves(tokens, conflicts, i, kind, credential)
  {
    var own := IdentityOf(tokens[i]);
    assert forall j :: 0 <= j < i ==> (SharesPrimary(tokens[i], tokens[j]) <==> Carries(tokens[j], own.kind, own.credential));
  }

  lemma SavedIsCarried(tokens: seq<Token>, conflicts: set<string>, i: nat, kind: Kind, credential: string)
    requires i < |tokens| && Saves(tokens, conflicts, i, kind, credential)
    ensures Carries(tokens[i], kind, credential)
  {
  }

  /** Exactly which credentials of a batch survive in a kept token. */
  lemma SurvivesIffSaved(tokens: seq<Token>, conflicts: set<string>, kind: Kind, credential: string)
    ensures Survives(tokens, conflicts, kind, credential) <==>
      exists i :: 0 <= i < |tokens| && Saves(tokens, conflicts, i, kind, credential)
  {
    hide Kept, Saves;
    if Survives(tokens, conflicts, kind, credential) {
      var unique := KeptOf(tokens, conflicts, |tokens|);
      var t :| t in unique && Carries(t, kind, credential);
      var a :| 0 <= a < |unique| && unique[a] == t;
      var i := KeptCameFrom(tokens, conflicts, |tokens|, a);
      KeptSaves(tokens, conflicts, i, kind, credential);
    }
    if i :| 0 <= i < |tokens| && Saves(tokens, conflicts, i, kind, credential) {
      SavedIsCarried(tokens, conflicts, i, kind, credential);
      KeptSaves(tokens, conflicts, i, kind, credential);
      KeptIsIn(tokens, conflicts, |tokens|, i);
    }
  }

  /** The first of the remembered carriers, if there are any up to `n`. */
  lemma {:induction false} FirstRemembered(tokens: seq<Token>, conflicts: set<string>, n: nat, kind: Kind, credential: string) returns (i: nat)
    requires n < |tokens| && Remembered(tokens, conflicts, n) && Carries(tokens[n], kind, credential)
    ensures i <= n && Remembered(tokens, conflicts, i) && Carries(tokens[i], kind, credential)
    ensures NoneEarlier(tokens, conflicts, i, kind, credential)
    decreases n
  {
    if j :| 0 <= j < n && Remembered(tokens, conflicts, j) && Carries(tokens[j], kind, credential) {
      i := FirstRemembered(tokens, conflicts, j, kind, credential);
    } else {
      i := n;
    }
  }

  /** The first token with a reliable id is remembered. */
  lemma {:induction false} FirstWithID(tokens: seq<Token>, conflicts: set<string>, n: nat) returns (i: nat)
    requires n < |tokens|
    ensures i <= n && ReliableID(tokens[i], conflicts) == ReliableID(tokens[n], conflicts) && FirstOfItsID(tokens, conflicts, i)
    decreases n
  {
    if j :| 0 <= j < n && ReliableID(tokens[j], conflicts) == ReliableID(tokens[n], conflicts) {
      i := FirstWithID(tokens, conflicts, j);
    } else {
      i := n;
    }
  }

  /** When every token carries a single credential, none is lost. */
  lemma SingleCredentialsSurvive(tokens: seq<Token>, conflicts: set<string>, n: nat, kind: Kind, credential: string)
    requires forall id :: id in conflicts <==> Conflicting(tokens, id)
    requires forall t :: t in tokens ==> t.HasCredential() && forall k, c :: Carries(t, k, c) ==> IdentityOf(t) == Identity(k, c)
    requires n < |tokens| && Carries(tokens[n], kind, credential)
    ensures Survives(tokens, conflicts, kind, credential)
  {
    var m := n;
    if !Remembered(tokens, conflicts, n) {
      m := FirstWithID(tokens, conflicts, n);
      SameIDSameCredential(tokens, conflicts, tokens[n], tokens[m]);
    }
    var i := FirstRemembered(tokens, conflicts, m, kind, credential);
    assert tokens[i] in tokens;
    assert Saves(tokens, conflicts, i, kind, credential);
    SurvivesIffSaved(tokens, conflicts, kind, credential);
  }

  /** Some are lost: a credential remembered from a dropped token drops the token that brings it again. */
  lemma SecondHandCredentialIsLost(rt: string, st: string)
    requires rt != "" && st != ""
    ensures var tokens := [Token(rt, "", "", ""), Token(rt, st, "", ""), Token("", st, "", "")];
      && (forall id :: !Conflicting(tokens, id))
      && KeptOf(tokens, {}, 3) == [Token(rt, "", "", "")]
      && Carries(tokens[2], SessionKind, st) && !Survives(tokens, {}, SessionKind, st)
  {
    var tokens := [Token(rt, "", "", ""), Token(rt, st, "", ""), Token("", st, "", "")];
    assert Trim("") == "";
    assert Kept(tokens, {}, 0);
    assert SharesPrimary(tokens[1], tokens[0]) && Remembered(tokens, {}, 0);
    assert SharesPrimary(tokens[2], tokens[1]) && Remembered(tokens, {}, 1);
    assert !Kept(tokens, {}, 1) && !Kept(tokens, {}, 2);
    assert KeptOf(tokens, {}, 1) == [tokens[0]];
    assert KeptOf(tokens, {}, 2) == [tokens[0]];
  }

  // ----- against the database -----

  /** The credentials and account ids already stored. */
  datatype Stored = Stored(refresh: set<string>, session: set<string>, access: set<string>, ids: set<string>)

  /** One of the credentials counts as stored: the refresh token's test covers the others only without a reliable id. */
  predicate Known(t: Token, conflicts: set<string>, db: Stored) {
    var id := ReliableID(t, conflicts);
    || (id != "" && id in db.ids)
    || (t.refreshToken != "" && id == ""
        && (t.refreshToken in db.refresh || (t.sessionToken != "" && t.sessionToken in db.session)
            || (t.accessToken != "" && t.accessToken in db.access)))
    || (t.refreshToken == "" && t.sessionToken != ""
        && (t.sessionToken in db.session || (t.accessToken != "" && t.accessToken in db.access)))
    || (t.refreshToken == t.sessionToken == "" && t.accessToken != "" && t.accessToken in db.access)
  }

  /** Neither new nor a duplicate: a token without a credential whose id is not stored. */
  predicate Uncounted(t: Token, conflicts: set<string>, db: Stored) {
    !t.HasCredential() && !Known(t, conflicts, db)
  }

  function NewOf(unique: seq<Token>, conflicts: set<string>, db: Stored): seq<Token> {
    if unique == [] then []
    else
      var t := unique[|unique| - 1];
      NewOf(unique[..|unique| - 1], conflicts, db) + if t.HasCredential() && !Known(t, conflicts, db) then [t] else []
  }

  function KnownOf(unique: seq<Token>, conflicts: set<string>, db: Stored): nat {
    if unique == [] then 0
    else KnownOf(unique[..|unique| - 1], conflicts, db) + if Known(unique[|unique| - 1], conflicts, db) then 1 else 0
  }

  /** The second loop of importAccountsCommon. */
  method SplitNew(unique: seq<Token>, conflicts: set<string>, db: Stored) returns (newTokens: seq<Token>, duplicates: nat)
    ensures newTokens == NewOf(unique, conflicts, db)
    ensures duplicates == KnownOf(unique, conflicts, db)
  {
    newTokens, duplicates := [], 0;
    for i := 0 to |unique|
      invariant newTokens == NewOf(unique[..i], conflicts, db)
      invariant duplicates == KnownOf(unique[..i], conflicts, db)
    {
      var t := unique[i];
      assert unique[..i + 1][..i] == unique[..i];
      var id := ReliableID(t, conflicts);
      if id != "" && id in db.ids {
        duplicates := duplicates + 1;
        continue;
      }
      if t.refreshToken != "" {
        if id == "" && t.refreshToken in db.refresh {
          duplicates := duplicates + 1;
        } else if id == "" && t.sessionToken != "" && t.sessionToken in db.session {
          duplicates := duplicates + 1;
        } else if id == "" && t.accessToken != "" && t.accessToken in db.access {
          duplicates := duplicates + 1;
        } else {
          newTokens := newTokens + [t];
        }
      } else if t.sessionToken != "" {
        if t.sessionToken in db.session {
          duplicates := duplicates + 1;
        } else if t.accessToken != "" && t.accessToken in db.access {
          duplicates := duplicates + 1;
        } else {
          newTokens := newTokens + [t];
        }
      } else if t.accessToken != "" {
        if t.accessToken in db.access {
          duplicates := duplicates + 1;
        } else {
          newTokens := newTokens + [t];
        }
      }
    }
    assert unique[..|unique|] == unique;
  }

  /** Duplicates and new tokens make up the batch exactly when no token of it goes uncounted. */
  lemma {:induction false} CountsAddUp(unique: seq<Token>, conflicts: set<string>, db: Stored)
    ensures KnownOf(unique, conflicts, db) + |NewOf(unique, conflicts, db)| <= |unique|
    ensures KnownOf(unique, conflicts, db) + |NewOf(unique, conflicts, db)| == |unique| <==>
      forall t :: t in unique ==> !Uncounted(t, conflicts, db)
  {
    if unique != [] {
      var rest, t := unique[..|unique| - 1], unique[|unique| - 1];
      CountsAddUp(rest, conflicts, db);
      assert unique == rest + [t];
      assert Known(t, conflicts, db) || t.HasCredential() <==> !Uncounted(t, conflicts, db);
    }
  }

  lemma {:induction false} NewIsNotKnown(unique: seq<Token>, conflicts: set<string>, db: Stored, t: Token)
    ensures t in NewOf(unique, conflicts, db) <==> t in unique && t.HasCredential() && !Known(t, conflicts, db)
    ensures multiset(NewOf(unique, conflicts, db)) <= multiset(unique)
  {
    hide Known;
    if unique != [] {
      NewIsNotKnown(unique[..|unique| - 1], conflicts, db, t);
      assert unique == unique[..|unique| - 1] + [unique[|unique| - 1]];
    }
  }

  lemma {:induction false} KnownIsCounted(unique: seq<Token>, conflicts: set<string>, db: Stored)
    ensures KnownOf(unique, conflicts, db) == |set i | 0 <= i < |unique| && Known(unique[i], conflicts, db)|
  {
    hide Known;
    var all := set i | 0 <= i < |unique| && Known(unique[i], conflicts, db);
    if unique == [] {
      assert all == {};
    } else {
      var n := |unique| - 1;
      var before := set i | 0 <= i < n && Known(unique[..n][i], conflicts, db);
      KnownIsCounted(unique[..n], conflicts, db);
      assert all == before + if Known(unique[n], conflicts, db) then {n} else {};
    }
  }

  /** What is stored of a token, told by the batch and the stored sets. */
  lemma KnownMeans(tokens: seq<Token>, conflicts: set<string>, db: Stored, t: Token)
    requires forall id :: id in conflicts <==> Conflicting(tokens, id)
    ensures Known(t, conflicts, db) <==>
      || (t.ID() != "" && !Conflicting(tokens, t.ID()) && t.ID() in db.ids)
      || ((t.ID() == "" || Conflicting(tokens, t.ID()) || t.refreshToken == "")
          && (|| (t.refreshToken != "" && t.refreshToken in db.refresh)
              || (t.sessionToken != "" && t.sessionToken in db.session)
              || (t.accessToken != "" && t.accessToken in db.access)))
  {
  }

  /** importAccountsCommon up to the insertion: every token of the batch that has a credential is accounted for. */
  method Import(tokens: seq<Token>, db: Stored) returns (conflicts: set<string>, unique: seq<Token>, newTokens: seq<Token>, duplicates: nat)
    ensures forall id :: id in conflicts <==> Conflicting(tokens, id)
    ensures unique == KeptOf(tokens, conflicts, |tokens|)
    ensures newTokens == NewOf(unique, conflicts, db)
    ensures (forall t :: t in tokens ==> t.HasCredential()) ==> duplicates + |newTokens| == |unique|
    // told by the batch and the stored sets: a reliable id decides alone, but for tokens without a refresh token
    ensures multiset(newTokens) <= multiset(unique)
    ensures forall t :: t in unique && t.HasCredential() ==>
      (t in newTokens <==>
        && (t.ID() != "" && !Conflicting(tokens, t.ID()) ==> t.ID() !in db.ids)
        && (t.ID() == "" || Conflicting(tokens, t.ID()) || t.refreshToken == "" ==>
            && (t.refreshToken != "" ==> t.refreshToken !in db.refresh)
            && (t.sessionToken != "" ==> t.sessionToken !in db.session)
            && (t.accessToken != "" ==> t.accessToken !in db.access)))
    ensures duplicates == |set i | 0 <= i < |unique| && var t := unique[i];
      || (t.ID() != "" && !Conflicting(tokens, t.ID()) && t.ID() in db.ids)
      || ((t.ID() == "" || Conflicting(tokens, t.ID()) || t.refreshToken == "")
          && (|| (t.refreshToken != "" && t.refreshToken in db.refresh)
              || (t.sessionToken != "" && t.sessionToken in db.session)
              || (t.accessToken != "" && t.accessToken in db.access)))|
  {
    hide Known, Conflicting, ReliableID;
    conflicts := ConflictingIDs(tokens);
    unique := Dedupe(tokens, conflicts);
    newTokens, duplicates := SplitNew(unique, conflicts, db);
    CountsAddUp(unique, conflicts, db);
    forall t | t in unique
      ensures t in tokens
    {
      var a :| 0 <= a < |unique| && unique[a] == t;
      var i := KeptCameFrom(tokens, conflicts, |tokens|, a);
    }
    NewIsNotKnown(unique, conflicts, db, Token("", "", "", ""));
    forall t | t in unique
      ensures t in newTokens <==> t.HasCredential() && !Known(t, conflicts, db)
    {
      NewIsNotKnown(unique, conflicts, db, t);
    }
    KnownIsCounted(unique, conflicts, db);
    forall t: Token {
      KnownMeans(tokens, conflicts, db, t);
    }
    assert (set i | 0 <= i < |unique| && Known(unique[i], conflicts, db)) == set i | 0 <= i < |unique| && var t := unique[i];
      || (t.ID() != "" && !Conflicting(tokens, t.ID()) && t.ID() in db.ids)
      || ((t.ID() == "" || Conflicting(tokens, t.ID()) || t.refreshToken == "")
          && (|| (t.refreshToken != "" && t.refreshToken in db.refresh)
              || (t.sessionToken != "" && t.sessionToken in db.session)
              || (t.accessToken != "" && t.accessToken in db.access)));
  }
}
