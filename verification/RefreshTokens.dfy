/**
 Refresh-token families. Each login starts a family; each refresh spends one
 token and issues its successor; presenting a spent token revokes the family.
 Each operation is one database transaction and is modelled as one step. Token
 hashes and family ids are fresh numbers, standing for random identifiers.
 */
module RefreshTokens {
  import opened Prelude

  type Token = nat
  type Family = nat

  datatype Row = Row(user: nat, family: Family, expiresAt: int, used: bool, revoked: bool)

  datatype Store = Store(rows: map<Token, Row>, nextToken: nat, nextFamily: nat)

  datatype Outcome = Accepted(next: Token) | Invalid | Reuse

  function Issue(s: Store, user: nat, family: Family, expiresAt: int): Store {
    s.(rows := s.rows[s.nextToken := Row(user, family, expiresAt, false, false)], nextToken := s.nextToken + 1)
  }

  function Login(s: Store, user: nat, expiresAt: int): Store {
    Issue(s, user, s.nextFamily, expiresAt).(nextFamily := s.nextFamily + 1)
  }

  function RevokeFamily(s: Store, family: Family): Store {
    s.(rows := map t | t in s.rows ::
         if s.rows[t].family == family then s.rows[t].(revoked := true) else s.rows[t])
  }

  /** `signed`: the token's own signature and expiry check out; `welcome`: its user exists, not suspended. */
  function Refresh(s: Store, token: Token, signed: bool, welcome: bool, now: int, expiresAt: int): (Store, Outcome) {
    if !signed || token !in s.rows || s.rows[token].revoked || s.rows[token].expiresAt <= now then (s, Invalid)
    else if s.rows[token].used then (RevokeFamily(s, s.rows[token].family), Reuse)
    else
      var spent := s.(rows := s.rows[token := s.rows[token].(used := true)]);
      if !welcome then (spent, Invalid)
      else (Issue(spent, s.rows[token].user, s.rows[token].family, expiresAt), Accepted(s.nextToken))
  }

  function Logout(s: Store, token: Token): Store {
    if token in s.rows then RevokeFamily(s, s.rows[token].family) else s
  }

  /** Every row of the family is marked revoked, and nothing else changes. */
  predicate Revoked(rows: map<Token, Row>, after: map<Token, Row>, family: Family) {
    after.Keys == rows.Keys &&
    forall t | t in rows ::
      after[t] == if rows[t].family == family then rows[t].(revoked := true) else rows[t]
  }

  /** The table, with the statements in the order the service issues them. */
  class TokenTable {
    var rows: map<Token, Row>
    var nextToken: nat
    var nextFamily: nat

    constructor ()
      ensures View() == Store(map[], 0, 0)
    {
      rows, nextToken, nextFamily := map[], 0, 0;
    }

    function View(): Store
      reads this
    {
      Store(rows, nextToken, nextFamily)
    }

    method IssueRefreshToken(user: nat, family: Family, expiresAt: int) returns (token: Token)
      modifies this
      ensures View() == Issue(old(View()), user, family, expiresAt) && token == old(nextToken)
      ensures rows == old(rows)[token := Row(user, family, expiresAt, false, false)]
      ensures nextToken == old(nextToken) + 1 && nextFamily == old(nextFamily)
    {
      token := nextToken;
      rows := rows[token := Row(user, family, expiresAt, false, false)];
      nextToken := nextToken + 1;
    }

    method RevokeAll(family: Family)
      modifies this
      ensures View() == RevokeFamily(old(View()), family)
      ensures Revoked(old(rows), rows, family) && nextToken == old(nextToken) && nextFamily == old(nextFamily)
    {
      rows := map t | t in rows :: if rows[t].family == family then rows[t].(revoked := true) else rows[t];
    }

    method SignIn(user: nat, expiresAt: int) returns (token: Token)
      modifies this
      ensures View() == Login(old(View()), user, expiresAt) && token == old(nextToken)
      ensures rows == old(rows)[token := Row(user, old(nextFamily), expiresAt, false, false)]
      ensures nextToken == old(nextToken) + 1 && nextFamily == old(nextFamily) + 1
    {
      var family := nextFamily;
      nextFamily := nextFamily + 1;
      token := IssueRefreshToken(user, family, expiresAt);
    }

    method Rotate(token: Token, signed: bool, welcome: bool, now: int, expiresAt: int) returns (outcome: Outcome)
      modifies this
      ensures (View(), outcome) == Refresh(old(View()), token, signed, welcome, now, expiresAt)
      ensures var known := signed && token in old(rows) && !old(rows)[token].revoked && now < old(rows)[token].expiresAt;
              (outcome.Accepted? <==> known && !old(rows)[token].used && welcome) &&
              (outcome == Reuse <==> known && old(rows)[token].used) &&
              (known && !old(rows)[token].used && !welcome ==>
                 rows == old(rows)[token := old(rows)[token].(used := true)]) &&
              (!known ==> rows == old(rows))
      ensures outcome.Accepted? ==>
                outcome.next == old(nextToken) &&
                var was := old(rows)[token];
                rows == old(rows)[token := was.(used := true)]
                                 [outcome.next := Row(was.user, was.family, expiresAt, false, false)]
      ensures outcome == Reuse ==> Revoked(old(rows), rows, old(rows)[token].family)
      ensures nextToken == old(nextToken) + (if outcome.Accepted? then 1 else 0) && nextFamily == old(nextFamily)
    {
      if !signed {
        return Invalid;
      }
      if token !in rows || rows[token].revoked {
        return Invalid;
      }
      var stored := rows[token];
      if stored.expiresAt <= now {
        return Invalid;
      }
      if stored.used {
        RevokeAll(stored.family);
        return Reuse;
      }
      rows := rows[token := stored.(used := true)];
      if !welcome {
        return Invalid;
      }
      var next := IssueRefreshToken(stored.user, stored.family, expiresAt);
      outcome := Accepted(next);
    }

    method SignOut(token: Token)
      modifies this
      ensures View() == Logout(old(View()), token)
      ensures if token in old(rows) then Revoked(old(rows), rows, old(rows)[token].family) else rows == old(rows)
    {
      if token in rows {
        RevokeAll(rows[token].family);
      }
    }
  }

  // ---------------------------------------------------------------------------
  // Whole runs
  // ---------------------------------------------------------------------------

  datatype Event =
    | DoLogin(user: nat, expiresAt: int)
    | DoRefresh(token: Token, signed: bool, welcome: bool, now: int, expiresAt: int)
    | DoLogout(token: Token)

  function Step(s: Store, e: Event): Store {
    match e
    case DoLogin(user, expiresAt) => Login(s, user, expiresAt)
    case DoRefresh(t, signed, welcome, now, expiresAt) => Refresh(s, t, signed, welcome, now, expiresAt).0
    case DoLogout(t) => Logout(s, t)
  }

  function After(events: seq<Event>): Store {
    if events == [] then Store(map[], 0, 0)
    else Step(After(events[..|events| - 1]), events[|events| - 1])
  }

  function OutcomeOf(s: Store, e: Event): Outcome {
    if e.DoRefresh? then Refresh(s, e.token, e.signed, e.welcome, e.now, e.expiresAt).1 else Invalid
  }

  /** Every token of a family except its newest has been spent. */
  predicate OnlyNewestUnspent(s: Store) {
    forall t, u | t in s.rows && u in s.rows && s.rows[t].family == s.rows[u].family && t < u :: s.rows[t].used
  }

  predicate Fresh(s: Store) {
    forall t | t in s.rows :: t < s.nextToken && s.rows[t].family < s.nextFamily
  }

  predicate Usable(s: Store, t: Token) {
    t in s.rows && !s.rows[t].used && !s.rows[t].revoked
  }

  lemma StepKeepsFamilies(s: Store, e: Event)
    requires Fresh(s) && OnlyNewestUnspent(s)
    ensures Fresh(Step(s, e)) && OnlyNewestUnspent(Step(s, e))
  {
    match e
    case DoLogin(user, expiresAt) =>
    case DoLogout(t) =>
    case DoRefresh(t, signed, welcome, now, expiresAt) => RefreshKeepsFamilies(s, t, signed, welcome, now, expiresAt);
  }

  lemma RefreshKeepsFamilies(s: Store, t: Token, signed: bool, welcome: bool, now: int, expiresAt: int)
    requires Fresh(s) && OnlyNewestUnspent(s)
    ensures var after := Refresh(s, t, signed, welcome, now, expiresAt).0; Fresh(after) && OnlyNewestUnspent(after)
  {
  }

  lemma {:induction false} RunsKeepFamilies(events: seq<Event>)
    ensures Fresh(After(events)) && OnlyNewestUnspent(After(events))
  {
    if events != [] {
      var before := events[..|events| - 1];
      RunsKeepFamilies(before);
      StepKeepsFamilies(After(before), events[|events| - 1]);
    }
  }

  /** In every run each family has at most one unspent, unrevoked token. */
  lemma AtMostOneUsablePerFamily(events: seq<Event>, t: Token, u: Token)
    requires Usable(After(events), t) && Usable(After(events), u)
    requires After(events).rows[t].family == After(events).rows[u].family
    ensures t == u
  {
    RunsKeepFamilies(events);
  }

  /** What never changes back: rows stay, families are fixed, spent and revoked are final. */
  predicate Grows(s: Store, s': Store) {
    s.nextToken <= s'.nextToken && s.nextFamily <= s'.nextFamily &&
    forall t | t in s.rows ::
      t in s'.rows && s'.rows[t].family == s.rows[t].family && s'.rows[t].user == s.rows[t].user &&
      (s.rows[t].used ==> s'.rows[t].used) && (s.rows[t].revoked ==> s'.rows[t].revoked)
  }

  lemma StepGrows(s: Store, e: Event)
    requires Fresh(s)
    ensures Grows(s, Step(s, e))
  {
  }

  lemma GrowsChains(a: Store, b: Store, c: Store)
    requires Grows(a, b) && Grows(b, c)
    ensures Grows(a, c)
  {
  }

  lemma {:induction false} RunsGrow(events: seq<Event>, n: nat)
    requires n <= |events|
    ensures Grows(After(events[..n]), After(events))
    decreases |events| - n
  {
    if n == |events| {
      assert events[..n] == events;
    } else {
      RunsGrow(events, n + 1);
      RunsKeepFamilies(events[..n]);
      assert events[..n + 1][..n] == events[..n];
      StepGrows(After(events[..n]), events[n]);
      GrowsChains(After(events[..n]), After(events[..n + 1]), After(events));
    }
  }

  /** Event i is the login that started the family, by this user. */
  predicate StartedBy(events: seq<Event>, i: nat, family: Family, user: nat) {
    i < |events| && events[i].DoLogin? && events[i].user == user && After(events[..i]).nextFamily == family
  }

  lemma StepIssues(s: Store, e: Event, t: Token)
    requires Fresh(s) && t in Step(s, e).rows
    ensures var row := Step(s, e).rows[t];
            if t in s.rows then row.family == s.rows[t].family && row.user == s.rows[t].user
            else if e.DoLogin? then row.user == e.user && row.family == s.nextFamily
            else
              e.DoRefresh? && e.token in s.rows &&
              row.user == s.rows[e.token].user && row.family == s.rows[e.token].family
  {
  }

  /** Every token of a family, through any number of rotations, belongs to the user whose login started it. */
  lemma {:induction false} TokensBelongToTheLogin(events: seq<Event>, t: Token) returns (i: nat)
    requires t in After(events).rows
    ensures StartedBy(events, i, After(events).rows[t].family, After(events).rows[t].user)
  {
    var n := |events| - 1;
    var before, e := events[..n], events[n];
    var s := After(before);
    RunsKeepFamilies(before);
    StepIssues(s, e, t);
    if t in s.rows {
      i := TokensBelongToTheLogin(before, t);
      assert events[..i] == before[..i];
    } else if e.DoLogin? {
      i := n;
    } else {
      i := TokensBelongToTheLogin(before, e.token);
      assert events[..i] == before[..i];
    }
  }

  lemma LoginsStartNewFamilies(events: seq<Event>, i: nat, j: nat)
    requires i < j < |events| && events[i].DoLogin?
    ensures After(events[..i]).nextFamily < After(events[..j]).nextFamily
  {
    assert events[..j][..i + 1] == events[..i + 1];
    assert events[..i + 1][..i] == events[..i];
    RunsGrow(events[..j], i + 1);
  }

  lemma FamiliesStartOnce(events: seq<Event>, i: nat, j: nat, family: Family, user: nat, other: nat)
    requires StartedBy(events, i, family, user) && StartedBy(events, j, family, other)
    ensures i == j && user == other
  {
    if i < j { LoginsStartNewFamilies(events, i, j); }
    if j < i { LoginsStartNewFamilies(events, j, i); }
  }

  /** So all tokens of one family belong to one user. */
  lemma FamiliesHaveOneOwner(events: seq<Event>, t: Token, u: Token)
    requires t in After(events).rows && u in After(events).rows
    requires After(events).rows[t].family == After(events).rows[u].family
    ensures After(events).rows[t].user == After(events).rows[u].user
  {
    var i := TokensBelongToTheLogin(events, t);
    var j := TokensBelongToTheLogin(events, u);
    var rows := After(events).rows;
    FamiliesStartOnce(events, i, j, rows[t].family, rows[t].user, rows[u].user);
  }

  /** The store just before event i, and what event i answered. */
  function Before(events: seq<Event>, i: nat): Store
    requires i < |events|
  {
    After(events[..i])
  }

  predicate AcceptedAt(events: seq<Event>, i: nat)
    requires i < |events|
  {
    OutcomeOf(Before(events, i), events[i]).Accepted?
  }

  lemma LaterStoreGrows(events: seq<Event>, i: nat, j: nat)
    requires i < j < |events|
    ensures Grows(Step(Before(events, i), events[i]), Before(events, j))
  {
    RunsGrow(events[..j], i + 1);
    assert events[..j][..i + 1] == events[..i + 1];
    assert events[..i + 1][..i] == events[..i];
  }

  /** Each token is accepted at most once over a whole run. */
  lemma AcceptedAtMostOnce(events: seq<Event>, i: nat, j: nat)
    requires i < j < |events|
    requires AcceptedAt(events, i) && AcceptedAt(events, j)
    ensures events[i].token != events[j].token
  {
    RunsKeepFamilies(events[..i]);
    LaterStoreGrows(events, i, j);
  }

  /** Every token of the family, and there is one, is revoked. */
  predicate Dead(s: Store, family: Family) {
    family < s.nextFamily &&
    forall t | t in s.rows && s.rows[t].family == family :: s.rows[t].revoked
  }

  lemma {:induction false} DeadStaysDead(events: seq<Event>, n: nat, family: Family)
    requires n <= |events| && Dead(After(events[..n]), family)
    ensures Dead(After(events), family)
    decreases |events| - n
  {
    if n == |events| {
      assert events[..n] == events;
    } else {
      assert events[..n + 1][..n] == events[..n];
      RunsKeepFamilies(events[..n]);
      DeadStaysDead(events, n + 1, family);
    }
  }

  /** Event i revokes this family: an unexpired spent token is presented, or the family is logged out. */
  predicate Revokes(events: seq<Event>, i: nat, family: Family)
    requires i < |events|
  {
    var s, e := Before(events, i), events[i];
    !e.DoLogin? && e.token in s.rows && s.rows[e.token].family == family &&
    (e.DoLogout? || OutcomeOf(s, e) == Reuse)
  }

  /**
   Reuse detection: once an unexpired spent token of a family is presented, or
   the family is logged out, no token of that family is ever accepted again,
   whatever comes later, including tokens issued after it.
   */
  lemma RevokedFamilyIsNeverAccepted(events: seq<Event>, i: nat, j: nat, family: Family)
    requires i < j < |events| && Revokes(events, i, family)
    requires events[j].DoRefresh? && events[j].token in Before(events, j).rows
    requires Before(events, j).rows[events[j].token].family == family
    ensures OutcomeOf(Before(events, j), events[j]) == Invalid
    ensures Step(Before(events, j), events[j]) == Before(events, j)
  {
    RunsKeepFamilies(events[..i]);
    assert events[..j][..i + 1] == events[..i + 1];
    assert events[..i + 1][..i] == events[..i];
    DeadStaysDead(events[..j], i + 1, family);
  }

  /** A spent token is answered with a revocation exactly when it is signed, unrevoked and unexpired. */
  lemma SpentTokenRevokesIff(s: Store, token: Token, signed: bool, welcome: bool, now: int, expiresAt: int)
    requires token in s.rows && s.rows[token].used
    ensures var (s', outcome) := Refresh(s, token, signed, welcome, now, expiresAt);
            !outcome.Accepted? &&
            (outcome == Reuse <==> signed && !s.rows[token].revoked && now < s.rows[token].expiresAt) &&
            (outcome == Invalid ==> s' == s) &&
            (outcome == Reuse ==>
               forall t | t in s.rows ::
                 s'.rows[t].revoked <==> s.rows[t].revoked || s.rows[t].family == s.rows[token].family)
  {
  }
}
