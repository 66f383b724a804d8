/**
 The double-entry ledger: postings, transactions, and what posting does to the
 cached balances. A journal is append-only; balances are its consequence.
 */
module Ledger {
  import opened Prelude

  /** The three system accounts and one wallet per user. */
  datatype Account = Mint | Escrow | House | Wallet(owner: nat)

  datatype Posting = Posting(account: Account, amount: int)

  datatype Kind = SignupGrant | BetPlaced | BetCashout | BetLost | RoundVoidRefund

  datatype Reference = UserRef(user: nat) | BetRef(bet: nat)

  datatype Transaction = Transaction(kind: Kind, reference: Reference, postings: seq<Posting>)

  datatype LedgerError = Unbalanced | AccountNotFound(account: Account) | Overdrawn(account: Account)

  type Journal = seq<Transaction>

  type Balances = map<Account, int>

  // ---------------------------------------------------------------------------
  // Sums
  // ---------------------------------------------------------------------------

  function Total(ps: seq<Posting>): int {
    if ps == [] then 0 else ps[0].amount + Total(ps[1..])
  }

  /** What some postings add to one account. */
  function Net(ps: seq<Posting>, a: Account): int {
    if ps == [] then 0 else (if ps[0].account == a then ps[0].amount else 0) + Net(ps[1..], a)
  }

  /** The sum of an account's entries. */
  function EntrySum(j: Journal, a: Account): int {
    if j == [] then 0 else EntrySum(j[..|j| - 1], a) + Net(j[|j| - 1].postings, a)
  }

  /** The sum of every entry of every account. */
  function GlobalSum(j: Journal): int {
    if j == [] then 0 else GlobalSum(j[..|j| - 1]) + Total(j[|j| - 1].postings)
  }

  /** The transactions that reference one bet or one user, in order. */
  function About(j: Journal, ref: Reference): Journal {
    if j == [] then []
    else About(j[..|j| - 1], ref) + (if j[|j| - 1].reference == ref then [j[|j| - 1]] else [])
  }

  lemma {:induction false} EntrySumAppend(j: Journal, k: Journal, a: Account)
    ensures EntrySum(j + k, a) == EntrySum(j, a) + EntrySum(k, a)
  {
    if k == [] {
      assert j + k == j;
    } else {
      EntrySumAppend(j, k[..|k| - 1], a);
      assert (j + k)[..|j + k| - 1] == j + k[..|k| - 1];
    }
  }

  lemma {:induction false} AboutAppend(j: Journal, k: Journal, ref: Reference)
    ensures About(j + k, ref) == About(j, ref) + About(k, ref)
  {
    if k == [] {
      assert j + k == j;
    } else {
      AboutAppend(j, k[..|k| - 1], ref);
      assert (j + k)[..|j + k| - 1] == j + k[..|k| - 1];
    }
  }

  lemma EntrySumOne(t: Transaction, a: Account)
    ensures EntrySum([t], a) == Net(t.postings, a)
  {
    assert [t][..0] == [];
  }

  lemma AboutOne(t: Transaction, ref: Reference)
    ensures About([t], ref) == if t.reference == ref then [t] else []
  {
    assert [t][..0] == [];
  }

  /** The rule `post` enforces, and the commit trigger after it. */
  predicate Balanced(ps: seq<Posting>) {
    |ps| >= 2 && Total(ps) == 0 && forall i | 0 <= i < |ps| :: ps[i].amount != 0
  }

  predicate AllBalanced(j: Journal) {
    forall i | 0 <= i < |j| :: Balanced(j[i].postings)
  }

  /** Credits are neither created nor destroyed: a journal of balanced transactions sums to zero. */
  lemma {:induction false} BalancedJournalSumsToZero(j: Journal)
    requires AllBalanced(j)
    ensures GlobalSum(j) == 0
  {
    if j != [] {
      BalancedJournalSumsToZero(j[..|j| - 1]);
      assert Balanced(j[|j| - 1].postings);
    }
  }

  // ---------------------------------------------------------------------------
  // Applying postings in account order
  // ---------------------------------------------------------------------------

  function Rank(a: Account): nat {
    match a
    case Mint => 0
    case Escrow => 1
    case House => 2
    case Wallet(_) => 3
  }

  /** The order of account ids: the system ids sort first, in this order, before any wallet. */
  predicate AtOrBefore(a: Account, b: Account) {
    Rank(a) < Rank(b) || (Rank(a) == Rank(b) && (a.Wallet? ==> a.owner <= b.owner))
  }

  function Insert(p: Posting, sorted: seq<Posting>): seq<Posting> {
    if sorted == [] || AtOrBefore(p.account, sorted[0].account) then [p] + sorted
    else [sorted[0]] + Insert(p, sorted[1..])
  }

  /** A stable sort by account. */
  function Sorted(ps: seq<Posting>): seq<Posting> {
    if ps == [] then [] else Insert(ps[0], Sorted(ps[1..]))
  }

  predicate InOrder(ps: seq<Posting>) {
    forall i, j | 0 <= i < j < |ps| :: AtOrBefore(ps[i].account, ps[j].account)
  }

  lemma {:induction false} InsertKeeps(p: Posting, sorted: seq<Posting>, a: Account)
    ensures Net(Insert(p, sorted), a) == Net([p] + sorted, a)
    ensures multiset(Insert(p, sorted)) == multiset([p] + sorted)
  {
    if !(sorted == [] || AtOrBefore(p.account, sorted[0].account)) {
      InsertKeeps(p, sorted[1..], a);
      assert sorted == [sorted[0]] + sorted[1..];
      assert ([p] + sorted)[1..] == sorted;
      assert ([p] + sorted[1..])[1..] == sorted[1..];
      assert ([sorted[0]] + Insert(p, sorted[1..]))[1..] == Insert(p, sorted[1..]);
    }
  }

  lemma {:induction false} InsertInOrder(p: Posting, sorted: seq<Posting>)
    requires InOrder(sorted)
    ensures InOrder(Insert(p, sorted))
  {
    if !(sorted == [] || AtOrBefore(p.account, sorted[0].account)) {
      InsertInOrder(p, sorted[1..]);
      InsertKeeps(p, sorted[1..], Mint);
      var rest := Insert(p, sorted[1..]);
      forall j | 0 <= j < |rest| ensures AtOrBefore(sorted[0].account, rest[j].account) {
        assert rest[j] in multiset([p] + sorted[1..]);
      }
      hide AtOrBefore;
      HeadInOrder(sorted[0], rest);
    }
  }

  lemma HeadInOrder(head: Posting, rest: seq<Posting>)
    requires InOrder(rest) && forall j | 0 <= j < |rest| :: AtOrBefore(head.account, rest[j].account)
    ensures InOrder([head] + rest)
  {
    hide AtOrBefore;
  }

  /** Sorting reorders the postings and changes nothing else. */
  lemma {:induction false} SortedIsAPermutation(ps: seq<Posting>, a: Account)
    ensures Net(Sorted(ps), a) == Net(ps, a)
    ensures multiset(Sorted(ps)) == multiset(ps)
    ensures InOrder(Sorted(ps))
  {
    if ps != [] {
      SortedIsAPermutation(ps[1..], a);
      InsertKeeps(ps[0], Sorted(ps[1..]), a);
      InsertInOrder(ps[0], Sorted(ps[1..]));
      assert ps == [ps[0]] + ps[1..];
    }
  }

  /** MINT and HOUSE may go negative; the trigger refuses it on the others. */
  predicate Guarded(a: Account) {
    a.Escrow? || a.Wallet?
  }

  function ApplyPosting(balances: Balances, p: Posting): Result<Balances, LedgerError> {
    if p.account !in balances then Err(AccountNotFound(p.account))
    else if Guarded(p.account) && balances[p.account] + p.amount < 0 then Err(Overdrawn(p.account))
    else Ok(balances[p.account := balances[p.account] + p.amount])
  }

  function ApplyPostings(balances: Balances, ps: seq<Posting>): Result<Balances, LedgerError> {
    if ps == [] then Ok(balances)
    else
      match ApplyPosting(balances, ps[0])
      case Err(e) => Err(e)
      case Ok(next) => ApplyPostings(next, ps[1..])
  }

  /** What `post` answers: the new balances, or why it threw. */
  function Posted(balances: Balances, ps: seq<Posting>): Result<Balances, LedgerError> {
    if !Balanced(ps) then Err(Unbalanced) else ApplyPostings(balances, Sorted(ps))
  }

  lemma {:induction false} ApplyPostingsAddsNet(balances: Balances, ps: seq<Posting>)
    requires ApplyPostings(balances, ps).Ok?
    ensures ApplyPostings(balances, ps).value == map a | a in balances :: balances[a] + Net(ps, a)
  {
    if ps != [] {
      ApplyPostingsAddsNet(ApplyPosting(balances, ps[0]).value, ps[1..]);
    }
  }

  /** A successful post adds to each account exactly what its postings say. */
  /** Posting succeeds only on accounts that exist, and leaves ESCROW and every wallet it touches at zero or more. */
  lemma PostedNeverOverdraws(balances: Balances, ps: seq<Posting>)
    requires Posted(balances, ps).Ok?
    ensures forall p | p in ps ::
              p.account in balances && p.account in Posted(balances, ps).value &&
              (p.account.Escrow? || p.account.Wallet? ==> Posted(balances, ps).value[p.account] >= 0)
  {
    var sorted := Sorted(ps);
    SortedIsAPermutation(ps, Mint);
    AppliedNeverOverdraws(balances, sorted);
    forall p | p in ps ensures p in sorted {
      assert p in multiset(ps);
    }
    ApplyPostingsAddsNet(balances, sorted);
  }

  lemma {:induction false} AppliedNeverOverdraws(balances: Balances, ps: seq<Posting>)
    requires ApplyPostings(balances, ps).Ok?
    ensures forall p | p in ps ::
              p.account in balances && p.account in ApplyPostings(balances, ps).value &&
              (p.account.Escrow? || p.account.Wallet? ==> ApplyPostings(balances, ps).value[p.account] >= 0)
    ensures ApplyPostings(balances, ps).value.Keys == balances.Keys
    ensures forall a | a in balances && (a.Escrow? || a.Wallet?) && balances[a] >= 0 ::
              ApplyPostings(balances, ps).value[a] >= 0
  {
    if ps != [] {
      AppliedNeverOverdraws(ApplyPosting(balances, ps[0]).value, ps[1..]);
      assert ps == [ps[0]] + ps[1..];
    }
  }

  lemma PostedAddsNet(balances: Balances, ps: seq<Posting>)
    requires Posted(balances, ps).Ok?
    ensures Posted(balances, ps).value == map a | a in balances :: balances[a] + Net(ps, a)
  {
    ApplyPostingsAddsNet(balances, Sorted(ps));
    forall a | a in balances ensures Net(Sorted(ps), a) == Net(ps, a) {
      SortedIsAPermutation(ps, a);
    }
  }

  /** No account is debited by some posting and credited by another. */
  predicate OneWay(ps: seq<Posting>) {
    forall i, j | 0 <= i < |ps| && 0 <= j < |ps| && ps[i].account == ps[j].account ::
      ps[i].amount >= 0 <==> ps[j].amount >= 0
  }

  predicate Known(balances: Balances, ps: seq<Posting>) {
    forall i | 0 <= i < |ps| :: ps[i].account in balances
  }

  predicate Covered(balances: Balances, ps: seq<Posting>) {
    forall a | a in balances && Guarded(a) :: balances[a] >= 0 && balances[a] + Net(ps, a) >= 0
  }

  /**
   When each account moves one way only, the trigger refuses nothing as
   long as the final balances are covered: no intermediate balance dips lower.
   */
  lemma {:induction false} CoveredPostingsApply(balances: Balances, ps: seq<Posting>)
    requires Known(balances, ps) && OneWay(ps) && Covered(balances, ps)
    ensures ApplyPostings(balances, ps).Ok?
  {
    if ps != [] {
      var p := ps[0];
      NetFollowsSign(ps, p.account);
      NetFollowsSign(ps[1..], p.account);
      CoveredPostingsApply(ApplyPosting(balances, p).value, ps[1..]);
    }
  }

  lemma {:induction false} NetFollowsSign(ps: seq<Posting>, a: Account)
    requires OneWay(ps)
    ensures (exists i :: 0 <= i < |ps| && ps[i].account == a && ps[i].amount >= 0) ==> Net(ps, a) >= 0
    ensures (exists i :: 0 <= i < |ps| && ps[i].account == a && ps[i].amount < 0) ==> Net(ps, a) <= 0
    ensures (forall i | 0 <= i < |ps| :: ps[i].account != a) ==> Net(ps, a) == 0
  {
    if ps != [] {
      NetFollowsSign(ps[1..], a);
    }
  }
}
