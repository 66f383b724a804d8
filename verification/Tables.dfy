/**
 The tables: users, balances, journal, bets and rounds, their CHECK
 constraints, and what every committed state of them satisfies.
 */
module Tables {
  import opened Prelude
  import opened Money
  import opened CrashCurve
  import opened Roulette
  import opened Ledger

  datatype Game = CrashGame | RouletteGame

  datatype RoundStatus = Open | Locked | Running | Resolved | Settled | Voided

  datatype BetStatus = Active | Won | Lost | Refunded

  datatype Round = Round(
    nonce: int,
    game: Game,
    status: RoundStatus,
    crashPoint: Option<nat>,
    pocket: Option<nat>,
    locksAt: int,
    startedAt: Option<int>,
    resolvedAt: Option<int>,
    settledAt: Option<int>,
    seedRevealed: bool)

  datatype Bet = Bet(
    user: nat,
    round: nat,
    stake: nat,
    key: nat,
    selection: Option<Selection>,
    odds: Option<nat>,
    status: BetStatus,
    multiplier: Option<nat>,
    payout: Option<nat>)

  /** `users` records each user's opening grant. */
  datatype Db = Db(
    users: map<nat, nat>,
    balances: Balances,
    journal: Journal,
    bets: map<nat, Bet>,
    rounds: map<nat, Round>)

  const EMPTY_DB := Db(map[], map[Mint := 0, Escrow := 0, House := 0], [], map[], map[])

  // ---------------------------------------------------------------------------
  // CHECK constraints
  // ---------------------------------------------------------------------------

  predicate BetChecks(b: Bet) {
    b.stake > 0 &&
    (b.multiplier.Some? ==> b.multiplier.value >= BASIS_POINTS_ONE) &&
    (if b.status == Won then b.multiplier.Some? && b.payout.Some? else b.multiplier.None?) &&
    (b.status == Lost ==> b.payout.None? || b.payout.value == 0) &&
    (b.odds.Some? ==> b.odds.value > BASIS_POINTS_ONE) &&
    (b.selection.None? <==> b.odds.None?)
  }

  predicate RoundChecks(r: Round) {
    (r.crashPoint.Some? ==> r.crashPoint.value >= BASIS_POINTS_ONE) &&
    (r.pocket.Some? ==> r.pocket.value <= 36) &&
    (r.game == CrashGame ==> r.crashPoint.Some? && r.pocket.None?) &&
    (r.game == RouletteGame ==> r.pocket.Some? && r.crashPoint.None?) &&
    (r.seedRevealed ==> r.status in {Resolved, Settled, Voided}) &&
    (r.resolvedAt.Some? ==> r.startedAt.Some? && r.resolvedAt.value >= r.startedAt.value) &&
    (r.status in {Running, Resolved, Settled} ==> r.startedAt.Some?) &&
    (r.status == Voided ==> r.resolvedAt.None?)
  }

  // ---------------------------------------------------------------------------
  // What the journal holds about a bet, by its row alone
  // ---------------------------------------------------------------------------

  function GrantTx(user: nat, amount: nat): Transaction {
    Transaction(SignupGrant, UserRef(user), [Posting(Mint, Negate(amount)), Posting(Wallet(user), amount)])
  }

  function PlacedTx(id: nat, b: Bet): Transaction {
    Transaction(BetPlaced, BetRef(id), [Posting(Wallet(b.user), Negate(b.stake)), Posting(Escrow, b.stake)])
  }

  /** The stake back out of escrow, and anything above it from the house. */
  function PayoutPostings(user: nat, stake: nat, payout: int): seq<Posting> {
    [Posting(Escrow, Negate(stake)), Posting(Wallet(user), stake)] +
    if payout - stake > 0 then [Posting(House, -(payout - stake)), Posting(Wallet(user), payout - stake)] else []
  }

  function LossPostings(stake: nat): seq<Posting> {
    [Posting(Escrow, Negate(stake)), Posting(House, stake)]
  }

  function RefundPostings(user: nat, stake: nat): seq<Posting> {
    [Posting(Escrow, Negate(stake)), Posting(Wallet(user), stake)]
  }

  /** The transactions that took a bet to its status: none while it is active, else exactly one. */
  function SettlementOf(id: nat, b: Bet): Journal {
    match b.status
    case Active => []
    case Won => [Transaction(BetCashout, BetRef(id),
                             PayoutPostings(b.user, b.stake, if b.payout.Some? then b.payout.value else 0))]
    case Lost => [Transaction(BetLost, BetRef(id), LossPostings(b.stake))]
    case Refunded => [Transaction(RoundVoidRefund, BetRef(id), RefundPostings(b.user, b.stake))]
  }

  function HistoryOf(id: nat, b: Bet): Journal {
    [PlacedTx(id, b)] + SettlementOf(id, b)
  }

  /** The journal holds about a bet exactly its history, and nothing about a bet that does not exist. */
  predicate BetJournalFits(j: Journal, bets: map<nat, Bet>, b: nat) {
    About(j, BetRef(b)) == if b in bets then HistoryOf(b, bets[b]) else []
  }

  /** The journal holds about a user exactly one grant. */
  predicate UserJournalFits(j: Journal, users: map<nat, nat>, u: nat) {
    About(j, UserRef(u)) == if u in users then [GrantTx(u, users[u])] else []
  }

  ghost predicate JournalMatchesRows(db: Db) {
    (forall b: nat :: BetJournalFits(db.journal, db.bets, b)) &&
    (forall u: nat :: UserJournalFits(db.journal, db.users, u))
  }

  /** Every account has a balance row, and it holds the sum of the account's entries. */
  ghost predicate BalancesMatchJournal(db: Db) {
    (forall a :: a in db.balances <==> !a.Wallet? || a.owner in db.users) &&
    (forall a | a in db.balances :: db.balances[a] == EntrySum(db.journal, a))
  }

  // ---------------------------------------------------------------------------
  // Rows that belong together
  // ---------------------------------------------------------------------------

  /** The money recorded on a settled row is what its status calls for. */
  predicate PayoutFits(b: Bet) {
    match b.status
    case Active => b.payout.None?
    case Won => b.multiplier.Some? && b.payout == Some(Scale(b.stake, b.multiplier.value))
    case Lost => b.payout == Some(0)
    case Refunded => b.payout == Some(b.stake)
  }

  /** The selection was priced for the round's game. */
  predicate Priced(b: Bet, game: Game) {
    if game == CrashGame then b.selection.None? && b.odds.None?
    else b.selection.Some? && ValidSelection(b.selection.value) && b.odds == Some(Odds(b.selection.value.kind))
  }

  /** The curve shows this multiplier at some tick. */
  ghost predicate OnTheCurve(m: nat) {
    exists tick: nat :: m == MultiplierAtTick(tick)
  }

  /**
   The outcome on a bet is the one its round justifies. A crash bet won at a
   multiplier of the curve below the crash point; a roulette bet won exactly when its selection did, at its
   stored odds; a bet is lost only by settlement and refunded only by a void.
   */
  ghost predicate OutcomeFits(b: Bet, r: Round)
    requires RoundChecks(r) && Priced(b, r.game)
  {
    match b.status
    case Active => r.status != Settled && r.status != Voided
    case Won =>
      b.multiplier.Some? &&
      (if r.game == CrashGame then
         r.startedAt.Some? && b.multiplier.value < r.crashPoint.value && OnTheCurve(b.multiplier.value)
       else r.status == Settled && b.multiplier == b.odds && Wins(b.selection.value, r.pocket.value))
    case Lost => r.status == Settled && (r.game == RouletteGame ==> !Wins(b.selection.value, r.pocket.value))
    case Refunded => r.status == Voided
  }

  ghost predicate BetFits(b: Bet, users: map<nat, nat>, rounds: map<nat, Round>) {
    b.user in users && b.round in rounds && RoundChecks(rounds[b.round]) &&
    BetChecks(b) && PayoutFits(b) && Priced(b, rounds[b.round].game) &&
    OutcomeFits(b, rounds[b.round])
  }

  predicate Live(s: RoundStatus) {
    s == Open || s == Locked || s == Running
  }

  /** The idempotency index. */
  ghost predicate KeysUnique(bets: map<nat, Bet>) {
    forall b, c | b in bets && c in bets && bets[b].user == bets[c].user && bets[b].key == bets[c].key :: b == c
  }

  /** The index that allows one live round per game. */
  ghost predicate OneLivePerGame(rounds: map<nat, Round>) {
    forall r, q | r in rounds && q in rounds && rounds[r].game == rounds[q].game &&
                  Live(rounds[r].status) && Live(rounds[q].status) :: r == q
  }

  ghost predicate RoundsFit(rounds: map<nat, Round>) {
    OneLivePerGame(rounds) && forall r | r in rounds :: RoundChecks(rounds[r])
  }

  ghost predicate BetsFit(users: map<nat, nat>, bets: map<nat, Bet>, rounds: map<nat, Round>) {
    KeysUnique(bets) && forall b | b in bets :: BetFits(bets[b], users, rounds)
  }

  ghost predicate NoWalletOverdrawn(db: Db) {
    forall u | u in db.users :: Wallet(u) in db.balances && db.balances[Wallet(u)] >= 0
  }

  /** What holds of every committed state. */
  ghost predicate Consistent(db: Db) {
    JournalMatchesRows(db) && BalancesMatchJournal(db) &&
    BetsFit(db.users, db.bets, db.rounds) && RoundsFit(db.rounds) &&
    NoWalletOverdrawn(db) && AllBalanced(db.journal)
  }

  lemma EmptyIsConsistent()
    ensures Consistent(EMPTY_DB)
  {
  }

  // ---------------------------------------------------------------------------
  // Balances as a closed form of the rows
  // ---------------------------------------------------------------------------

  /** What one bet row accounts for on one account. */
  function Holding(b: Bet, a: Account): int {
    match a
    case Mint => 0
    case Escrow => if b.status == Active then b.stake else 0
    case House =>
      if b.status == Lost then b.stake
      else if b.status == Won && b.payout.Some? then -(b.payout.value - b.stake)
      else 0
    case Wallet(u) =>
      if b.user != u then 0
      else Negate(b.stake) + (if b.payout.Some? then b.payout.value else 0)
  }

  function SumHoldings(bets: map<nat, Bet>, n: nat, a: Account): int {
    if n == 0 then 0
    else SumHoldings(bets, n - 1, a) + (if n - 1 in bets then Holding(bets[n - 1], a) else 0)
  }

  /** What one user's grant accounts for on one account. */
  function Grant(users: map<nat, nat>, u: nat, a: Account): int {
    if u !in users then 0
    else if a == Mint then Negate(users[u])
    else if a == Wallet(u) then users[u]
    else 0
  }

  function Granted(users: map<nat, nat>, n: nat, a: Account): int {
    if n == 0 then 0
    else Granted(users, n - 1, a) + Grant(users, n - 1, a)
  }

  /** All bet and user ids are below n. */
  ghost predicate Bounds(db: Db, n: nat) {
    (forall b | b in db.bets :: b < n) && (forall u | u in db.users :: u < n)
  }

  /** An account's entries, grouped by the bets and the users they reference. */
  function SumAbout(j: Journal, n: nat, a: Account): int {
    if n == 0 then 0 else SumAbout(j, n - 1, a) + GroupSum(j, n - 1, a)
  }

  function GroupSum(j: Journal, i: nat, a: Account): int {
    EntrySum(About(j, BetRef(i)), a) + EntrySum(About(j, UserRef(i)), a)
  }

  function RefId(ref: Reference): nat {
    if ref.BetRef? then ref.bet else ref.user
  }

  lemma {:induction false} SumAboutEmpty(n: nat, a: Account)
    ensures SumAbout([], n, a) == 0
  {
    if n > 0 { SumAboutEmpty(n - 1, a); }
  }

  lemma {:induction false} SumAboutSnoc(j: Journal, t: Transaction, n: nat, a: Account)
    ensures SumAbout(j + [t], n, a) ==
            SumAbout(j, n, a) + (if RefId(t.reference) < n then Net(t.postings, a) else 0)
  {
    if n > 0 {
      SumAboutSnoc(j, t, n - 1, a);
      AboutSnocSum(j, t, BetRef(n - 1), a);
      AboutSnocSum(j, t, UserRef(n - 1), a);
    }
  }

  lemma AboutSnocSum(j: Journal, t: Transaction, ref: Reference, a: Account)
    ensures EntrySum(About(j + [t], ref), a) ==
            EntrySum(About(j, ref), a) + (if t.reference == ref then Net(t.postings, a) else 0)
  {
    AboutAppend(j, [t], ref);
    AboutOne(t, ref);
    EntrySumAppend(About(j, ref), About([t], ref), a);
    EntrySumOne(t, a);
  }

  /** Summing an account's entries in journal order or grouped by what they reference is the same. */
  lemma {:induction false} GroupingKeepsTheSum(j: Journal, n: nat, a: Account)
    requires forall i | 0 <= i < |j| :: RefId(j[i].reference) < n
    ensures EntrySum(j, a) == SumAbout(j, n, a)
  {
    if j == [] {
      SumAboutEmpty(n, a);
    } else {
      var last := |j| - 1;
      GroupingKeepsTheSum(j[..last], n, a);
      SumAboutSnoc(j[..last], j[last], n, a);
      assert j == j[..last] + [j[last]];
    }
  }

  lemma {:induction false} AboutFinds(j: Journal, i: nat)
    requires i < |j|
    ensures About(j, j[i].reference) != []
  {
    if i < |j| - 1 {
      AboutFinds(j[..|j| - 1], i);
    }
  }

  lemma HistoryIsHolding(id: nat, b: Bet, a: Account)
    requires PayoutFits(b) && (b.status == Won ==> b.payout.value >= b.stake)
    ensures EntrySum(HistoryOf(id, b), a) == Holding(b, a)
  {
    EntrySumAppend([PlacedTx(id, b)], SettlementOf(id, b), a);
    EntrySumOne(PlacedTx(id, b), a);
    PlacedNet(id, b, a);
    if b.status != Active {
      EntrySumOne(SettlementOf(id, b)[0], a);
      SettlementNet(id, b, a);
    }
  }

  lemma NetOfTwo(p: Posting, q: Posting, a: Account)
    ensures Net([p, q], a) == (if p.account == a then p.amount else 0) + (if q.account == a then q.amount else 0)
  {
    assert [p, q][1..] == [q];
    assert Net([q], a) == (if q.account == a then q.amount else 0) + Net([q][1..], a);
  }

  lemma {:induction false} NetAppend(ps: seq<Posting>, qs: seq<Posting>, a: Account)
    ensures Net(ps + qs, a) == Net(ps, a) + Net(qs, a)
  {
    if ps == [] {
      assert ps + qs == qs;
    } else {
      NetAppend(ps[1..], qs, a);
      assert (ps + qs)[1..] == ps[1..] + qs;
    }
  }

  lemma PlacedNet(id: nat, b: Bet, a: Account)
    ensures Net(PlacedTx(id, b).postings, a) ==
            if a == Wallet(b.user) then Negate(b.stake) else if a == Escrow then b.stake else 0
  {
    NetOfTwo(Posting(Wallet(b.user), Negate(b.stake)), Posting(Escrow, b.stake), a);
  }

  lemma PayoutNet(user: nat, stake: nat, payout: int, a: Account)
    requires payout >= stake
    ensures Net(PayoutPostings(user, stake, payout), a) ==
            match a
            case Mint => 0
            case Escrow => Negate(stake)
            case House => -(payout - stake)
            case Wallet(u) => if u == user then payout else 0
  {
    NetOfTwo(Posting(Escrow, Negate(stake)), Posting(Wallet(user), stake), a);
    if payout - stake > 0 {
      NetOfTwo(Posting(House, -(payout - stake)), Posting(Wallet(user), payout - stake), a);
      NetAppend([Posting(Escrow, Negate(stake)), Posting(Wallet(user), stake)],
                [Posting(House, -(payout - stake)), Posting(Wallet(user), payout - stake)], a);
    } else {
      assert PayoutPostings(user, stake, payout) == [Posting(Escrow, Negate(stake)), Posting(Wallet(user), stake)];
    }
  }

  lemma SettlementNet(id: nat, b: Bet, a: Account)
    requires b.status != Active && PayoutFits(b) && (b.status == Won ==> b.payout.value >= b.stake)
    ensures Net(SettlementOf(id, b)[0].postings, a) ==
            match a
            case Mint => 0
            case Escrow => Negate(b.stake)
            case House => Holding(b, House)
            case Wallet(u) => if u == b.user then b.payout.value else 0
  {
    match b.status
    case Won => PayoutNet(b.user, b.stake, b.payout.value, a);
    case Lost => NetOfTwo(Posting(Escrow, Negate(b.stake)), Posting(House, b.stake), a);
    case Refunded => NetOfTwo(Posting(Escrow, Negate(b.stake)), Posting(Wallet(b.user), b.stake), a);
  }

  /** Rows whose settled amounts fit, as every committed state's do. */
  ghost predicate AmountsFit(db: Db) {
    forall b | b in db.bets ::
      PayoutFits(db.bets[b]) && (db.bets[b].status == Won ==> db.bets[b].payout.value >= db.bets[b].stake)
  }

  lemma FittingAmounts(db: Db)
    requires BetsFit(db.users, db.bets, db.rounds)
    ensures AmountsFit(db)
  {
    forall b | b in db.bets && db.bets[b].status == Won
      ensures db.bets[b].payout.value >= db.bets[b].stake
    {
      assert BetFits(db.bets[b], db.users, db.rounds);
      PayoutCoversStake(db.bets[b].stake, db.bets[b].multiplier.value);
    }
  }

  function RowSum(db: Db, i: nat, a: Account): int {
    (if i in db.bets then Holding(db.bets[i], a) else 0) + Grant(db.users, i, a)
  }

  lemma OneGroup(db: Db, i: nat, a: Account)
    requires JournalMatchesRows(db) && AmountsFit(db)
    ensures GroupSum(db.journal, i, a) == RowSum(db, i, a)
  {
    assert BetJournalFits(db.journal, db.bets, i) && UserJournalFits(db.journal, db.users, i);
    if i in db.bets {
      HistoryIsHolding(i, db.bets[i], a);
    }
    if i in db.users {
      EntrySumOne(GrantTx(i, db.users[i]), a);
      NetOfTwo(Posting(Mint, Negate(db.users[i])), Posting(Wallet(i), db.users[i]), a);
    }
  }

  lemma {:induction false} GroupsAreHoldings(db: Db, n: nat, a: Account)
    requires forall i: nat | i < n :: GroupSum(db.journal, i, a) == RowSum(db, i, a)
    ensures SumAbout(db.journal, n, a) == SumHoldings(db.bets, n, a) + Granted(db.users, n, a)
  {
    if n > 0 {
      GroupsAreHoldings(db, n - 1, a);
    }
  }

  /**
   Closed form: an account's entries sum to what the bet rows hold on it plus
   the grants. ESCROW holds the stakes of active bets; HOUSE the lost stakes
   less the winners' profits; a wallet its grant less its stakes plus its
   recorded payouts; MINT the negative of all grants.
   */
  lemma EntriesAreTheClosedForm(db: Db, n: nat, a: Account)
    requires JournalMatchesRows(db) && AmountsFit(db) && Bounds(db, n)
    ensures EntrySum(db.journal, a) == SumHoldings(db.bets, n, a) + Granted(db.users, n, a)
  {
    forall i | 0 <= i < |db.journal| ensures RefId(db.journal[i].reference) < n {
      AboutFinds(db.journal, i);
      var ref := db.journal[i].reference;
      match ref
      case BetRef(b) => assert BetJournalFits(db.journal, db.bets, b);
      case UserRef(u) => assert UserJournalFits(db.journal, db.users, u);
    }
    GroupingKeepsTheSum(db.journal, n, a);
    forall i: nat | i < n ensures GroupSum(db.journal, i, a) == RowSum(db, i, a) {
      OneGroup(db, i, a);
    }
    GroupsAreHoldings(db, n, a);
  }

  lemma {:induction false} EscrowHoldingsNonNegative(bets: map<nat, Bet>, n: nat)
    ensures SumHoldings(bets, n, Escrow) >= 0
    ensures (forall b | b in bets :: bets[b].status != Active) ==> SumHoldings(bets, n, Escrow) == 0
  {
    if n > 0 { EscrowHoldingsNonNegative(bets, n - 1); }
  }

  lemma {:induction false} NoGrantsOnEscrow(users: map<nat, nat>, n: nat)
    ensures Granted(users, n, Escrow) == 0
  {
    if n > 0 { NoGrantsOnEscrow(users, n - 1); }
  }

  lemma {:induction false} SetBound(ids: set<nat>) returns (n: nat)
    ensures forall i | i in ids :: i < n
  {
    n := 0;
    if ids != {} {
      var i :| i in ids;
      var m := SetBound(ids - {i});
      n := if i < m then m else i + 1;
      forall k | k in ids ensures k < n {
        assert k == i || k in ids - {i};
      }
    }
  }

  lemma BoundExists(db: Db) returns (n: nat)
    ensures Bounds(db, n)
  {
    n := SetBound(db.bets.Keys + db.users.Keys);
    assert db.bets.Keys <= db.bets.Keys + db.users.Keys;
    forall b | b in db.bets ensures b < n {
      assert b in db.bets.Keys + db.users.Keys;
    }
    forall u | u in db.users ensures u < n {
      assert u in db.bets.Keys + db.users.Keys;
    }
  }

  /** Escrow never goes below zero, because it is a sum of stakes. */
  lemma EscrowIsNonNegative(db: Db)
    requires JournalMatchesRows(db) && AmountsFit(db)
    ensures EntrySum(db.journal, Escrow) >= 0
    ensures (forall b | b in db.bets :: db.bets[b].status != Active) ==> EntrySum(db.journal, Escrow) == 0
  {
    var n := BoundExists(db);
    EntriesAreTheClosedForm(db, n, Escrow);
    EscrowHoldingsNonNegative(db.bets, n);
    NoGrantsOnEscrow(db.users, n);
  }
}
