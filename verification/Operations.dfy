/**
 What each operation writes, as one set of row changes and appended
 transactions, and that every such set keeps the tables consistent.
 */
module Operations {
  import opened Prelude
  import opened Money
  import opened CrashCurve
  import opened Roulette
  import opened Ledger
  import opened Tables

  /** Why an operation was refused: the service's exceptions and the database's aborts. */
  datatype Failure =
    | StakeOutOfRange
    | RoundNotFound
    | RoundNotOpen(status: RoundStatus)
    | InvalidSelection
    | InsufficientFunds
    | NoBetOnRound
    | BetAlreadySettled(bet: BetStatus)
    | GameDoesNotSupportCashOut
    | RoundNotRunning(found: RoundStatus)
    | CashOutTooLate(crashPoint: nat)
    | MoneyFailure(money: MoneyError)
    | SelectionFailure(selection: SelectionError)
    | LedgerFailure(ledger: LedgerError)
    | CheckViolation
    | UniqueViolation
    | EmailTaken

  // ---------------------------------------------------------------------------
  // Writes
  // ---------------------------------------------------------------------------

  datatype Writes = Writes(
    users: map<nat, nat>,
    bets: map<nat, Bet>,
    rounds: map<nat, Round>,
    journal: Journal)

  const NO_WRITES := Writes(map[], map[], map[], [])

  function BaseBalance(db: Db, a: Account): int {
    if a in db.balances then db.balances[a] else 0
  }

  function AccountsAfter(db: Db, users: map<nat, nat>): set<Account> {
    db.balances.Keys + set u | u in users :: Wallet(u)
  }

  /** The tables with the writes in place and every balance moved by the new entries. */
  function Apply(db: Db, w: Writes): Db {
    Db(db.users + w.users,
       map a | a in AccountsAfter(db, w.users) :: BaseBalance(db, a) + EntrySum(w.journal, a),
       db.journal + w.journal,
       db.bets + w.bets,
       db.rounds + w.rounds)
  }

  function RegisterWrites(user: nat, grant: nat): Writes {
    NO_WRITES.(users := map[user := grant], journal := [GrantTx(user, grant)])
  }

  function PlaceWrites(id: nat, row: Bet): Writes {
    NO_WRITES.(bets := map[id := row], journal := [PlacedTx(id, row)])
  }

  /** The settlements of several bets, one transaction each, in the order given. */
  function BatchJournal(rows: map<nat, Bet>, ids: seq<nat>): Journal
    requires forall b | b in ids :: b in rows
  {
    if ids == [] then []
    else
      var n := |ids| - 1;
      BatchJournal(rows, ids[..n]) + SettlementOf(ids[n], rows[ids[n]])
  }

  function BatchWrites(rows: map<nat, Bet>, ids: seq<nat>, rounds: map<nat, Round>): Writes
    requires forall b | b in ids :: b in rows
  {
    Writes(map[], rows, rounds, BatchJournal(rows, ids))
  }

  // ---------------------------------------------------------------------------
  // Rows
  // ---------------------------------------------------------------------------

  /** Crash has one thing to bet on; roulette must name and price a selection. */
  function PriceSelection(game: Game, s: Option<Selection>): Result<Option<nat>, Failure> {
    if game == CrashGame then
      if s.Some? then Err(InvalidSelection) else Ok(None)
    else if s.None? then Err(InvalidSelection)
    else
      match OddsForSelection(s.value)
      case Err(_) => Err(InvalidSelection)
      case Ok(odds) => Ok(Some(odds))
  }

  function NewBet(user: nat, round: nat, stake: nat, key: nat, s: Option<Selection>, odds: Option<nat>): Bet {
    Bet(user, round, stake, key, s, odds, Active, None, None)
  }

  /** A round as inserted: open, with nothing that happens later filled in. */
  function NewRound(nonce: int, game: Game, crashPoint: Option<nat>, pocket: Option<nat>, locksAt: int): Round {
    Round(nonce, game, Open, crashPoint, pocket, locksAt, None, None, None, false)
  }

  function WonRow(b: Bet, multiplier: nat, payout: nat): Bet {
    b.(status := Won, multiplier := Some(multiplier), payout := Some(payout))
  }

  function LostRow(b: Bet): Bet {
    b.(status := Lost, payout := Some(0))
  }

  function RefundedRow(b: Bet): Bet {
    b.(status := Refunded, payout := Some(b.stake))
  }

  /** How settling a resolved round decides one active bet. */
  function SettleRow(b: Bet, r: Round): Result<Bet, Failure> {
    if r.game == CrashGame || b.selection.None? || b.odds.None? then Ok(LostRow(b))
    else
      match SelectionWins(b.selection.value, if r.pocket.Some? then r.pocket.value else 0)
      case Err(e) => Err(SelectionFailure(e))
      case Ok(false) => Ok(LostRow(b))
      case Ok(true) =>
        match ApplyBasisPoints(b.stake, b.odds.value)
        case Err(e) => Err(MoneyFailure(e))
        case Ok(payout) => Ok(WonRow(b, b.odds.value, payout))
  }

  /** What a settlement or a void does to one active bet of the round. */
  function Decide(voiding: bool, b: Bet, r: Round): Result<Bet, Failure> {
    if voiding then Ok(RefundedRow(b)) else SettleRow(b, r)
  }

  function Concluded(voiding: bool, r: Round, now: int): Round {
    if voiding then r.(status := Voided, seedRevealed := true, settledAt := Some(now))
    else r.(status := Settled, settledAt := Some(now))
  }

  predicate SamePlacement(b: Bet, c: Bet) {
    c == b.(status := c.status, multiplier := c.multiplier, payout := c.payout)
  }

  // ---------------------------------------------------------------------------
  // Journal and balances
  // ---------------------------------------------------------------------------

  /** The transactions appended about a bet are exactly those its row change calls for. */
  predicate BetWritesFit(bets: map<nat, Bet>, w: Writes, b: nat) {
    About(w.journal, BetRef(b)) ==
      if b !in w.bets then []
      else if b in bets then SettlementOf(b, w.bets[b])
      else [PlacedTx(b, w.bets[b])]
  }

  ghost predicate JournalFits(bets: map<nat, Bet>, w: Writes) {
    (forall b: nat :: BetWritesFit(bets, w, b)) &&
    (forall u: nat :: UserJournalFits(w.journal, w.users, u))
  }

  /** New bets are active; an existing bet changes once, from active, and keeps its placement. */
  predicate BetChangeFits(bets: map<nat, Bet>, w: Writes, b: nat)
    requires b in w.bets
  {
    if b in bets then
      bets[b].status == Active && w.bets[b].status != Active && SamePlacement(bets[b], w.bets[b])
    else w.bets[b].status == Active
  }

  ghost predicate ChangesFit(db: Db, w: Writes) {
    (forall b | b in w.bets :: BetChangeFits(db.bets, w, b)) &&
    (forall u | u in w.users :: u !in db.users)
  }

  lemma BetJournalAfter(db: Db, w: Writes, b: nat)
    requires BetJournalFits(db.journal, db.bets, b) && BetWritesFit(db.bets, w, b)
    requires b in w.bets ==> BetChangeFits(db.bets, w, b)
    ensures BetJournalFits(db.journal + w.journal, db.bets + w.bets, b)
  {
    AboutAppend(db.journal, w.journal, BetRef(b));
    if b in w.bets && b in db.bets {
      assert SettlementOf(b, db.bets[b]) == [];
      assert PlacedTx(b, w.bets[b]) == PlacedTx(b, db.bets[b]);
    }
  }

  lemma ApplyKeepsJournal(db: Db, w: Writes)
    requires JournalMatchesRows(db) && JournalFits(db.bets, w) && ChangesFit(db, w)
    ensures JournalMatchesRows(Apply(db, w))
  {
    hide BetJournalFits, UserJournalFits, BetWritesFit, BetChangeFits;
    forall b: nat ensures BetJournalFits(db.journal + w.journal, db.bets + w.bets, b) {
      assert BetWritesFit(db.bets, w, b);
      BetJournalAfter(db, w, b);
    }
    forall u: nat ensures UserJournalFits(db.journal + w.journal, db.users + w.users, u) {
      assert UserJournalFits(w.journal, w.users, u) && UserJournalFits(db.journal, db.users, u);
      UserJournalAfter(db, w, u);
    }
  }

  lemma UserJournalAfter(db: Db, w: Writes, u: nat)
    requires UserJournalFits(db.journal, db.users, u) && UserJournalFits(w.journal, w.users, u)
    requires u in w.users ==> u !in db.users
    ensures UserJournalFits(db.journal + w.journal, db.users + w.users, u)
  {
    AboutAppend(db.journal, w.journal, UserRef(u));
  }

  /** A wallet that does not exist yet has no entries. */
  lemma NewWalletIsEmpty(db: Db, u: nat)
    requires JournalMatchesRows(db) && AmountsFit(db) && u !in db.users
    requires forall b | b in db.bets :: db.bets[b].user in db.users
    ensures EntrySum(db.journal, Wallet(u)) == 0
  {
    var n := BoundExists(db);
    EntriesAreTheClosedForm(db, n, Wallet(u));
    NothingHeldByStrangers(db, n, u);
  }

  lemma {:induction false} NothingHeldByStrangers(db: Db, n: nat, u: nat)
    requires u !in db.users && forall b | b in db.bets :: db.bets[b].user in db.users
    ensures SumHoldings(db.bets, n, Wallet(u)) == 0 && Granted(db.users, n, Wallet(u)) == 0
  {
    if n > 0 { NothingHeldByStrangers(db, n - 1, u); }
  }

  lemma ApplyKeepsBalances(db: Db, w: Writes)
    requires JournalMatchesRows(db) && BalancesMatchJournal(db) && BetsFit(db.users, db.bets, db.rounds)
    requires forall u | u in w.users :: u !in db.users
    ensures BalancesMatchJournal(Apply(db, w))
  {
    hide JournalMatchesRows;
    var post := Apply(db, w);
    FittingAmounts(db);
    forall a | a in post.balances ensures post.balances[a] == EntrySum(post.journal, a) {
      EntrySumAppend(db.journal, w.journal, a);
      if a !in db.balances {
        NewWalletIsEmpty(db, a.owner);
      }
    }
    forall a ensures a in post.balances <==> !a.Wallet? || a.owner in post.users {
    }
  }

  lemma BalancedAppend(j: Journal, k: Journal)
    requires AllBalanced(j) && AllBalanced(k)
    ensures AllBalanced(j + k)
  {
  }

  /** After the writes every wallet still covers its debits. */
  ghost predicate WalletsCovered(db: Db, w: Writes) {
    forall u | u in db.users || u in w.users ::
      BaseBalance(db, Wallet(u)) + EntrySum(w.journal, Wallet(u)) >= 0
  }

  /** Consistency of the whole, from the journal's fit and the rows' fit. */
  lemma ApplyKeepsConsistent(db: Db, w: Writes)
    requires Consistent(db) && JournalFits(db.bets, w) && ChangesFit(db, w)
    requires BetsFit(db.users + w.users, db.bets + w.bets, db.rounds + w.rounds)
    requires RoundsFit(db.rounds + w.rounds)
    requires AllBalanced(w.journal) && WalletsCovered(db, w)
    ensures Consistent(Apply(db, w))
  {
    ApplyKeepsJournal(db, w);
    ApplyKeepsBalances(db, w);
    BalancedAppend(db.journal, w.journal);
    hide JournalMatchesRows, BetsFit, RoundsFit, AllBalanced, JournalFits, ChangesFit;
    var post := Apply(db, w);
    forall u | u in post.users ensures Wallet(u) in post.balances && post.balances[Wallet(u)] >= 0 {
    }
  }

  // ---------------------------------------------------------------------------
  // Batches of settlements
  // ---------------------------------------------------------------------------

  predicate Distinct(ids: seq<nat>) {
    forall i, j | 0 <= i < j < |ids| :: ids[i] != ids[j]
  }

  /** Every settled row in the batch carries a payable amount. */
  predicate Payable(b: Bet) {
    b.status != Active && b.stake > 0 && PayoutFits(b) && (b.status == Won ==> b.payout.value >= b.stake)
  }

  lemma AboutSettlement(id: nat, b: Bet, ref: Reference)
    ensures About(SettlementOf(id, b), ref) == if ref == BetRef(id) then SettlementOf(id, b) else []
  {
    if b.status != Active {
      AboutOne(SettlementOf(id, b)[0], ref);
    }
  }

  lemma {:induction false} AboutBatch(rows: map<nat, Bet>, ids: seq<nat>, ref: Reference)
    requires Distinct(ids) && forall b | b in ids :: b in rows
    ensures About(BatchJournal(rows, ids), ref) ==
            if ref.BetRef? && ref.bet in ids then SettlementOf(ref.bet, rows[ref.bet]) else []
  {
    hide SettlementOf;
    if ids != [] {
      var n := |ids| - 1;
      hide About;
      LastIsNew(ids);
      AboutBatch(rows, ids[..n], ref);
      AboutAppend(BatchJournal(rows, ids[..n]), SettlementOf(ids[n], rows[ids[n]]), ref);
      AboutSettlement(ids[n], rows[ids[n]], ref);
    }
  }

  lemma LastIsNew(ids: seq<nat>)
    requires ids != [] && Distinct(ids)
    ensures var n := |ids| - 1; Distinct(ids[..n]) && ids[n] !in ids[..n] && ids == ids[..n] + [ids[n]]
  {
  }

  /** The postings built for any settlement satisfy the balance rule, zero profit included. */
  lemma SettlementsAreBalanced(id: nat, b: Bet)
    requires Payable(b)
    ensures |SettlementOf(id, b)| == 1 && Balanced(SettlementOf(id, b)[0].postings)
  {
    var ps := SettlementOf(id, b)[0].postings;
    TotalOfTwo(ps[0], ps[1]);
    if |ps| == 2 {
      assert ps == [ps[0], ps[1]];
    } else {
      TotalOfTwo(ps[2], ps[3]);
      TotalAppend([ps[0], ps[1]], [ps[2], ps[3]]);
      assert ps == [ps[0], ps[1]] + [ps[2], ps[3]];
    }
  }

  lemma TotalOfTwo(p: Posting, q: Posting)
    ensures Total([p, q]) == p.amount + q.amount
  {
    assert [p, q][1..] == [q];
    assert Total([q]) == q.amount + Total([q][1..]);
  }

  lemma {:induction false} TotalAppend(ps: seq<Posting>, qs: seq<Posting>)
    ensures Total(ps + qs) == Total(ps) + Total(qs)
  {
    if ps == [] {
      assert ps + qs == qs;
    } else {
      TotalAppend(ps[1..], qs);
      assert (ps + qs)[1..] == ps[1..] + qs;
    }
  }

  lemma PlacementIsBalanced(id: nat, b: Bet)
    requires b.stake > 0
    ensures Balanced(PlacedTx(id, b).postings)
  {
    TotalOfTwo(PlacedTx(id, b).postings[0], PlacedTx(id, b).postings[1]);
  }

  lemma GrantIsBalanced(user: nat, amount: nat)
    requires amount > 0
    ensures Balanced(GrantTx(user, amount).postings)
  {
    TotalOfTwo(GrantTx(user, amount).postings[0], GrantTx(user, amount).postings[1]);
  }

  lemma {:induction false} BatchBalances(rows: map<nat, Bet>, ids: seq<nat>, a: Account)
    requires forall b | b in ids :: b in rows && Payable(rows[b])
    ensures AllBalanced(BatchJournal(rows, ids))
    ensures a.Wallet? ==> EntrySum(BatchJournal(rows, ids), a) >= 0
  {
    if ids != [] {
      var n := |ids| - 1;
      var id := ids[n];
      BatchBalances(rows, ids[..n], a);
      SettlementsAreBalanced(id, rows[id]);
      EntrySumAppend(BatchJournal(rows, ids[..n]), SettlementOf(id, rows[id]), a);
      EntrySumOne(SettlementOf(id, rows[id])[0], a);
      SettlementNet(id, rows[id], a);
      assert SettlementOf(id, rows[id]) == [SettlementOf(id, rows[id])[0]];
      BalancedAppend(BatchJournal(rows, ids[..n]), SettlementOf(id, rows[id]));
    }
  }

  /** The rows a batch may write: active bets of the tables, each decided once. */
  ghost predicate BatchFits(db: Db, rows: map<nat, Bet>, ids: seq<nat>) {
    Distinct(ids) && (forall b :: b in ids <==> b in rows) &&
    forall b | b in rows ::
      b in db.bets && db.bets[b].status == Active && SamePlacement(db.bets[b], rows[b]) && Payable(rows[b])
  }

  lemma BatchJournalFits(db: Db, rows: map<nat, Bet>, ids: seq<nat>, rounds: map<nat, Round>)
    requires BatchFits(db, rows, ids)
    ensures JournalFits(db.bets, BatchWrites(rows, ids, rounds))
    ensures ChangesFit(db, BatchWrites(rows, ids, rounds))
  {
    hide SettlementOf, Payable;
    var w := BatchWrites(rows, ids, rounds);
    forall b: nat ensures BetWritesFit(db.bets, w, b) {
      AboutBatch(rows, ids, BetRef(b));
    }
    forall u: nat ensures UserJournalFits(w.journal, w.users, u) {
      AboutBatch(rows, ids, UserRef(u));
    }
    forall b | b in rows ensures BetChangeFits(db.bets, w, b) {
      PayableIsSettled(rows[b]);
    }
  }

  lemma PayableIsSettled(b: Bet)
    requires Payable(b)
    ensures b.status != Active
  {
  }

  lemma BatchKeepsConsistent(db: Db, rows: map<nat, Bet>, ids: seq<nat>, rounds: map<nat, Round>)
    requires Consistent(db) && BatchFits(db, rows, ids)
    requires BetsFit(db.users, db.bets + rows, db.rounds + rounds) && RoundsFit(db.rounds + rounds)
    ensures Consistent(Apply(db, BatchWrites(rows, ids, rounds)))
  {
    hide *;
    BatchShape(db, rows, ids, rounds);
    var w := BatchWrites(rows, ids, rounds);
    BatchJournalFits(db, rows, ids, rounds);
    BatchCovers(db, rows, ids, rounds);
    assert db.users + map[] == db.users;
    ApplyKeepsConsistent(db, w);
  }

  lemma BatchShape(db: Db, rows: map<nat, Bet>, ids: seq<nat>, rounds: map<nat, Round>)
    requires BatchFits(db, rows, ids)
    ensures forall b | b in ids :: b in rows && Payable(rows[b])
    ensures BatchWrites(rows, ids, rounds) == Writes(map[], rows, rounds, BatchJournal(rows, ids))
  {
    hide Payable, SamePlacement, BatchJournal;
  }

  lemma BatchCovers(db: Db, rows: map<nat, Bet>, ids: seq<nat>, rounds: map<nat, Round>)
    requires Consistent(db) && BatchFits(db, rows, ids)
    ensures AllBalanced(BatchWrites(rows, ids, rounds).journal) && WalletsCovered(db, BatchWrites(rows, ids, rounds))
  {
    hide JournalMatchesRows, BetsFit, RoundsFit, AllBalanced, BatchFits, BatchJournal, Payable;
    BatchShape(db, rows, ids, rounds);
    BatchBalances(rows, ids, Mint);
    forall u | u in db.users
      ensures BaseBalance(db, Wallet(u)) + EntrySum(BatchJournal(rows, ids), Wallet(u)) >= 0
    {
      BatchBalances(rows, ids, Wallet(u));
    }
  }

  // ---------------------------------------------------------------------------
  // Each operation keeps the tables consistent
  // ---------------------------------------------------------------------------

  /** One transaction appended about one bet or one user. */
  lemma SingleJournalFits(bets: map<nat, Bet>, w: Writes, t: Transaction)
    requires w.journal == [t]
    requires match t.reference
             case BetRef(b) => b !in bets && w.bets.Keys == {b} && w.users == map[] && t == PlacedTx(b, w.bets[b])
             case UserRef(u) => w.bets == map[] && w.users.Keys == {u} && t == GrantTx(u, w.users[u])
    ensures JournalFits(bets, w)
  {
    forall b: nat ensures BetWritesFit(bets, w, b) {
      AboutOne(t, BetRef(b));
    }
    forall u: nat ensures UserJournalFits(w.journal, w.users, u) {
      AboutOne(t, UserRef(u));
    }
  }

  lemma RegisterKeeps(db: Db, user: nat, grant: nat)
    requires Consistent(db) && user !in db.users && grant > 0
    ensures Consistent(Apply(db, RegisterWrites(user, grant)))
  {
    var w := RegisterWrites(user, grant);
    SingleJournalFits(db.bets, w, GrantTx(user, grant));
    GrantIsBalanced(user, grant);
    assert WalletsCovered(db, w) by {
      hide JournalMatchesRows, BetsFit, RoundsFit, AllBalanced, JournalFits;
      forall u | u in db.users || u in w.users
        ensures BaseBalance(db, Wallet(u)) + EntrySum(w.journal, Wallet(u)) >= 0
      {
        EntrySumOne(GrantTx(user, grant), Wallet(u));
        NetOfTwo(Posting(Mint, Negate(grant)), Posting(Wallet(user), grant), Wallet(u));
      }
    }
    assert BetsFit(db.users + w.users, db.bets, db.rounds) by {
      hide JournalMatchesRows, RoundsFit, AllBalanced, JournalFits;
      forall b | b in db.bets ensures BetFits(db.bets[b], db.users + w.users, db.rounds) {
        assert BetFits(db.bets[b], db.users, db.rounds);
      }
    }
    hide JournalMatchesRows, RoundsFit, BetsFit, JournalFits;
    assert db.bets + map[] == db.bets && db.rounds + map[] == db.rounds;
    ApplyKeepsConsistent(db, w);
  }

  /** What placing a bet demands of the tables at the moment it commits. */
  ghost predicate MayPlace(db: Db, id: nat, b: Bet) {
    id !in db.bets && b.user in db.users && b.round in db.rounds && b.stake > 0 &&
    db.rounds[b.round].status == Open &&
    PriceSelection(db.rounds[b.round].game, b.selection) == Ok(b.odds) &&
    b == NewBet(b.user, b.round, b.stake, b.key, b.selection, b.odds) &&
    BaseBalance(db, Wallet(b.user)) >= b.stake &&
    forall c | c in db.bets :: db.bets[c].user != b.user || db.bets[c].key != b.key
  }

  lemma PlacedBetFits(db: Db, id: nat, b: Bet)
    requires RoundsFit(db.rounds) && BetsFit(db.users, db.bets, db.rounds) && MayPlace(db, id, b)
    ensures BetsFit(db.users, db.bets + map[id := b], db.rounds)
  {
    assert BetFits(b, db.users, db.rounds);
  }

  lemma PlaceKeeps(db: Db, id: nat, b: Bet)
    requires Consistent(db) && MayPlace(db, id, b)
    ensures Consistent(Apply(db, PlaceWrites(id, b)))
  {
    var w := PlaceWrites(id, b);
    SingleJournalFits(db.bets, w, PlacedTx(id, b));
    PlacementIsBalanced(id, b);
    PlacedBetFits(db, id, b);
    hide JournalMatchesRows, RoundsFit, BetsFit, JournalFits;
    assert WalletsCovered(db, w) by {
      forall u | u in db.users || u in w.users
        ensures BaseBalance(db, Wallet(u)) + EntrySum(w.journal, Wallet(u)) >= 0
      {
        EntrySumOne(PlacedTx(id, b), Wallet(u));
        PlacedNet(id, b, Wallet(u));
      }
    }
    assert db.users + map[] == db.users && db.rounds + map[] == db.rounds;
    ApplyKeepsConsistent(db, w);
  }

  /** The price of a crash bet at an instant: what its round's curve shows then. */
  function PriceAt(r: Round, at: int): nat {
    MultiplierAtElapsed(if r.startedAt.Some? then at - r.startedAt.value else 0)
  }

  /** Cashing out an active bet on a started crash round, at an instant when the curve is below its crash point. */
  ghost predicate MayCashOut(db: Db, id: nat, at: int) {
    id in db.bets && db.bets[id].status == Active && db.bets[id].round in db.rounds &&
    var r := db.rounds[db.bets[id].round];
    r.game == CrashGame && r.crashPoint.Some? && r.startedAt.Some? && PriceAt(r, at) < r.crashPoint.value
  }

  function CashOutRow(b: Bet, multiplier: nat): Bet {
    WonRow(b, multiplier, Scale(b.stake, multiplier))
  }

  /** The row of a bet cashed out at an instant. */
  function PaidRow(db: Db, id: nat, at: int): Bet
    requires id in db.bets && db.bets[id].round in db.rounds
  {
    CashOutRow(db.bets[id], PriceAt(db.rounds[db.bets[id].round], at))
  }

  lemma PriceIsOnTheCurve(r: Round, at: int)
    ensures OnTheCurve(PriceAt(r, at)) && PriceAt(r, at) >= BASIS_POINTS_ONE
  {
    var tick := TickAtElapsed(if r.startedAt.Some? then at - r.startedAt.value else 0);
    CurveRises(0, tick);
    hide Uncapped, Capped;
    assert PriceAt(r, at) == MultiplierAtTick(tick);
  }

  lemma CashOutRowFits(b: Bet, multiplier: nat, users: map<nat, nat>, rounds: map<nat, Round>)
    requires BetFits(b, users, rounds) && b.status == Active && OnTheCurve(multiplier)
    requires var r := rounds[b.round];
             r.game == CrashGame && r.startedAt.Some? && BASIS_POINTS_ONE <= multiplier < r.crashPoint.value
    ensures BetFits(CashOutRow(b, multiplier), users, rounds)
    ensures Payable(CashOutRow(b, multiplier)) && SamePlacement(b, CashOutRow(b, multiplier))
  {
    hide OnTheCurve;
    PayoutCoversStake(b.stake, multiplier);
  }

  /** Settled rows replace active ones one for one, so the idempotency index is untouched. */
  lemma SettledRowsFit(users: map<nat, nat>, bets: map<nat, Bet>, rows: map<nat, Bet>,
                       rounds: map<nat, Round>, after: map<nat, Round>)
    requires BetsFit(users, bets, rounds)
    requires forall b | b in rows :: b in bets && SamePlacement(bets[b], rows[b])
    requires forall b | b in bets :: BetFits((bets + rows)[b], users, after)
    ensures BetsFit(users, bets + rows, after)
  {
    hide BetFits;
    var post := bets + rows;
    forall b, c | b in post && c in post && post[b].user == post[c].user && post[b].key == post[c].key
      ensures b == c
    {
      assert bets[b].user == bets[c].user && bets[b].key == bets[c].key;
    }
  }

  lemma CashOutFits(db: Db, id: nat, at: int)
    requires Consistent(db) && MayCashOut(db, id, at)
    ensures BatchFits(db, map[id := PaidRow(db, id, at)], [id])
    ensures BetsFit(db.users, db.bets + map[id := PaidRow(db, id, at)], db.rounds)
  {
    hide JournalMatchesRows, RoundsFit, BalancesMatchJournal, NoWalletOverdrawn, AllBalanced, PriceAt, OnTheCurve;
    assert BetFits(db.bets[id], db.users, db.rounds);
    var m := PriceAt(db.rounds[db.bets[id].round], at);
    PriceIsOnTheCurve(db.rounds[db.bets[id].round], at);
    CashOutRowFits(db.bets[id], m, db.users, db.rounds);
    hide BetFits, CashOutRow, Payable;
    SettledRowsFit(db.users, db.bets, map[id := CashOutRow(db.bets[id], m)], db.rounds, db.rounds);
  }

  lemma CashOutKeeps(db: Db, id: nat, at: int)
    requires Consistent(db) && MayCashOut(db, id, at)
    ensures Consistent(Apply(db, BatchWrites(map[id := PaidRow(db, id, at)], [id], map[])))
  {
    CashOutFits(db, id, at);
    hide JournalMatchesRows, RoundsFit, BetsFit, BatchFits, PriceAt;
    assert db.rounds + map[] == db.rounds;
    BatchKeepsConsistent(db, map[id := PaidRow(db, id, at)], [id], map[]);
  }

  /** A settlement concludes a resolved round; a void, one that never resolved. */
  predicate MayConclude(voiding: bool, r: Round) {
    if voiding then (r.status == Open || r.status == Locked || r.status == Running) && r.resolvedAt.None?
    else r.status == Resolved
  }

  ghost predicate Decidable(voiding: bool, db: Db, r: nat, ids: seq<nat>) {
    r in db.rounds && Distinct(ids) &&
    forall b | b in ids ::
      b in db.bets && db.bets[b].round == r && db.bets[b].status == Active &&
      Decide(voiding, db.bets[b], db.rounds[r]).Ok?
  }

  /** The decided rows of some active bets of one round. */
  function DecidedRows(voiding: bool, db: Db, r: nat, ids: seq<nat>): map<nat, Bet>
    requires r in db.rounds
    requires forall b | b in ids :: b in db.bets && Decide(voiding, db.bets[b], db.rounds[r]).Ok?
  {
    map b | b in ids :: Decide(voiding, db.bets[b], db.rounds[r]).value
  }

  function ConcludeWrites(voiding: bool, db: Db, r: nat, ids: seq<nat>, now: int): Writes
    requires r in db.rounds
    requires forall b | b in ids :: b in db.bets && Decide(voiding, db.bets[b], db.rounds[r]).Ok?
  {
    BatchWrites(DecidedRows(voiding, db, r, ids), ids, map[r := Concluded(voiding, db.rounds[r], now)])
  }

  lemma DecisionFits(voiding: bool, b: Bet, users: map<nat, nat>, rounds: map<nat, Round>)
    requires BetFits(b, users, rounds) && b.status == Active
    requires Decide(voiding, b, rounds[b.round]).Ok?
    ensures Payable(Decide(voiding, b, rounds[b.round]).value)
    ensures SamePlacement(b, Decide(voiding, b, rounds[b.round]).value)
  {
    if b.odds.Some? {
      PayoutCoversStake(b.stake, b.odds.value);
    }
  }

  lemma DecisionFitsConcluded(voiding: bool, b: Bet, users: map<nat, nat>, rounds: map<nat, Round>, now: int)
    requires BetFits(b, users, rounds) && b.status == Active && MayConclude(voiding, rounds[b.round])
    requires Decide(voiding, b, rounds[b.round]).Ok?
    ensures BetFits(Decide(voiding, b, rounds[b.round]).value, users,
                    rounds + map[b.round := Concluded(voiding, rounds[b.round], now)])
  {
  }

  lemma SettledBetStillFits(voiding: bool, b: Bet, users: map<nat, nat>, rounds: map<nat, Round>, r: nat, now: int)
    requires BetFits(b, users, rounds) && r in rounds && MayConclude(voiding, rounds[r])
    requires b.round == r ==> b.status != Active
    ensures BetFits(b, users, rounds + map[r := Concluded(voiding, rounds[r], now)])
  {
  }

  lemma DecidedRowsFit(voiding: bool, db: Db, r: nat, ids: seq<nat>)
    requires BetsFit(db.users, db.bets, db.rounds) && Decidable(voiding, db, r, ids)
    ensures BatchFits(db, DecidedRows(voiding, db, r, ids), ids)
  {
    hide BetFits, Payable, Decide, SamePlacement;
    var rows := DecidedRows(voiding, db, r, ids);
    forall b | b in ids ensures Payable(rows[b]) && SamePlacement(db.bets[b], rows[b]) {
      DecisionFits(voiding, db.bets[b], db.users, db.rounds);
    }
  }

  /** The active bets of a round, in any order. */
  ghost predicate ActiveBetsOf(db: Db, r: nat, ids: seq<nat>) {
    Distinct(ids) && forall b :: b in ids <==> b in db.bets && db.bets[b].round == r && db.bets[b].status == Active
  }

  lemma ConcludedRoundsFit(voiding: bool, rounds: map<nat, Round>, r: nat, now: int)
    requires RoundsFit(rounds) && r in rounds && MayConclude(voiding, rounds[r])
    ensures RoundsFit(rounds + map[r := Concluded(voiding, rounds[r], now)])
  {
  }

  lemma ConcludeFits(voiding: bool, db: Db, r: nat, ids: seq<nat>, now: int)
    requires BetsFit(db.users, db.bets, db.rounds) && RoundsFit(db.rounds)
    requires Decidable(voiding, db, r, ids) && ActiveBetsOf(db, r, ids) && MayConclude(voiding, db.rounds[r])
    ensures var rows := DecidedRows(voiding, db, r, ids);
            var after := db.rounds + map[r := Concluded(voiding, db.rounds[r], now)];
            BetsFit(db.users, db.bets + rows, after) && RoundsFit(after)
  {
    var rows := DecidedRows(voiding, db, r, ids);
    var after := db.rounds + map[r := Concluded(voiding, db.rounds[r], now)];
    ConcludedRoundsFit(voiding, db.rounds, r, now);
    hide RoundsFit, BetFits, Payable, Decide, SamePlacement, RoundChecks, Concluded, MayConclude;
    forall b | b in db.bets ensures BetFits((db.bets + rows)[b], db.users, after) {
      if b in ids {
        DecisionFitsConcluded(voiding, db.bets[b], db.users, db.rounds, now);
      } else {
        SettledBetStillFits(voiding, db.bets[b], db.users, db.rounds, r, now);
      }
    }
    forall b | b in rows ensures SamePlacement(db.bets[b], rows[b]) {
      DecisionFits(voiding, db.bets[b], db.users, db.rounds);
    }
    SettledRowsFit(db.users, db.bets, rows, db.rounds, after);
  }

  lemma ConcludeKeeps(voiding: bool, db: Db, r: nat, ids: seq<nat>, now: int)
    requires Consistent(db) && Decidable(voiding, db, r, ids)
    requires ActiveBetsOf(db, r, ids) && MayConclude(voiding, db.rounds[r])
    ensures Consistent(Apply(db, ConcludeWrites(voiding, db, r, ids, now)))
  {
    DecidedRowsFit(voiding, db, r, ids);
    ConcludeFits(voiding, db, r, ids, now);
    hide JournalMatchesRows, RoundsFit, BetsFit, BatchFits;
    BatchKeepsConsistent(db, DecidedRows(voiding, db, r, ids), ids,
                         map[r := Concluded(voiding, db.rounds[r], now)]);
  }

  /** The three plain transitions of a round, each from the status before it. */
  function Advanced(r: Round, now: int): Round {
    match r.status
    case Open => r.(status := Locked)
    case Locked => r.(status := Running, startedAt := Some(now))
    case Running => r.(status := Resolved, resolvedAt := Some(now), seedRevealed := true)
    case _ => r
  }

  function RoundWrites(r: nat, row: Round): Writes {
    NO_WRITES.(rounds := map[r := row])
  }

  /** Writing one round row touches no money. */
  lemma RoundKeeps(db: Db, r: nat, row: Round)
    requires Consistent(db)
    requires BetsFit(db.users, db.bets, db.rounds + map[r := row]) && RoundsFit(db.rounds + map[r := row])
    ensures Consistent(Apply(db, RoundWrites(r, row)))
  {
    assert BatchWrites(map[], [], map[r := row]) == RoundWrites(r, row);
    hide JournalMatchesRows, RoundsFit, BetsFit;
    assert db.bets + map[] == db.bets;
    BatchKeepsConsistent(db, map[], [], map[r := row]);
  }

  lemma AdvancedBetStillFits(b: Bet, users: map<nat, nat>, rounds: map<nat, Round>, r: nat, now: int)
    requires BetFits(b, users, rounds) && r in rounds && RoundChecks(Advanced(rounds[r], now))
    requires Live(rounds[r].status)
    ensures BetFits(b, users, rounds + map[r := Advanced(rounds[r], now)])
  {
  }

  lemma AdvanceKeeps(db: Db, r: nat, now: int)
    requires Consistent(db) && r in db.rounds && Live(db.rounds[r].status)
    requires RoundChecks(Advanced(db.rounds[r], now))
    ensures Consistent(Apply(db, RoundWrites(r, Advanced(db.rounds[r], now))))
  {
    var after := db.rounds + map[r := Advanced(db.rounds[r], now)];
    assert RoundsFit(after) by {
      hide JournalMatchesRows, BetsFit, BalancesMatchJournal, NoWalletOverdrawn, AllBalanced;
    }
    assert BetsFit(db.users, db.bets, after) by {
      hide JournalMatchesRows, RoundsFit, BalancesMatchJournal, NoWalletOverdrawn, AllBalanced, BetFits;
      forall b | b in db.bets ensures BetFits(db.bets[b], db.users, after) {
        AdvancedBetStillFits(db.bets[b], db.users, db.rounds, r, now);
      }
    }
    hide JournalMatchesRows, RoundsFit, BetsFit;
    RoundKeeps(db, r, Advanced(db.rounds[r], now));
  }

  lemma OpenKeeps(db: Db, r: nat, row: Round)
    requires Consistent(db) && r !in db.rounds && row.status == Open && RoundChecks(row)
    requires forall q | q in db.rounds && db.rounds[q].game == row.game :: !Live(db.rounds[q].status)
    ensures Consistent(Apply(db, RoundWrites(r, row)))
  {
    var after := db.rounds + map[r := row];
    assert RoundsFit(after) by {
      hide JournalMatchesRows, BetsFit, BalancesMatchJournal, NoWalletOverdrawn, AllBalanced;
    }
    assert BetsFit(db.users, db.bets, after) by {
      hide JournalMatchesRows, BalancesMatchJournal, NoWalletOverdrawn, AllBalanced;
      forall b | b in db.bets ensures BetFits(db.bets[b], db.users, after) {
        assert BetFits(db.bets[b], db.users, db.rounds);
      }
    }
    hide JournalMatchesRows, RoundsFit, BetsFit;
    RoundKeeps(db, r, row);
  }
}
