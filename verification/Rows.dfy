/**
 The operations as a reader of the tables sees them. What may happen and what
 it leaves behind is spelled out here from columns, numbers and postings alone,
 without the functions that compute it, and proved to be exactly what the
 operations do.
 */
module Rows {
  import opened Prelude
  import opened Money
  import opened CrashCurve
  import opened Roulette
  import opened Ledger
  import opened Tables
  import opened Operations
  import opened InterleavingState
  import opened InterleavingPosting
  import opened InterleavingPayouts
  import opened InterleavingConclude
  import opened Atomicity

  // ---------------------------------------------------------------------------
  // Roulette selections
  // ---------------------------------------------------------------------------

  /** The selections a game takes, each with the price stored on the bet. */
  predicate PricedAs(game: Game, s: Option<Selection>, odds: Option<nat>) {
    if game == CrashGame then s == None && odds == None
    else
      s.Some? && odds.Some? &&
      match s.value.kind
      case Straight => s.value.value.Some? && 0 <= s.value.value.value <= 36 && odds.value == 360_000
      case Dozen => s.value.value.Some? && 1 <= s.value.value.value <= 3 && odds.value == 30_000
      case Column => s.value.value.Some? && 1 <= s.value.value.value <= 3 && odds.value == 30_000
      case _ => s.value.value.None? && odds.value == 20_000
  }

  /** The pockets each selection wins on. */
  predicate WinsOn(s: Selection, pocket: int) {
    match s.kind
    case Straight => s.value == Some(pocket)
    case Red => pocket in {1, 3, 5, 7, 9, 12, 14, 16, 18, 19, 21, 23, 25, 27, 30, 32, 34, 36}
    case Black => pocket in {2, 4, 6, 8, 10, 11, 13, 15, 17, 20, 22, 24, 26, 28, 29, 31, 33, 35}
    case Odd => pocket % 2 == 1
    case Even => pocket > 0 && pocket % 2 == 0
    case Low => 1 <= pocket <= 18
    case High => 19 <= pocket <= 36
    case Dozen => s.value.Some? && 12 * (s.value.value - 1) < pocket <= 12 * s.value.value
    case Column => s.value.Some? && pocket > 0 && pocket % 3 == s.value.value % 3
  }

  /** A placement is priced exactly as listed, and refused otherwise. */
  lemma PricingAsListed(game: Game, s: Option<Selection>)
    ensures forall odds :: PriceSelection(game, s) == Ok(odds) <==> PricedAs(game, s, odds)
    ensures PriceSelection(game, s).Err? ==> PriceSelection(game, s).error == InvalidSelection
  {
  }

  /** A selection that a bet may carry wins on exactly the listed pockets. */
  lemma WinsAsListed(s: Selection, pocket: int)
    requires ValidSelection(s) && 0 <= pocket <= 36
    ensures Wins(s, pocket) <==> WinsOn(s, pocket)
    ensures SelectionWins(s, pocket) == Ok(WinsOn(s, pocket))
  {
    hide RED_POCKETS, RedByRule;
    if s.kind == Red || s.kind == Black {
      ColourWins(s, pocket);
      ColoursAsListed(pocket);
    }
  }

  /** The listed colours follow the rule of the wheel. */
  lemma ColoursAsListed(p: int)
    requires 0 <= p <= 36
    ensures p in {1, 3, 5, 7, 9, 12, 14, 16, 18, 19, 21, 23, 25, 27, 30, 32, 34, 36} <==> p != 0 && RedByRule(p)
    ensures p in {2, 4, 6, 8, 10, 11, 13, 15, 17, 20, 22, 24, 26, 28, 29, 31, 33, 35} <==> p != 0 && !RedByRule(p)
  {
    if p <= 18 { ColoursBelow(p); } else { ColoursAbove(p); }
  }

  lemma ColoursBelow(p: int)
    requires 0 <= p <= 18
    ensures p in {1, 3, 5, 7, 9, 12, 14, 16, 18} <==> p != 0 && RedByRule(p)
    ensures p in {2, 4, 6, 8, 10, 11, 13, 15, 17} <==> p != 0 && !RedByRule(p)
  {
  }

  lemma ColoursAbove(p: int)
    requires 19 <= p <= 36
    ensures p in {19, 21, 23, 25, 27, 30, 32, 34, 36} <==> RedByRule(p)
    ensures p in {20, 22, 24, 26, 28, 29, 31, 33, 35} <==> !RedByRule(p)
  {
  }

  // ---------------------------------------------------------------------------
  // What deciding a bet writes
  // ---------------------------------------------------------------------------

  /**
   The row a settlement or a void leaves of an active bet: a refund returns the
   stake; on crash whoever has not cashed out has lost; on roulette a winning
   selection pays its stored odds, rounded down, within the safe integers.
   */
  predicate DecidedAs(voiding: bool, b: Bet, r: Round, row: Bet) {
    if voiding then row == b.(status := Refunded, payout := Some(b.stake))
    else if r.game == RouletteGame && b.selection.Some? && r.pocket.Some? &&
            WinsOn(b.selection.value, r.pocket.value)
    then
      b.odds.Some? && b.stake * b.odds.value / 10_000 <= 9_007_199_254_740_991 &&
      row == b.(status := Won, multiplier := b.odds, payout := Some(b.stake * b.odds.value / 10_000))
    else row == b.(status := Lost, payout := Some(0))
  }

  lemma DecisionAsListed(voiding: bool, b: Bet, users: map<nat, nat>, rounds: map<nat, Round>)
    requires BetFits(b, users, rounds) && b.status == Active
    ensures forall row :: Decide(voiding, b, rounds[b.round]) == Ok(row) <==> DecidedAs(voiding, b, rounds[b.round], row)
  {
    var r := rounds[b.round];
    if r.game == RouletteGame { WinsAsListed(b.selection.value, r.pocket.value); }
    hide Wins, WinsOn;
  }

  predicate Decided(row: Bet) {
    row.status != Active && (row.status == Won ==> row.payout.Some?)
  }

  /** The one transaction of a decided bet: the stake out of escrow, to its owner or the house, and any profit. */
  predicate PostedFor(id: nat, row: Bet, tx: Transaction) {
    tx.reference == BetRef(id) &&
    match row.status
    case Won =>
      row.payout.Some? && tx.kind == BetCashout &&
      var profit := row.payout.value - row.stake;
      tx.postings ==
      if profit > 0 then
        [Posting(Escrow, 0 - row.stake), Posting(Wallet(row.user), row.stake), Posting(House, 0 - profit),
         Posting(Wallet(row.user), profit)]
      else [Posting(Escrow, 0 - row.stake), Posting(Wallet(row.user), row.stake)]
    case Lost => tx.kind == BetLost && tx.postings == [Posting(Escrow, 0 - row.stake), Posting(House, row.stake)]
    case Refunded =>
      tx.kind == RoundVoidRefund && tx.postings == [Posting(Escrow, 0 - row.stake), Posting(Wallet(row.user), row.stake)]
    case Active => false
  }

  lemma PostingAsListed(id: nat, row: Bet)
    requires Decided(row)
    ensures |SettlementOf(id, row)| == 1
    ensures forall tx :: PostedFor(id, row, tx) <==> tx == SettlementOf(id, row)[0]
  {
    if row.status == Won {
      var ps := PayoutPostings(row.user, row.stake, row.payout.value);
      var profit := row.payout.value - row.stake;
      assert ps == if profit > 0 then
                     [Posting(Escrow, 0 - row.stake), Posting(Wallet(row.user), row.stake),
                      Posting(House, 0 - profit), Posting(Wallet(row.user), profit)]
                   else [Posting(Escrow, 0 - row.stake), Posting(Wallet(row.user), row.stake)];
    }
  }

  // ---------------------------------------------------------------------------
  // The six operations
  // ---------------------------------------------------------------------------

  /** What a running crash round shows: one tick every tenth of a second since it started. */
  function Shown(startedAt: int, at: int): nat {
    MultiplierAtTick(if at < startedAt then 0 else (at - startedAt) / 100)
  }

  /** The tables after appending these transactions: every balance moves by their entries, and no other way. */
  predicate Appends(db: Db, after: Db, added: Journal) {
    after.journal == db.journal + added &&
    forall a | a in after.balances ::
      after.balances[a] == (if a in db.balances then db.balances[a] else 0) + EntrySum(added, a)
  }

  predicate GrantInRows(db: Db, after: Db, u: nat, amount: nat) {
    u !in db.users && amount > 0 && after.users == db.users[u := amount] &&
    after.bets == db.bets && after.rounds == db.rounds && after.balances.Keys == db.balances.Keys + {Wallet(u)} &&
    Appends(db, after, [Transaction(SignupGrant, UserRef(u), [Posting(Mint, 0 - amount), Posting(Wallet(u), amount)])])
  }

  ghost predicate PlaceInRows(db: Db, after: Db, id: nat, row: Bet) {
    id !in db.bets && row.user in db.users && row.round in db.rounds && db.rounds[row.round].status == Open &&
    row.stake > 0 && PricedAs(db.rounds[row.round].game, row.selection, row.odds) &&
    row.status == Active && row.multiplier == None && row.payout == None &&
    (if Wallet(row.user) in db.balances then db.balances[Wallet(row.user)] else 0) >= row.stake &&
    (forall c | c in db.bets :: db.bets[c].user != row.user || db.bets[c].key != row.key) &&
    after.users == db.users && after.rounds == db.rounds && after.bets == db.bets[id := row] &&
    after.balances.Keys == db.balances.Keys &&
    Appends(db, after, [Transaction(BetPlaced, BetRef(id),
                                    [Posting(Wallet(row.user), 0 - row.stake), Posting(Escrow, row.stake)])])
  }

  /** At `at` the curve is below the crash point of the bet's round, and the bet is paid what it shows. */
  ghost predicate PayInRows(db: Db, after: Db, id: nat, at: int) {
    id in db.bets && db.bets[id].status == Active && db.bets[id].round in db.rounds &&
    var b, r := db.bets[id], db.rounds[db.bets[id].round];
    r.game == CrashGame && r.crashPoint.Some? && r.startedAt.Some? &&
    Shown(r.startedAt.value, at) < r.crashPoint.value &&
    after.users == db.users && after.rounds == db.rounds && after.balances.Keys == db.balances.Keys &&
    var m := Shown(r.startedAt.value, at);
    after.bets == db.bets[id := b.(status := Won, multiplier := Some(m), payout := Some(b.stake * m / 10_000))] &&
    exists tx :: PostedFor(id, after.bets[id], tx) && Appends(db, after, [tx])
  }

  /** Every active bet of the round is decided and posted, in the order given, and the round is stamped. */
  ghost predicate CloseInRows(db: Db, after: Db, voiding: bool, r: nat, ids: seq<nat>, at: int) {
    r in db.rounds && Distinct(ids) &&
    (forall b :: b in ids <==> b in db.bets && db.bets[b].round == r && db.bets[b].status == Active) &&
    (if voiding then
       (db.rounds[r].status == Open || db.rounds[r].status == Locked || db.rounds[r].status == Running) &&
       db.rounds[r].resolvedAt == None &&
       after.rounds == db.rounds[r := db.rounds[r].(status := Voided, seedRevealed := true, settledAt := Some(at))]
     else
       db.rounds[r].status == Resolved &&
       after.rounds == db.rounds[r := db.rounds[r].(status := Settled, settledAt := Some(at))]) &&
    after.users == db.users && BetsClosed(db.bets, after.bets, voiding, db.rounds[r], ids) &&
    after.balances.Keys == db.balances.Keys &&
    exists added :: PostsEach(after.bets, ids, added) && Appends(db, after, added)
  }

  /** These bets are decided, and no other changes. */
  ghost predicate BetsClosed(bets: map<nat, Bet>, after: map<nat, Bet>, voiding: bool, r: Round, ids: seq<nat>) {
    after.Keys == bets.Keys &&
    forall b | b in bets :: if b in ids then DecidedAs(voiding, bets[b], r, after[b]) else after[b] == bets[b]
  }

  predicate PostsEach(bets: map<nat, Bet>, ids: seq<nat>, added: Journal) {
    |added| == |ids| && forall k | 0 <= k < |ids| :: ids[k] in bets && PostedFor(ids[k], bets[ids[k]], added[k])
  }

  /** One step of a live round: locked as it is, started now, or resolved now with its seed revealed. */
  predicate MoveInRows(db: Db, after: Db, r: nat, at: int) {
    r in db.rounds && after.users == db.users && after.bets == db.bets && after.balances == db.balances &&
    after.journal == db.journal &&
    var row := db.rounds[r];
    match row.status
    case Open => after.rounds == db.rounds[r := row.(status := Locked)]
    case Locked =>
      (row.resolvedAt.Some? ==> at <= row.resolvedAt.value) &&
      after.rounds == db.rounds[r := row.(status := Running, startedAt := Some(at))]
    case Running =>
      row.startedAt.Some? && row.startedAt.value <= at &&
      after.rounds == db.rounds[r := row.(status := Resolved, resolvedAt := Some(at), seedRevealed := true)]
    case _ => false
  }

  /** A new open round with the outcome of its own game and no other, its seed unrevealed, beside no live one. */
  ghost predicate CreateInRows(db: Db, after: Db, r: nat, row: Round) {
    r !in db.rounds && row.status == Open && !row.seedRevealed &&
    (row.resolvedAt.Some? ==> row.startedAt.Some? && row.resolvedAt.value >= row.startedAt.value) &&
    (if row.game == CrashGame then row.crashPoint.Some? && row.crashPoint.value >= 10_000 && row.pocket == None
     else row.pocket.Some? && row.pocket.value <= 36 && row.crashPoint == None) &&
    (forall q | q in db.rounds && db.rounds[q].game == row.game ::
       db.rounds[q].status == Resolved || db.rounds[q].status == Settled || db.rounds[q].status == Voided) &&
    after == db.(rounds := db.rounds[r := row])
  }

  ghost predicate InRows(db: Db, after: Db, op: Operation) {
    match op
    case Grant(u, amount) => GrantInRows(db, after, u, amount)
    case Place(id, row) => PlaceInRows(db, after, id, row)
    case Pay(id, at) => PayInRows(db, after, id, at)
    case Close(voiding, r, ids, at) => CloseInRows(db, after, voiding, r, ids, at)
    case Move(r, at) => MoveInRows(db, after, r, at)
    case Create(r, row) => CreateInRows(db, after, r, row)
  }

  // ---------------------------------------------------------------------------
  // They are what the operations do
  // ---------------------------------------------------------------------------

  lemma AppliedAsListed(db: Db, after: Db, w: Writes)
    ensures after == Apply(db, w) <==>
            after.users == db.users + w.users && after.bets == db.bets + w.bets &&
            after.rounds == db.rounds + w.rounds &&
            after.balances.Keys == AccountsAfter(db, w.users) && Appends(db, after, w.journal)
  {
    hide EntrySum;
    var applied := Apply(db, w);
    assert applied.balances.Keys == AccountsAfter(db, w.users);
    if after.balances.Keys == applied.balances.Keys && Appends(db, after, w.journal) {
      assert after.balances == applied.balances;
    }
  }

  lemma GrantIff(db: Db, after: Db, u: nat, amount: nat)
    ensures Does(db, after, Grant(u, amount)) <==> GrantInRows(db, after, u, amount)
  {
    hide Apply, Appends;
    AppliedAsListed(db, after, RegisterWrites(u, amount));
    assert db.users + map[u := amount] == db.users[u := amount];
    assert AccountsAfter(db, map[u := amount]) == db.balances.Keys + {Wallet(u)};
    assert db.bets + map[] == db.bets && db.rounds + map[] == db.rounds;
  }

  lemma PlaceIff(db: Db, after: Db, id: nat, row: Bet)
    ensures Does(db, after, Place(id, row)) <==> PlaceInRows(db, after, id, row)
  {
    hide Apply, Appends, PricedAs, PriceSelection;
    AppliedAsListed(db, after, PlaceWrites(id, row));
    if row.round in db.rounds { PricingAsListed(db.rounds[row.round].game, row.selection); }
    NoNewAccounts(db);
    assert db.bets + map[id := row] == db.bets[id := row];
    assert db.users + map[] == db.users && db.rounds + map[] == db.rounds;
  }

  lemma NoNewAccounts(db: Db)
    ensures AccountsAfter(db, map[]) == db.balances.Keys
  {
  }

  lemma ShownIsPriced(r: Round, at: int)
    requires r.startedAt.Some?
    ensures PriceAt(r, at) == Shown(r.startedAt.value, at)
  {
    hide MultiplierAtTick;
  }

  lemma PayIff(db: Db, after: Db, id: nat, at: int)
    ensures Does(db, after, Pay(id, at)) <==> PayInRows(db, after, id, at)
  {
    hide Apply, Appends, Shown, PriceAt, PostedFor, EntrySum, SettlementOf;
    if id in db.bets && db.bets[id].round in db.rounds && db.rounds[db.bets[id].round].startedAt.Some? {
      var b, r := db.bets[id], db.rounds[db.bets[id].round];
      ShownIsPriced(r, at);
      var row := PaidRow(db, id, at);
      var w := BatchWrites(map[id := row], [id], map[]);
      BatchOfOne(id, row);
      PostingAsListed(id, row);
      AppliedAsListed(db, after, w);
      NoNewAccounts(db);
      assert w.journal == [SettlementOf(id, row)[0]];
      assert db.bets + map[id := row] == db.bets[id := row];
      assert db.users + map[] == db.users && db.rounds + map[] == db.rounds;
      assert db.bets[id := row][id] == row;
    }
  }

  lemma MoveIff(db: Db, after: Db, r: nat, at: int)
    requires Consistent(db)
    ensures Does(db, after, Move(r, at)) <==> MoveInRows(db, after, r, at)
  {
    hide Apply, Appends, EntrySum, JournalMatchesRows, BetsFit, NoWalletOverdrawn, AllBalanced;
    if r in db.rounds {
      RoundOnlyAsListed(db, r, Advanced(db.rounds[r], at));
      assert RoundChecks(db.rounds[r]);
    }
  }

  lemma RoundOnlyAsListed(db: Db, r: nat, row: Round)
    ensures Apply(db, RoundWrites(r, row)) == db.(rounds := db.rounds[r := row])
  {
    var after := db.(rounds := db.rounds[r := row]);
    hide Apply;
    AppliedAsListed(db, after, RoundWrites(r, row));
    NoNewAccounts(db);
    assert db.journal + [] == db.journal;
    assert db.users + map[] == db.users && db.bets + map[] == db.bets;
  }

  lemma CreateIff(db: Db, after: Db, r: nat, row: Round)
    ensures Does(db, after, Create(r, row)) <==> CreateInRows(db, after, r, row)
  {
    hide Apply;
    RoundOnlyAsListed(db, r, row);
    forall q | q in db.rounds
      ensures !Live(db.rounds[q].status) <==>
              db.rounds[q].status == Resolved || db.rounds[q].status == Settled || db.rounds[q].status == Voided
    {
    }
  }

  lemma {:induction false} BatchPostsEach(rows: map<nat, Bet>, ids: seq<nat>)
    requires forall b | b in ids :: b in rows && Decided(rows[b])
    ensures PostsEach(rows, ids, BatchJournal(rows, ids))
  {
    hide PostedFor, SettlementOf;
    if ids != [] {
      var n := |ids| - 1;
      BatchPostsEach(rows, ids[..n]);
      PostingAsListed(ids[n], rows[ids[n]]);
    }
  }

  lemma PostsUniquely(rows: map<nat, Bet>, ids: seq<nat>, added: Journal, other: Journal)
    requires forall b | b in ids :: b in rows && Decided(rows[b])
    requires PostsEach(rows, ids, added) && PostsEach(rows, ids, other)
    ensures added == other
  {
    hide PostedFor, SettlementOf;
    forall k | 0 <= k < |ids| ensures added[k] == other[k] {
      assert ids[k] in ids;
      PostingAsListed(ids[k], rows[ids[k]]);
    }
  }

  lemma DecisionsAsListed(db: Db, voiding: bool, r: nat, ids: seq<nat>)
    requires Consistent(db) && ActiveBetsOf(db, r, ids) && r in db.rounds
    ensures forall b, row | b in ids :: Decide(voiding, db.bets[b], db.rounds[r]) == Ok(row) <==>
              DecidedAs(voiding, db.bets[b], db.rounds[r], row)
  {
    hide Consistent, Decide, DecidedAs, BetFits;
    forall b, row | b in ids
      ensures Decide(voiding, db.bets[b], db.rounds[r]) == Ok(row) <==> DecidedAs(voiding, db.bets[b], db.rounds[r], row)
    {
      CommittedBetFits(db, b);
      DecisionAsListed(voiding, db.bets[b], db.users, db.rounds);
    }
  }

  lemma DecidedShape(voiding: bool, b: Bet, r: Round, row: Bet)
    requires DecidedAs(voiding, b, r, row)
    ensures Decided(row)
  {
    hide WinsOn;
  }

  /** What is written for a closing, given the rows it leaves. */
  lemma CloseWrites(db: Db, after: Db, voiding: bool, r: nat, ids: seq<nat>, at: int)
    requires Consistent(db) && ActiveBetsOf(db, r, ids) && Decidable(voiding, db, r, ids)
    ensures after == Apply(db, ConcludeWrites(voiding, db, r, ids, at)) <==>
            after.users == db.users && after.rounds == db.rounds[r := Concluded(voiding, db.rounds[r], at)] &&
            BetsClosed(db.bets, after.bets, voiding, db.rounds[r], ids) && after.balances.Keys == db.balances.Keys &&
            exists added :: PostsEach(after.bets, ids, added) && Appends(db, after, added)
  {
    DecidableIsDefined(voiding, db, r, ids);
    DecisionsAsListed(db, voiding, r, ids);
    hide Consistent, Decide, DecidedAs, ActiveBetsOf, Decidable, BatchWrites, Appends, PostsEach, Apply, Concluded,
         BetsClosed;
    RowsClosed(db, after, DecidedRows(voiding, db, r, ids), voiding, r, ids, Concluded(voiding, db.rounds[r], at));
  }

  lemma RowsClosed(
    db: Db, after: Db, rows: map<nat, Bet>, voiding: bool, r: nat, ids: seq<nat>, closed: Round)
    requires r in db.rounds && (forall b :: b in rows <==> b in ids) && forall b | b in ids :: b in db.bets
    requires forall b, row | b in ids :: row == rows[b] <==> DecidedAs(voiding, db.bets[b], db.rounds[r], row)
    ensures after == Apply(db, BatchWrites(rows, ids, map[r := closed])) <==>
            after.users == db.users && after.rounds == db.rounds[r := closed] &&
            BetsClosed(db.bets, after.bets, voiding, db.rounds[r], ids) && after.balances.Keys == db.balances.Keys &&
            exists added :: PostsEach(after.bets, ids, added) && Appends(db, after, added)
  {
    hide DecidedAs, BatchWrites, BatchJournal, Appends, PostsEach, Apply, BetsClosed;
    BatchApplied(db, after, rows, ids, r, closed);
    BetsAsListed(db.bets, after.bets, rows, voiding, db.rounds[r], ids);
    if BetsClosed(db.bets, after.bets, voiding, db.rounds[r], ids) {
      BatchPosts(db, after, rows, voiding, r, ids);
    }
  }

  lemma BatchApplied(db: Db, after: Db, rows: map<nat, Bet>, ids: seq<nat>, r: nat, row: Round)
    requires forall b | b in ids :: b in rows
    ensures after == Apply(db, BatchWrites(rows, ids, map[r := row])) <==>
            after.users == db.users && after.bets == db.bets + rows && after.rounds == db.rounds[r := row] &&
            after.balances.Keys == db.balances.Keys && Appends(db, after, BatchJournal(rows, ids))
  {
    hide Appends, Apply, BatchJournal;
    AppliedAsListed(db, after, BatchWrites(rows, ids, map[r := row]));
    NoNewAccounts(db);
    assert db.users + map[] == db.users;
    assert db.rounds + map[r := row] == db.rounds[r := row];
  }

  lemma BatchPosts(db: Db, after: Db, rows: map<nat, Bet>, voiding: bool, r: nat, ids: seq<nat>)
    requires r in db.rounds
    requires forall b | b in ids :: b in db.bets && b in rows && b in after.bets && after.bets[b] == rows[b]
    requires forall b | b in ids :: DecidedAs(voiding, db.bets[b], db.rounds[r], rows[b])
    ensures Appends(db, after, BatchJournal(rows, ids)) <==>
            exists added :: PostsEach(after.bets, ids, added) && Appends(db, after, added)
  {
    hide DecidedAs, PostsEach, BatchJournal, Appends, Decided;
    forall b | b in ids ensures Decided(rows[b]) {
      DecidedShape(voiding, db.bets[b], db.rounds[r], rows[b]);
    }
    BatchPostsEach(rows, ids);
    SameRowsPost(after.bets, rows, ids, BatchJournal(rows, ids));
    forall added | PostsEach(after.bets, ids, added) ensures added == BatchJournal(rows, ids) {
      SameRowsPost(after.bets, rows, ids, added);
      PostsUniquely(rows, ids, added, BatchJournal(rows, ids));
    }
  }

  lemma BetsAsListed(
    bets: map<nat, Bet>, after: map<nat, Bet>, rows: map<nat, Bet>, voiding: bool, r: Round, ids: seq<nat>)
    requires (forall b :: b in rows <==> b in ids) && forall b | b in ids :: b in bets
    requires forall b, row | b in ids :: row == rows[b] <==> DecidedAs(voiding, bets[b], r, row)
    ensures after == bets + rows <==> BetsClosed(bets, after, voiding, r, ids)
  {
    hide DecidedAs;
    assert (bets + rows).Keys == bets.Keys;
    if BetsClosed(bets, after, voiding, r, ids) {
      assert after == bets + rows;
    }
  }

  lemma SameRowsPost(bets: map<nat, Bet>, rows: map<nat, Bet>, ids: seq<nat>, added: Journal)
    requires forall b | b in ids :: b in bets && b in rows && bets[b] == rows[b]
    ensures PostsEach(bets, ids, added) <==> PostsEach(rows, ids, added)
  {
    hide PostedFor;
  }

  lemma CloseIff(db: Db, after: Db, voiding: bool, r: nat, ids: seq<nat>, at: int)
    requires Consistent(db)
    ensures Does(db, after, Close(voiding, r, ids, at)) <==> CloseInRows(db, after, voiding, r, ids, at)
  {
    hide Consistent, Decide, DecidedAs, Distinct, PostsEach, Appends, Apply, ConcludeWrites, BetsClosed;
    if r in db.rounds && ActiveBetsOf(db, r, ids) {
      if BetsClosed(db.bets, after.bets, voiding, db.rounds[r], ids) {
        ClosedIsDecidable(db, after, voiding, r, ids);
      }
      if Decidable(voiding, db, r, ids) {
        CloseWrites(db, after, voiding, r, ids, at);
      }
    }
  }

  lemma ClosedIsDecidable(db: Db, after: Db, voiding: bool, r: nat, ids: seq<nat>)
    requires Consistent(db) && r in db.rounds && ActiveBetsOf(db, r, ids)
    requires BetsClosed(db.bets, after.bets, voiding, db.rounds[r], ids)
    ensures Decidable(voiding, db, r, ids)
  {
    hide Consistent, Decide, DecidedAs, Distinct;
    DecisionsAsListed(db, voiding, r, ids);
    forall b | b in ids ensures Decide(voiding, db.bets[b], db.rounds[r]).Ok? {
      assert DecidedAs(voiding, db.bets[b], db.rounds[r], after.bets[b]);
      assert Decide(voiding, db.bets[b], db.rounds[r]) == Ok(after.bets[b]);
    }
  }

  /** An operation is legal and leaves these tables exactly when the tables say so themselves. */
  lemma DoesIffInRows(db: Db, after: Db, op: Operation)
    requires Consistent(db)
    ensures Does(db, after, op) <==> InRows(db, after, op)
  {
    hide Consistent, Does, GrantInRows, PlaceInRows, PayInRows, CloseInRows, MoveInRows, CreateInRows;
    match op
    case Grant(u, amount) => GrantIff(db, after, u, amount);
    case Place(id, row) => PlaceIff(db, after, id, row);
    case Pay(id, at) => PayIff(db, after, id, at);
    case Close(voiding, r, ids, at) => CloseIff(db, after, voiding, r, ids, at);
    case Move(r, at) => MoveIff(db, after, r, at);
    case Create(r, row) => CreateIff(db, after, r, row);
  }

  // ---------------------------------------------------------------------------
  // What stands in the way
  // ---------------------------------------------------------------------------

  /** The round takes bets, and this selection. */
  ghost predicate TakesBet(db: Db, round: nat, selection: Option<Selection>) {
    round in db.rounds && db.rounds[round].status == Open &&
    exists odds :: PricedAs(db.rounds[round].game, selection, odds)
  }

  /** The user's bet is active on a crash round that is running. */
  predicate InFlight(db: Db, user: nat, bet: nat) {
    bet in db.bets && db.bets[bet].user == user && db.bets[bet].status == Active && db.bets[bet].round in db.rounds &&
    var r := db.rounds[db.bets[bet].round];
    r.game == CrashGame && r.status == Running && r.crashPoint.Some? && r.startedAt.Some?
  }

  /** What the curve of the bet's round shows at this time. */
  function PriceShown(db: Db, user: nat, bet: nat, now: int): nat
    requires InFlight(db, user, bet)
  {
    Shown(db.rounds[db.bets[bet].round].startedAt.value, now)
  }

  /** Where the curve of the bet's round stops. */
  function Crash(db: Db, user: nat, bet: nat): nat
    requires InFlight(db, user, bet)
  {
    db.rounds[db.bets[bet].round].crashPoint.value
  }

  /** A winning bet of a resolved round can be paid in safe integers; a losing one always can. */
  predicate Affordable(b: Bet, r: Round) {
    (r.game == RouletteGame && b.selection.Some? && b.odds.Some? && r.pocket.Some? &&
     WinsOn(b.selection.value, r.pocket.value)) ==>
      b.stake * b.odds.value / 10_000 <= 9_007_199_254_740_991
  }

  lemma DecidedIffAffordable(b: Bet, users: map<nat, nat>, rounds: map<nat, Round>)
    requires BetFits(b, users, rounds) && b.status == Active
    ensures Decide(false, b, rounds[b.round]).Ok? <==> Affordable(b, rounds[b.round])
  {
    var r := rounds[b.round];
    if r.game == RouletteGame { WinsAsListed(b.selection.value, r.pocket.value); }
    hide Wins, WinsOn;
  }
}
