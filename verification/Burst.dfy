/**
 Many placements at once against one wallet: exactly as many commit as the
 wallet covers, whatever the interleaving and whatever else goes on beside
 them, as long as nothing else moves that wallet and their rounds stay open.
 */
module Burst {
  import opened Prelude
  import opened Money
  import opened CrashCurve
  import opened Ledger
  import opened Roulette
  import opened Tables
  import opened Operations
  import opened Interleaving
  import opened InterleavingState
  import opened InterleavingPosting
  import opened InterleavingMoves
  import opened InterleavingPlace
  import opened InterleavingPayouts
  import opened InterleavingConclude
  import opened InterleavingSafety
  import opened Atomicity
  import opened Guarantees
  import opened Placing

  /** One user's requests, all of one stake, on any of these rounds. */
  datatype Wager = Wager(user: nat, stake: nat, rounds: set<nat>)

  predicate IsRequest(w: Wager, p: Program) {
    p.PlaceBet? && p.user == w.user
  }

  /** A transaction that neither moves the wallet nor closes one of the rounds. */
  predicate Harmless(w: Wager, p: Program) {
    match p
    case Register(_, _) => true
    case PlaceBet(u, _, _, _, _) => u != w.user
    case CashOut(u, _) => u != w.user
    case Conclude(_, r) => r !in w.rounds
    case Advance(r, _) => r !in w.rounds
    case OpenRound(_, _, _, _, _, _) => true
  }

  /** The requests among some transactions, and those of them that succeeded. */
  function Requests(w: Wager, txs: seq<Tx>): nat {
    if txs == [] then 0
    else Requests(w, txs[..|txs| - 1]) + (if IsRequest(w, txs[|txs| - 1].program) then 1 else 0)
  }

  function Committed(w: Wager, txs: seq<Tx>): nat {
    if txs == [] then 0
    else
      var last := txs[|txs| - 1];
      Committed(w, txs[..|txs| - 1]) + (if IsRequest(w, last.program) && Succeeded(last) then 1 else 0)
  }

  /** The user is known, the rounds are open, and the user's bets still in play are all on them. */
  ghost predicate TableOk(db: Db, w: Wager) {
    w.user in db.users && (forall r | r in w.rounds :: r in db.rounds && db.rounds[r].status == Open) &&
    forall b | b in db.bets && db.bets[b].user == w.user && db.bets[b].status == Active :: db.bets[b].round in w.rounds
  }

  ghost predicate RequestFits(s: System, w: Wager, p: Program)
    requires p.PlaceBet?
  {
    p.stake == w.stake && p.round in w.rounds && Placeable(s, p)
  }

  /** How each request stands: its key is free until it succeeds, and refused means the wallet is too low. */
  ghost predicate Standing(db: Db, w: Wager, t: Tx)
    requires t.program.PlaceBet?
  {
    match t.stage
    case Done(Answered(_)) => true
    case Done(a) => a == Refused(InsufficientFunds) && WalletOf(db, w.user) < w.stake
    case ReadBack => false
    case _ => !KeyTaken(db, w.user, t.program.key)
  }

  ghost predicate TxFits(s: System, w: Wager, t: Tx) {
    if IsRequest(w, t.program) then RequestFits(s, w, t.program) && Standing(s.db, w, t) else Harmless(w, t.program)
  }

  predicate KeysApart(w: Wager, txs: seq<Tx>) {
    forall i, j | 0 <= i < j < |txs| && IsRequest(w, txs[i].program) && IsRequest(w, txs[j].program) ::
      txs[i].program.key != txs[j].program.key
  }

  ghost predicate Ongoing(s: System, w: Wager, funds: int) {
    Safe(s) && TableOk(s.db, w) && w.stake > 0 && KeysApart(w, s.txs) &&
    (forall i | 0 <= i < |s.txs| :: TxFits(s, w, s.txs[i])) &&
    WalletOf(s.db, w.user) + w.stake * Committed(w, s.txs) == funds
  }

  /** Whatever leaves the wallet and the rounds alone, and more requests under new keys; no request is aborted. */
  ghost predicate Allowed(s: System, w: Wager, e: Event)
    requires Possible(s, e)
  {
    match e
    case Begin(p) =>
      if IsRequest(w, p) then
        RequestFits(s, w, p) && !KeyTaken(s.db, w.user, p.key) &&
        forall i | 0 <= i < |s.txs| && IsRequest(w, s.txs[i].program) :: s.txs[i].program.key != p.key
      else Harmless(w, p)
    case Abort(i) => !IsRequest(w, s.txs[i].program)
    case _ => true
  }

  ghost predicate AllowedRun(s: System, w: Wager, events: seq<Event>)
    requires IsRun(s, events)
    decreases |events|
  {
    events == [] || (Allowed(s, w, events[0]) && AllowedRun(Step(s, events[0]), w, events[1..]))
  }

  // ---------------------------------------------------------------------------
  // Counting
  // ---------------------------------------------------------------------------

  lemma {:induction false} CountAfter(w: Wager, txs: seq<Tx>, i: nat, t: Tx)
    requires i < |txs| && t.program == txs[i].program && !(IsRequest(w, t.program) && Succeeded(txs[i]))
    ensures Committed(w, txs[i := t]) ==
            Committed(w, txs) + (if IsRequest(w, t.program) && Succeeded(t) then 1 else 0)
    ensures Requests(w, txs[i := t]) == Requests(w, txs)
  {
    var last := |txs| - 1;
    if i < last {
      CountAfter(w, txs[..last], i, t);
      assert txs[i := t][..last] == txs[..last][i := t];
    } else {
      assert txs[i := t][..last] == txs[..last];
    }
  }

  lemma CountBegun(w: Wager, txs: seq<Tx>, t: Tx)
    requires t.stage.Start?
    ensures Committed(w, txs + [t]) == Committed(w, txs)
  {
    assert (txs + [t])[..|txs|] == txs;
  }

  lemma {:induction false} CommittedAtMost(w: Wager, txs: seq<Tx>)
    ensures Committed(w, txs) <= Requests(w, txs)
    ensures (forall t | t in txs && IsRequest(w, t.program) :: Succeeded(t)) ==> Committed(w, txs) == Requests(w, txs)
  {
    if txs != [] {
      CommittedAtMost(w, txs[..|txs| - 1]);
      assert txs[|txs| - 1] in txs;
    }
  }

  // ---------------------------------------------------------------------------
  // What a commit leaves as it was
  // ---------------------------------------------------------------------------

  /** The wallet moved by `delta`, no key taken but `taken`, the rounds and their terms as they were. */
  ghost predicate Keeps(db: Db, after: Db, w: Wager, delta: int, taken: set<nat>) {
    WalletOf(after, w.user) == WalletOf(db, w.user) + delta && TableOk(after, w) &&
    (forall r | r in w.rounds && r in db.rounds :: r in after.rounds && after.rounds[r] == db.rounds[r]) &&
    forall key: nat | KeyTaken(after, w.user, key) :: key in taken || KeyTaken(db, w.user, key)
  }

  lemma KeptPlaceable(s: System, after: System, w: Wager, p: Program)
    requires p.PlaceBet? && RequestFits(s, w, p) && p.user == w.user && after.limits == s.limits
    requires TableOk(after.db, w)
    requires forall r | r in w.rounds && r in s.db.rounds :: r in after.db.rounds && after.db.rounds[r] == s.db.rounds[r]
    ensures RequestFits(after, w, p)
  {
    hide PriceSelection;
  }

  lemma WalletMoves(db: Db, w: Writes, user: nat)
    requires Wallet(user) in db.balances
    ensures WalletOf(Apply(db, w), user) == WalletOf(db, user) + EntrySum(w.journal, Wallet(user))
  {
    hide EntrySum;
  }

  /** A settlement of somebody else's bet does not touch this wallet. */
  lemma ForeignSettlement(id: nat, b: Bet, user: nat)
    requires b.user != user
    ensures EntrySum(SettlementOf(id, b), Wallet(user)) == 0
  {
    if b.status != Active {
      EntrySumOne(SettlementOf(id, b)[0], Wallet(user));
      var ps := SettlementOf(id, b)[0].postings;
      NobodysPostings(ps, Wallet(user));
    }
  }

  lemma {:induction false} NobodysPostings(ps: seq<Posting>, a: Account)
    requires forall i | 0 <= i < |ps| :: ps[i].account != a
    ensures Net(ps, a) == 0
  {
    if ps != [] { NobodysPostings(ps[1..], a); }
  }

  lemma {:induction false} ForeignBatch(rows: map<nat, Bet>, ids: seq<nat>, user: nat)
    requires forall b | b in ids :: b in rows && rows[b].user != user
    ensures EntrySum(BatchJournal(rows, ids), Wallet(user)) == 0
  {
    if ids != [] {
      var n := |ids| - 1;
      ForeignBatch(rows, ids[..n], user);
      ForeignSettlement(ids[n], rows[ids[n]], user);
      EntrySumAppend(BatchJournal(rows, ids[..n]), SettlementOf(ids[n], rows[ids[n]]), Wallet(user));
    }
  }

  /** Rows that keep users, rounds and keys take no key and put no new bet in play. */
  lemma ReplacedRowsKeep(db: Db, after: Db, w: Wager)
    requires TableOk(db, w) && w.user in after.users && after.bets.Keys == db.bets.Keys
    requires forall b | b in db.bets ::
               SamePlacement(db.bets[b], after.bets[b]) &&
               (after.bets[b].status == Active ==> after.bets[b] == db.bets[b])
    requires forall r | r in w.rounds :: r in after.rounds && after.rounds[r] == db.rounds[r]
    requires WalletOf(after, w.user) == WalletOf(db, w.user)
    ensures Keeps(db, after, w, 0, {})
  {
    forall key: nat | KeyTaken(after, w.user, key) ensures KeyTaken(db, w.user, key) {
      var b: nat :| HasKey(after, w.user, key, b);
      assert HasKey(db, w.user, key, b);
    }
  }

  lemma WalletKnown(db: Db, w: Wager)
    requires Consistent(db) && TableOk(db, w)
    ensures Wallet(w.user) in db.balances && w.user in db.users && forall r | r in w.rounds :: r in db.rounds
  {
    NoWalletForStrangers(db, w.user);
    hide Consistent;
  }

  lemma GrantKeeps(db: Db, w: Wager, u: nat, amount: nat)
    requires Consistent(db) && TableOk(db, w) && Legal(db, Operation.Grant(u, amount))
    ensures Keeps(db, Effect(db, Operation.Grant(u, amount)), w, 0, {})
  {
    hide Consistent, EntrySum, Net, WalletOf, Apply, TableOk, KeyTaken;
    WalletKnown(db, w);
    WalletMoves(db, RegisterWrites(u, amount), w.user);
    EntrySumOne(GrantTx(u, amount), Wallet(w.user));
    NobodysPostings(GrantTx(u, amount).postings, Wallet(w.user));
    hide GrantTx, EntrySum;
    GrantLeavesRows(db, u, amount);
    ReplacedRowsKeep(db, Effect(db, Operation.Grant(u, amount)), w);
  }

  lemma GrantLeavesRows(db: Db, u: nat, amount: nat)
    ensures var after := Apply(db, RegisterWrites(u, amount));
            after.bets == db.bets && after.rounds == db.rounds && db.users.Keys <= after.users.Keys
  {
    hide EntrySum, GrantTx;
  }

  /** Someone else's placement. */
  lemma ForeignPlaceKeeps(db: Db, w: Wager, id: nat, row: Bet)
    requires Consistent(db) && TableOk(db, w) && Legal(db, Place(id, row)) && row.user != w.user
    ensures Keeps(db, Effect(db, Place(id, row)), w, 0, {})
  {
    hide Consistent, EntrySum, Net, MayPlace, TableOk, WalletOf, Apply, KeyTaken;
    WalletKnown(db, w);
    WalletMoves(db, PlaceWrites(id, row), w.user);
    EntrySumOne(PlacedTx(id, row), Wallet(w.user));
    NobodysPostings(PlacedTx(id, row).postings, Wallet(w.user));
    PlacedTable(db, w, id, row);
    forall key: nat | KeyTaken(Apply(db, PlaceWrites(id, row)), w.user, key) ensures KeyTaken(db, w.user, key) {
      PlacedKey(db, w, id, row, key);
    }
  }

  /** Someone else's cash-out. */
  lemma ForeignPayKeeps(db: Db, w: Wager, id: nat, at: int)
    requires Consistent(db) && TableOk(db, w) && Legal(db, Pay(id, at)) && db.bets[id].user != w.user
    ensures Keeps(db, Effect(db, Pay(id, at)), w, 0, {})
  {
    hide Consistent, MayCashOut, PaidRow, BatchJournal, EntrySum, TableOk, Keeps, BatchWrites;
    WalletKnown(db, w);
    PaidRowShape(db, id, at);
    var row := PaidRow(db, id, at);
    ForeignBatch(map[id := row], [id], w.user);
    OneRowKeeps(db, w, id, row);
  }

  lemma PaidRowShape(db: Db, id: nat, at: int)
    requires MayCashOut(db, id, at)
    ensures id in db.bets && db.bets[id].round in db.rounds
    ensures var row := PaidRow(db, id, at);
            SamePlacement(db.bets[id], row) && row.status == Won && row.user == db.bets[id].user
  {
    hide PriceAt, Scale;
  }

  lemma OneRowKeeps(db: Db, w: Wager, id: nat, row: Bet)
    requires TableOk(db, w) && Wallet(w.user) in db.balances && id in db.bets
    requires SamePlacement(db.bets[id], row) && row.status == Won
    requires EntrySum(BatchJournal(map[id := row], [id]), Wallet(w.user)) == 0
    ensures Keeps(db, Apply(db, BatchWrites(map[id := row], [id], map[])), w, 0, {})
  {
    hide EntrySum, BatchJournal, Keeps;
    WalletMoves(db, BatchWrites(map[id := row], [id], map[]), w.user);
    ReplacedRowsKeep(db, Apply(db, BatchWrites(map[id := row], [id], map[])), w);
  }

  /** The closing of another round: none of its bets in play is this user's. */
  lemma ForeignCloseKeeps(db: Db, w: Wager, op: Operation)
    requires Consistent(db) && TableOk(db, w) && op.Close? && Legal(db, op) && op.round !in w.rounds
    ensures Keeps(db, Effect(db, op), w, 0, {})
  {
    hide Consistent, MayConclude, Decide, BatchJournal, EntrySum, Concluded, Distinct, BetsFit, RoundsFit;
    WalletKnown(db, w);
    ConsistentBets(db);
    CloseIsLater(db, op.voiding, op.round, op.ids, op.at);
    var rows := DecidedRows(op.voiding, db, op.round, op.ids);
    forall b | b in op.ids ensures b in rows && rows[b].user != w.user {
      OnlyRouletteWins(op.voiding, db.bets[b], db.rounds[op.round]);
      DecisionKeepsUser(op.voiding, db.bets[b], db.rounds[op.round]);
    }
    ForeignBatch(rows, op.ids, w.user);
    WalletMoves(db, ConcludeWrites(op.voiding, db, op.round, op.ids, op.at), w.user);
    ReplacedRowsKeep(db, Effect(db, op), w);
  }

  lemma DecisionKeepsUser(voiding: bool, b: Bet, r: Round)
    requires Decide(voiding, b, r).Ok?
    ensures Decide(voiding, b, r).value.user == b.user
  {
  }

  /** The opening of a round, or a transition of another one. */
  lemma RoundWriteKeeps(db: Db, w: Wager, r: nat, row: Round)
    requires Consistent(db) && TableOk(db, w) && r !in w.rounds
    ensures Keeps(db, Apply(db, RoundWrites(r, row)), w, 0, {})
  {
    hide Consistent, TableOk, WalletOf, KeyTaken;
    WalletKnown(db, w);
    WalletMoves(db, RoundWrites(r, row), w.user);
    ReplacedRowsKeep(db, Apply(db, RoundWrites(r, row)), w);
  }

  lemma HarmlessKeeps(db: Db, now: int, w: Wager, p: Program, op: Operation)
    requires Consistent(db) && TableOk(db, w) && Harmless(w, p) && Legal(db, op) && Serves(db, now, p, op)
    ensures Keeps(db, Effect(db, op), w, 0, {})
  {
    hide Consistent, TableOk, Keeps, MayPlace, MayCashOut, RoundChecks, Advanced, Decidable, ActiveBetsOf, MayConclude,
         Apply, BatchWrites, DecidedRows;
    match op
    case Grant(u, amount) => GrantKeeps(db, w, u, amount);
    case Place(id, row) => ForeignPlaceKeeps(db, w, id, row);
    case Pay(id, at) => ForeignPayKeeps(db, w, id, at);
    case Close(_, _, _, _) => ForeignCloseKeeps(db, w, op);
    case Move(r, at) => RoundWriteKeeps(db, w, r, Advanced(db.rounds[r], at));
    case Create(r, row) =>
      assert r !in w.rounds by { NewRoundIsOther(db, w, r); }
      RoundWriteKeeps(db, w, r, row);
  }

  lemma NewRoundIsOther(db: Db, w: Wager, r: nat)
    requires TableOk(db, w) && r !in db.rounds
    ensures r !in w.rounds
  {
  }

  /** Placing one of the bets costs the wallet its stake and takes only its own key. */
  lemma RequestKeeps(db: Db, w: Wager, p: Program, id: nat, row: Bet)
    requires Consistent(db) && TableOk(db, w) && IsRequest(w, p) && p.stake == w.stake && p.round in w.rounds
    requires HasPlacement(row, p) && MayPlace(db, id, row)
    ensures Keeps(db, Apply(db, PlaceWrites(id, row)), w, Negate(w.stake), {p.key})
  {
    hide Consistent, EntrySum, Net, MayPlace, TableOk, WalletOf, Apply, KeyTaken;
    WalletKnown(db, w);
    WalletMoves(db, PlaceWrites(id, row), w.user);
    EntrySumOne(PlacedTx(id, row), Wallet(w.user));
    PlacedNet(id, row, Wallet(w.user));
    PlacedTable(db, w, id, row);
    forall key: nat | KeyTaken(Apply(db, PlaceWrites(id, row)), w.user, key)
      ensures key == p.key || KeyTaken(db, w.user, key)
    {
      PlacedKey(db, w, id, row, key);
    }
  }

  lemma PlacedTable(db: Db, w: Wager, id: nat, row: Bet)
    requires TableOk(db, w) && (row.user == w.user ==> row.round in w.rounds)
    ensures TableOk(Apply(db, PlaceWrites(id, row)), w) && Apply(db, PlaceWrites(id, row)).rounds == db.rounds
  {
    hide EntrySum, PlacedTx;
  }

  lemma PlacedKey(db: Db, w: Wager, id: nat, row: Bet, key: nat)
    requires KeyTaken(Apply(db, PlaceWrites(id, row)), w.user, key)
    ensures (row.user == w.user && key == row.key) || KeyTaken(db, w.user, key)
  {
    hide EntrySum, PlacedTx;
    var b: nat :| HasKey(Apply(db, PlaceWrites(id, row)), w.user, key, b);
    assert b == id || HasKey(db, w.user, key, b);
  }

  // ---------------------------------------------------------------------------
  // One step
  // ---------------------------------------------------------------------------

  /** The others stand as they did over tables that keep what matters. */
  lemma OthersStand(s: System, after: System, w: Wager, i: nat, delta: int, taken: set<nat>)
    requires (forall j | 0 <= j < |s.txs| :: TxFits(s, w, s.txs[j])) && KeysApart(w, s.txs) && i < |s.txs|
    requires Keeps(s.db, after.db, w, delta, taken) && delta <= 0 && after.limits == s.limits
    requires taken == {} || (IsRequest(w, s.txs[i].program) && taken == {s.txs[i].program.key})
    ensures forall j | 0 <= j < |s.txs| && j != i :: TxFits(after, w, s.txs[j])
  {
    hide KeyTaken, Placeable, WalletOf, TableOk;
    forall j | 0 <= j < |s.txs| && j != i ensures TxFits(after, w, s.txs[j]) {
      if IsRequest(w, s.txs[j].program) {
        KeptPlaceable(s, after, w, s.txs[j].program);
        if IsRequest(w, s.txs[i].program) {
          assert s.txs[j].program.key != s.txs[i].program.key;
        }
      }
    }
  }

  lemma NothingChanged(db: Db, w: Wager)
    requires TableOk(db, w)
    ensures Keeps(db, db, w, 0, {})
  {
    hide KeyTaken;
  }

  lemma KeysStayApart(w: Wager, txs: seq<Tx>, i: nat, t: Tx)
    requires KeysApart(w, txs) && i < |txs| && t.program == txs[i].program
    ensures KeysApart(w, txs[i := t])
  {
  }

  /** A statement of transaction i done: the pieces of the invariant, put together. */
  lemma Reassembled(s: System, after: System, w: Wager, funds: int, i: nat, t: Tx, delta: int, taken: set<nat>)
    requires Ongoing(s, w, funds) && i < |s.txs| && Safe(after) && after.txs == s.txs[i := t]
    requires t.program == s.txs[i].program && TxFits(after, w, t) && after.limits == s.limits
    requires !(IsRequest(w, t.program) && Succeeded(s.txs[i]))
    requires Keeps(s.db, after.db, w, delta, taken)
    requires taken == {} || (IsRequest(w, t.program) && taken == {t.program.key})
    requires delta == if IsRequest(w, t.program) && Succeeded(t) then Negate(w.stake) else 0
    ensures Ongoing(after, w, funds)
  {
    hide Safe, TxFits, WalletOf, Committed, KeysApart, KeyTaken, TableOk, Succeeded;
    OthersStand(s, after, w, i, delta, taken);
    CountAfter(w, s.txs, i, t);
    KeysStayApart(w, s.txs, i, t);
    Distribute(w.stake, Committed(w, s.txs));
    FundsKept(s, after, w, delta, taken, i, t);
  }

  lemma FundsKept(s: System, after: System, w: Wager, delta: int, taken: set<nat>, i: nat, t: Tx)
    requires i < |s.txs| && after.txs == s.txs[i := t] && Keeps(s.db, after.db, w, delta, taken)
    requires t.program == s.txs[i].program && !(IsRequest(w, t.program) && Succeeded(s.txs[i]))
    requires delta == if IsRequest(w, t.program) && Succeeded(t) then Negate(w.stake) else 0
    ensures TableOk(after.db, w)
    ensures WalletOf(after.db, w.user) + w.stake * Committed(w, after.txs) ==
            WalletOf(s.db, w.user) + w.stake * Committed(w, s.txs)
  {
    hide Committed, KeyTaken, TableOk, Succeeded, WalletOf;
    CountAfter(w, s.txs, i, t);
    Distribute(w.stake, Committed(w, s.txs));
  }

  lemma Distribute(a: int, n: int)
    ensures a * (n + 1) == a * n + a
  {
  }

  lemma OneRuns(s: System, w: Wager, funds: int, i: nat, order: seq<nat>)
    requires Ongoing(s, w, funds) && Possible(s, Run(i, order))
    ensures Ongoing(Step(s, Run(i, order)), w, funds)
  {
    var t := s.txs[i];
    hide Safe, ActiveBetsOf, Waiting, MoveOf, Ongoing;
    RunKeepsSafe(s, i, order);
    if MoveOf(s, i, order).Commit? {
      OneCommits(s, w, funds, i, order);
    } else {
      OneGoesOn(s, w, funds, i, order);
    }
  }

  lemma RequestIsPending(s: System, w: Wager, funds: int, i: nat)
    requires Ongoing(s, w, funds) && i < |s.txs| && !s.txs[i].stage.Done? && IsRequest(w, s.txs[i].program)
    ensures Pending(s, s.txs[i]) && RequestFits(s, w, s.txs[i].program)
  {
    hide CommittedOk, TxOk, Compatible, Placeable, PlaceOk, Common, KeyTaken, TableOk;
    TxIsCommon(s, s.txs[i]);
  }

  lemma SameMove(s: System, i: nat, order: seq<nat>)
    requires i < |s.txs| && s.txs[i].program.PlaceBet?
    ensures MoveOf(s, i, order) == ActPlaceBet(s.db, s.limits, s.nextBet, LockGranted(s, s.txs[i]))
  {
    hide ActPlaceBet, Wants;
  }

  lemma OneGoesOn(s: System, w: Wager, funds: int, i: nat, order: seq<nat>)
    requires Ongoing(s, w, funds) && Possible(s, Run(i, order)) && !MoveOf(s, i, order).Commit?
    requires Safe(Step(s, Run(i, order)))
    ensures Ongoing(Step(s, Run(i, order)), w, funds)
  {
    var t, m, after := s.txs[i], MoveOf(s, i, order), Step(s, Run(i, order));
    hide Safe, ActiveBetsOf, Waiting, Placeable, KeyTaken, WalletOf, Keeps, TableOk, Pending, Expected;
    NothingChanged(s.db, w);
    ProgramKept(s, i, order);
    if IsRequest(w, t.program) {
      RequestIsPending(s, w, funds, i);
      PendingMoves(s, t);
      SameMove(s, i, order);
      hide MoveOf;
      RequestStands(s, after, w, t, m);
    }
    hide MoveOf;
    Reassembled(s, after, w, funds, i, if m.Go? then m.next else Blank(t.program, Done(m.answer)), 0, {});
  }

  lemma RequestStands(s: System, after: System, w: Wager, t: Tx, m: Move)
    requires IsRequest(w, t.program) && RequestFits(s, w, t.program) && Standing(s.db, w, t) && !t.stage.Done?
    requires t.program.PlaceBet? && Expected(s, t.program, StatementsLeft(t), m) && !m.Commit?
    requires after.db == s.db && after.limits == s.limits
    ensures TxFits(after, w, if m.Go? then m.next else Blank(t.program, Done(m.answer)))
    ensures !Succeeded(if m.Go? then m.next else Blank(t.program, Done(m.answer)))
  {
    hide PriceSelection, KeyTaken;
  }

  /** A statement leaves the program of its transaction as it is. */
  lemma ProgramKept(s: System, i: nat, order: seq<nat>)
    requires Safe(s) && Possible(s, Run(i, order))
    ensures var m := MoveOf(s, i, order); m.Go? ==> m.next.program == s.txs[i].program
  {
    hide Safe, MoveOf, ActiveBetsOf, Waiting;
    RunnableFits(s, i, order);
    hide TxOk, StageOk, CommitOk;
  }

  lemma OneCommits(s: System, w: Wager, funds: int, i: nat, order: seq<nat>)
    requires Ongoing(s, w, funds) && Possible(s, Run(i, order)) && MoveOf(s, i, order).Commit?
    requires Safe(Step(s, Run(i, order)))
    ensures Ongoing(Step(s, Run(i, order)), w, funds)
  {
    hide Ongoing, Safe, ActiveBetsOf, Waiting, MoveOf;
    if IsRequest(w, s.txs[i].program) {
      RequestCommits(s, w, funds, i, order);
    } else {
      OtherCommits(s, w, funds, i, order);
    }
  }

  lemma Unfold(s: System, w: Wager, funds: int, i: nat)
    requires Ongoing(s, w, funds) && i < |s.txs|
    ensures Consistent(s.db) && TableOk(s.db, w) && TxFits(s, w, s.txs[i]) && Safe(s)
  {
    hide Safe, TableOk, TxFits;
    SafeIsConsistent(s);
  }

  lemma OtherCommits(s: System, w: Wager, funds: int, i: nat, order: seq<nat>)
    requires Ongoing(s, w, funds) && Possible(s, Run(i, order)) && MoveOf(s, i, order).Commit?
    requires Safe(Step(s, Run(i, order))) && !IsRequest(w, s.txs[i].program)
    ensures Ongoing(Step(s, Run(i, order)), w, funds)
  {
    hide Safe, Ongoing, ActiveBetsOf, Waiting, Keeps, TableOk, Overwrite, Legal, Effect, Serves, MoveOf, Consistent,
         Standing, RequestFits, IsRequest, Harmless;
    var t := s.txs[i];
    Unfold(s, w, funds, i);
    var op := CommittingStep(s, i, order);
    HarmlessKeeps(s.db, s.now, w, t.program, op);
    Reassembled(s, Step(s, Run(i, order)), w, funds, i, Blank(t.program, Done(MoveOf(s, i, order).result)), 0, {});
  }

  lemma RequestCommits(s: System, w: Wager, funds: int, i: nat, order: seq<nat>)
    requires Ongoing(s, w, funds) && Possible(s, Run(i, order)) && MoveOf(s, i, order).Commit?
    requires Safe(Step(s, Run(i, order))) && IsRequest(w, s.txs[i].program)
    ensures Ongoing(Step(s, Run(i, order)), w, funds)
  {
    hide Safe, Ongoing, ActiveBetsOf, Waiting, Keeps, TableOk, Overwrite, MoveOf, Consistent, Standing, Placeable,
         Apply, Pending, MayPlace, HasPlacement, ActPlaceBet, LockGranted, PlaceWrites;
    var t, m := s.txs[i], MoveOf(s, i, order);
    var finished := Blank(t.program, Done(m.result));
    Unfold(s, w, funds, i);
    RequestIsPending(s, w, funds, i);
    PendingMoves(s, t);
    SameMove(s, i, order);
    CommittedIsDone(s, i, order);
    RequestKeeps(s.db, w, t.program, m.last.ids[0], m.last.w.bets[m.last.ids[0]]);
    AnsweredFits(s, Step(s, Run(i, order)), w, t, finished, t.program.key);
    Reassembled(s, Step(s, Run(i, order)), w, funds, i, finished, Negate(w.stake), {t.program.key});
  }

  lemma CommittedIsDone(s: System, i: nat, order: seq<nat>)
    requires Safe(s) && Possible(s, Run(i, order)) && MoveOf(s, i, order).Commit?
    ensures Overwrite(s.db, MoveOf(s, i, order).last) == Apply(s.db, MoveOf(s, i, order).last.w)
  {
    RunnableFits(s, i, order);
    hide Safe, Possible, MoveOf, Apply, Overwrite, StageOk, CommitOk;
    CommittedIsApplied(s.db, s.now, NextBetAfter(s, s.txs[i]), s.limits, MoveOf(s, i, order).last);
  }

  lemma AnsweredFits(s: System, after: System, w: Wager, t: Tx, finished: Tx, key: nat)
    requires IsRequest(w, t.program) && RequestFits(s, w, t.program) && after.limits == s.limits
    requires finished.program == t.program && finished.stage.Done? && finished.stage.answer.Answered?
    requires Keeps(s.db, after.db, w, Negate(w.stake), {key})
    ensures TxFits(after, w, finished)
  {
    KeptPlaceable(s, after, w, t.program);
    hide Placeable, KeyTaken;
  }

  lemma BeginKeeps(s: System, w: Wager, funds: int, p: Program)
    requires Ongoing(s, w, funds) && Allowed(s, w, Begin(p))
    ensures Ongoing(Step(s, Begin(p)), w, funds)
  {
    hide Safe, TxFits, TableOk, Committed, KeysApart, WalletOf;
    BeginKeepsSafe(s, p);
    CountBegun(w, s.txs, Blank(p, Start));
    NewcomerFits(s, w, p);
    var after := Step(s, Begin(p));
    forall i | 0 <= i < |after.txs| ensures TxFits(after, w, after.txs[i]) {
      if i < |s.txs| {
        assert TxFits(s, w, s.txs[i]);
        StillFits(s, after, w, s.txs[i]);
      }
    }
  }

  lemma NewcomerFits(s: System, w: Wager, p: Program)
    requires Allowed(s, w, Begin(p)) && KeysApart(w, s.txs)
    ensures TxFits(Step(s, Begin(p)), w, Blank(p, Start)) && KeysApart(w, s.txs + [Blank(p, Start)])
  {
    hide Placeable, KeyTaken;
    StillPlaceable(s, Step(s, Begin(p)), p);
  }

  lemma StillPlaceable(s: System, after: System, p: Program)
    requires after.db == s.db && after.limits == s.limits
    ensures p.PlaceBet? ==> (Placeable(after, p) <==> Placeable(s, p))
  {
  }

  lemma StillFits(s: System, after: System, w: Wager, t: Tx)
    requires TxFits(s, w, t) && after.db == s.db && after.limits == s.limits
    ensures TxFits(after, w, t)
  {
    StillPlaceable(s, after, t.program);
  }

  lemma ElapseKeeps(s: System, w: Wager, funds: int, ms: nat)
    requires Ongoing(s, w, funds)
    ensures Ongoing(Step(s, Elapse(ms)), w, funds)
  {
    ElapseKeepsSafe(s, ms);
    hide Safe, TableOk, TxFits;
    var after := Step(s, Elapse(ms));
    forall i | 0 <= i < |s.txs| ensures TxFits(after, w, s.txs[i]) {
      StillFits(s, after, w, s.txs[i]);
    }
  }

  lemma AbortKeeps(s: System, w: Wager, funds: int, i: nat)
    requires Ongoing(s, w, funds) && i < |s.txs| && !s.txs[i].stage.Done? && !IsRequest(w, s.txs[i].program)
    ensures Ongoing(Step(s, Abort(i)), w, funds)
  {
    AbortKeepsSafe(s, i);
    hide Safe, TableOk, Keeps, Standing, RequestFits;
    NothingChanged(s.db, w);
    Reassembled(s, Step(s, Abort(i)), w, funds, i, Blank(s.txs[i].program, Done(Aborted)), 0, {});
  }

  lemma StepKeeps(s: System, w: Wager, funds: int, e: Event)
    requires Ongoing(s, w, funds) && Possible(s, e) && Allowed(s, w, e)
    ensures Ongoing(Step(s, e), w, funds)
  {
    hide Ongoing, Step;
    match e
    case Begin(p) => BeginKeeps(s, w, funds, p);
    case Run(i, order) => OneRuns(s, w, funds, i, order);
    case Elapse(ms) => ElapseKeeps(s, w, funds, ms);
    case Abort(i) => AbortKeeps(s, w, funds, i);
  }

  lemma {:induction false} RunsStayOngoing(s: System, w: Wager, funds: int, events: seq<Event>)
    requires Ongoing(s, w, funds) && IsRun(s, events) && AllowedRun(s, w, events)
    ensures Ongoing(After(s, events), w, funds)
    decreases |events|
  {
    hide Ongoing, Possible, Step, Allowed;
    if events != [] {
      StepKeeps(s, w, funds, events[0]);
      RunsStayOngoing(Step(s, events[0]), w, funds, events[1..]);
    }
  }

  // ---------------------------------------------------------------------------
  // The result
  // ---------------------------------------------------------------------------

  function Min(a: int, b: int): int {
    if a <= b then a else b
  }

  lemma FloorOf(funds: nat, stake: nat, n: nat, left: int)
    requires stake > 0 && left + stake * n == funds && 0 <= left
    ensures n <= funds / stake
    ensures left < stake ==> n == funds / stake
  {
    assert n * stake == stake * n;
    FloorAtLeast(funds, stake, n);
    var e := funds / stake;
    assert e * stake <= funds;
    if left < stake && n < e {
      assert (n + 1) * stake == stake * n + stake;
      MulOrder(n + 1, e, stake);
    }
  }

  ghost predicate AllFinished(w: Wager, txs: seq<Tx>) {
    forall t | t in txs && IsRequest(w, t.program) :: t.stage.Done?
  }

  lemma FinishedMeans(s: System, w: Wager, funds: int)
    requires Ongoing(s, w, funds) && AllFinished(w, s.txs)
    ensures forall t | t in s.txs && IsRequest(w, t.program) ::
              Succeeded(t) || t.stage == Done(Refused(InsufficientFunds))
    ensures (exists t :: t in s.txs && IsRequest(w, t.program) && !Succeeded(t)) ==> WalletOf(s.db, w.user) < w.stake
  {
    hide Safe, Placeable, KeyTaken, TableOk, WalletOf;
    forall t | t in s.txs && IsRequest(w, t.program)
      ensures Succeeded(t) || (t.stage == Done(Refused(InsufficientFunds)) && WalletOf(s.db, w.user) < w.stake)
    {
      var i :| 0 <= i < |s.txs| && s.txs[i] == t;
      assert TxFits(s, w, s.txs[i]);
    }
  }

  lemma WalletIsNotNegative(s: System, w: Wager)
    requires Safe(s) && TableOk(s.db, w)
    ensures WalletOf(s.db, w.user) >= 0
  {
    hide JournalMatchesRows, BetsFit, RoundsFit, AllBalanced, BalancesMatchJournal, ClockOk, TxOk, Compatible;
  }

  /**
   Requests of one stake on a wallet that nothing else moves, on rounds that
   stay open, begun at any time and beside any other transactions: once all
   have finished, exactly min(requests, funds div stake) have committed, all
   the others were refused for insufficient funds, and the wallet holds the
   rest.
   */
  lemma ExactlyWhatTheWalletCovers(s: System, w: Wager, funds: int, events: seq<Event>)
    requires Ongoing(s, w, funds) && IsRun(s, events) && AllowedRun(s, w, events)
    requires AllFinished(w, After(s, events).txs)
    ensures w.stake > 0
    ensures var end := After(s, events);
            Committed(w, end.txs) == Min(Requests(w, end.txs), funds / w.stake) &&
            (forall t | t in end.txs && IsRequest(w, t.program) ::
               Succeeded(t) || t.stage == Done(Refused(InsufficientFunds))) &&
            WalletOf(end.db, w.user) == funds - w.stake * Min(Requests(w, end.txs), funds / w.stake)
  {
    hide Ongoing, IsRun, After, AllFinished, WalletOf, Committed, Requests, Succeeded;
    RunsStayOngoing(s, w, funds, events);
    StandingAtTheEnd(After(s, events), w, funds);
  }

  lemma StandingAtTheEnd(end: System, w: Wager, funds: int)
    requires Ongoing(end, w, funds) && AllFinished(w, end.txs)
    ensures w.stake > 0 && Committed(w, end.txs) == Min(Requests(w, end.txs), funds / w.stake)
    ensures forall t | t in end.txs && IsRequest(w, t.program) ::
              Succeeded(t) || t.stage == Done(Refused(InsufficientFunds))
    ensures WalletOf(end.db, w.user) == funds - w.stake * Min(Requests(w, end.txs), funds / w.stake)
  {
    hide Safe, TableOk, TxFits, Succeeded, Committed, Requests, WalletOf, AllFinished, KeysApart;
    FinishedMeans(end, w, funds);
    WalletIsNotNegative(end, w);
    CommittedAtMost(w, end.txs);
    var n := Committed(w, end.txs);
    assert w.stake * n >= 0;
    FloorOf(funds, w.stake, n, WalletOf(end.db, w.user));
  }

  /** Requests just begun under unused keys, beside harmless transactions at any stage, are such a start. */
  lemma FreshRequestsAreOngoing(s: System, w: Wager)
    requires Safe(s) && TableOk(s.db, w) && w.stake > 0 && KeysApart(w, s.txs)
    requires forall i | 0 <= i < |s.txs| ::
               if IsRequest(w, s.txs[i].program) then
                 RequestFits(s, w, s.txs[i].program) && s.txs[i].stage.Start? &&
                 !KeyTaken(s.db, w.user, s.txs[i].program.key)
               else Harmless(w, s.txs[i].program)
    ensures Ongoing(s, w, WalletOf(s.db, w.user))
  {
    hide Safe, TableOk, RequestFits, KeyTaken;
    NoneCommitted(w, s.txs);
  }

  lemma {:induction false} NoneCommitted(w: Wager, txs: seq<Tx>)
    requires forall i | 0 <= i < |txs| && IsRequest(w, txs[i].program) :: txs[i].stage.Start?
    ensures Committed(w, txs) == 0
  {
    if txs != [] { NoneCommitted(w, txs[..|txs| - 1]); }
  }
}
