/** What one placement does next, when its round stays open and its key free. */
module Placing {
  import opened Prelude
  import opened Money
  import opened Ledger
  import opened Roulette
  import opened Tables
  import opened Operations
  import opened Interleaving
  import opened InterleavingState
  import opened InterleavingPosting
  import opened InterleavingMoves
  import opened InterleavingPlace

  ghost predicate KeyTaken(db: Db, user: nat, key: nat) {
    exists b: nat :: HasKey(db, user, key, b)
  }

  /** A known user, an open round, a priced selection and a stake within the limits. */
  ghost predicate Placeable(s: System, p: Program)
    requires p.PlaceBet?
  {
    p.user in s.db.users && p.round in s.db.rounds && s.db.rounds[p.round].status == Open &&
    PriceSelection(s.db.rounds[p.round].game, p.selection).Ok? && InLimits(s.limits, p)
  }

  function WalletOf(db: Db, user: nat): int {
    BaseBalance(db, Wallet(user))
  }

  /** A placement under way, under a key that is still free. */
  ghost predicate Pending(s: System, t: Tx) {
    Common(s, t) && t.program.PlaceBet? && PlaceOk(s.db, s.limits, t) && !t.stage.Done? && !t.stage.ReadBack? &&
    Placeable(s, t.program) && !KeyTaken(s.db, t.program.user, t.program.key)
  }

  function StatementsLeft(t: Tx): nat {
    match t.stage
    case Start => 6
    case Checked => 5
    case RoundHeld(_) => 4
    case FundsHeld(_) => 3
    case _ => |t.queue|
  }

  /** It goes on and comes closer, or is refused for funds it lacks, or places the bet asked for. */
  ghost predicate Expected(s: System, p: Program, left: nat, m: Move)
    requires p.PlaceBet?
  {
    match m
    case Go(next) =>
      next.program == p && !next.stage.Done? && !next.stage.ReadBack? && StatementsLeft(next) < left
    case Stop(a) => a == Refused(InsufficientFunds) && WalletOf(s.db, p.user) < p.stake
    case Commit(last, a) =>
      a.Answered? && last.program == p && |last.ids| == 1 && last.ids[0] in last.w.bets &&
      last.w == PlaceWrites(last.ids[0], last.w.bets[last.ids[0]]) && HasPlacement(last.w.bets[last.ids[0]], p) &&
      MayPlace(s.db, last.ids[0], last.w.bets[last.ids[0]])
  }

  lemma FreeKeyIsNotFound(db: Db, user: nat, key: nat)
    requires !KeyTaken(db, user, key)
    ensures FindKey(db, user, key).None?
  {
  }

  lemma PendingReads(s: System, t: Tx)
    requires Pending(s, t) && (t.stage.Start? || t.stage.Checked? || t.stage.RoundHeld?)
    ensures Expected(s, t.program, StatementsLeft(t), ActPlaceBet(s.db, s.limits, s.nextBet, LockGranted(s, t)))
  {
    hide Common, PlaceOk, PriceSelection, KeyTaken;
    FreeKeyIsNotFound(s.db, t.program.user, t.program.key);
    hide FindKey;
  }

  lemma PendingInserts(s: System, t: Tx)
    requires Pending(s, t) && t.stage.FundsHeld?
    ensures Expected(s, t.program, StatementsLeft(t), ActPlaceBet(s.db, s.limits, s.nextBet, LockGranted(s, t)))
  {
    hide Common, KeyTaken, FindKey, PriceSelection, BetChecks, Balanced, MayPlace, HasPlacement, NewBet, Enqueue,
         PlacedTx, OpenFor, Funded;
    var p := t.program;
    var row := NewBet(p.user, p.round, p.stake, p.key, p.selection, t.stage.odds);
    FreeKeyIsNotFound(s.db, p.user, p.key);
    InsertIsAllowed(s, t, row);
    InsertTracks(s, t, row);
    InsertGoes(s, t, row);
  }

  lemma PendingPosts(s: System, t: Tx)
    requires Pending(s, t) && t.stage.Draining? && t.queue != []
    ensures Expected(s, t.program, StatementsLeft(t), ActPlaceBet(s.db, s.limits, s.nextBet, LockGranted(s, t)))
  {
    hide Placeable, PriceSelection, KeyTaken, MayPlace;
    PlaceHeadCovered(s, t);
    hide PlaceDraining;
    CommonCommitted(s, t);
    PostingGranted(s, t);
    SameMoney(s.db, t, LockGranted(s, t));
    hide Common, LockGranted;
    PostOneSucceeds(s.db, LockGranted(s, t));
    hide MoneyTracked, AccountsKnown, RowsLocked;
  }

  lemma PendingCommits(s: System, t: Tx)
    requires Pending(s, t) && t.stage.Draining? && t.queue == []
    ensures Expected(s, t.program, StatementsLeft(t), ActPlaceBet(s.db, s.limits, s.nextBet, LockGranted(s, t)))
  {
    hide Common, Placeable, PriceSelection, KeyTaken, MayPlace;
  }

  lemma PendingMoves(s: System, t: Tx)
    requires Pending(s, t)
    ensures Expected(s, t.program, StatementsLeft(t), ActPlaceBet(s.db, s.limits, s.nextBet, LockGranted(s, t)))
  {
    hide Common, Placeable, PriceSelection, KeyTaken, PlaceDraining, OpenFor, Funded, Expected, ActPlaceBet;
    match t.stage
    case FundsHeld(_) => PendingInserts(s, t);
    case Draining => if t.queue != [] { PendingPosts(s, t); } else { PendingCommits(s, t); }
    case _ => PendingReads(s, t);
  }
}
