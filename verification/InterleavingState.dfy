/** What holds of every transaction in flight, stage by stage. */
module InterleavingState {
  import opened Prelude
  import opened Money
  import opened CrashCurve
  import opened Roulette
  import opened Ledger
  import opened Tables
  import opened Operations
  import opened Interleaving

  predicate Idle(t: Tx) {
    t == Blank(t.program, t.stage)
  }

  // ---------------------------------------------------------------------------
  // Buffers
  // ---------------------------------------------------------------------------

  /** How far the buffered balance is from the committed one. */
  function Buffered(db: Db, t: Tx, a: Account): int {
    if a in t.balances then t.balances[a] - BaseBalance(db, a) else 0
  }

  /** Buffered rows are locked, and new users really are new. */
  ghost predicate RowsLocked(db: Db, t: Tx) {
    (forall b | b in t.w.bets :: BetLock(b) in t.locks) &&
    (forall r | r in t.w.rounds :: RoundLock(r) in t.locks) &&
    (forall u | u in t.w.users :: u !in db.users && Wallet(u) in t.balances) &&
    (forall a | a in t.balances :: BalanceLock(a) in t.locks)
  }

  /** Every account touched has a row, committed or its own, and guarded ones are not negative. */
  ghost predicate AccountsKnown(db: Db, t: Tx) {
    (forall a | a in t.balances ::
       (a in db.balances || (a.Wallet? && a.owner in t.w.users)) && (Guarded(a) ==> t.balances[a] >= 0)) &&
    (forall i | 0 <= i < |t.queue| :: t.queue[i].account in db.balances || t.queue[i].account in t.balances)
  }

  /** No update is lost: what is buffered plus what is queued is what the new entries say. */
  ghost predicate MoneyTracked(db: Db, t: Tx) {
    forall a :: Buffered(db, t, a) + Net(t.queue, a) == EntrySum(t.w.journal, a)
  }

  ghost predicate LocksKnown(db: Db, nextBet: nat, t: Tx) {
    (forall b: nat | BetLock(b) in t.locks :: b < nextBet) &&
    (forall r | RoundLock(r) in t.locks :: r in db.rounds) &&
    (forall r | r in t.shared :: r in db.rounds)
  }

  // ---------------------------------------------------------------------------
  // Placing a bet
  // ---------------------------------------------------------------------------

  predicate InLimits(limits: Limits, p: Program)
    requires p.PlaceBet?
  {
    limits.minStake <= p.stake <= limits.maxStake
  }

  /** The round is open and the selection priced: what the share lock keeps true. */
  predicate OpenFor(db: Db, p: Program, odds: Option<nat>)
    requires p.PlaceBet?
  {
    p.round in db.rounds && db.rounds[p.round].status == Open &&
    PriceSelection(db.rounds[p.round].game, p.selection) == Ok(odds)
  }

  predicate Funded(db: Db, p: Program)
    requires p.PlaceBet?
  {
    p.user in db.users && BaseBalance(db, Wallet(p.user)) >= p.stake
  }

  function PlaceQueue(p: Program): seq<Posting>
    requires p.PlaceBet?
  {
    [Posting(Escrow, p.stake), Posting(Wallet(p.user), Negate(p.stake))]
  }

  ghost predicate PlaceDraining(db: Db, t: Tx)
    requires t.program.PlaceBet?
  {
    var p := t.program;
    |t.ids| == 1 && t.shared == {p.round} &&
    var id := t.ids[0];
    id in t.w.bets && t.w == PlaceWrites(id, t.w.bets[id]) && MayPlace(db, id, t.w.bets[id]) &&
    HasPlacement(t.w.bets[id], p) &&
    (t.queue == PlaceQueue(p) || t.queue == PlaceQueue(p)[1..] || t.queue == []) &&
    t.locks == {BalanceLock(Wallet(p.user)), KeyLock(p.user, p.key), BetLock(id)} +
               (if t.queue == PlaceQueue(p) then {} else {BalanceLock(Escrow)})
  }

  predicate HasPlacement(b: Bet, p: Program)
    requires p.PlaceBet?
  {
    b.user == p.user && b.round == p.round && b.stake == p.stake && b.key == p.key && b.selection == p.selection
  }

  /** A success names the one bet under the key; a refusal is the service's, never the database's. */
  ghost predicate PlaceAnswer(db: Db, p: Program, a: Answer)
    requires p.PlaceBet?
  {
    match a
    case Answered(b) => HasKey(db, p.user, p.key, b)
    case Refused(f) =>
      f.StakeOutOfRange? || f.RoundNotFound? || f.RoundNotOpen? || f.InvalidSelection? || f.InsufficientFunds? ||
      f == LedgerFailure(AccountNotFound(Wallet(p.user)))
    case Aborted => true
    case _ => false
  }

  ghost predicate PlaceOk(db: Db, limits: Limits, t: Tx)
    requires t.program.PlaceBet?
  {
    var p := t.program;
    match t.stage
    case Start => Idle(t)
    case Checked => Idle(t) && InLimits(limits, p)
    case RoundHeld(odds) =>
      t == Blank(p, t.stage).(shared := {p.round}) && InLimits(limits, p) && OpenFor(db, p, odds)
    case FundsHeld(odds) =>
      t == Blank(p, t.stage).(shared := {p.round}, locks := {BalanceLock(Wallet(p.user))}) &&
      InLimits(limits, p) && OpenFor(db, p, odds) && Funded(db, p)
    case Draining => InLimits(limits, p) && PlaceDraining(db, t)
    case ReadBack => Idle(t) && exists b: nat :: HasKey(db, p.user, p.key, b)
    case Done(a) => Idle(t) && PlaceAnswer(db, p, a)
    case _ => false
  }

  // ---------------------------------------------------------------------------
  // Paying out: cash-outs, settlements and voids
  // ---------------------------------------------------------------------------

  /** Escrow comes first in the queue, wallets are only credited, MINT is never touched. */
  predicate PayoutQueue(db: Db, q: seq<Posting>) {
    forall i | 0 <= i < |q| ::
      !q[i].account.Mint? && (q[i].account.Escrow? ==> i == 0) &&
      (q[i].account.Wallet? ==> q[i].amount >= 0 && q[i].account.owner in db.users)
  }

  /** The only wallet credited is this user's. */
  predicate PaysOnly(q: seq<Posting>, owner: nat) {
    forall i | 0 <= i < |q| :: q[i].account.Wallet? ==> q[i].account.owner == owner
  }

  /** ESCROW is the first balance a pay-out locks. */
  ghost predicate EscrowFirst(t: Tx) {
    (forall a | BalanceLock(a) in t.locks :: BalanceLock(Escrow) in t.locks) &&
    (t.queue != [] ==> t.queue[0].account == Escrow || BalanceLock(Escrow) in t.locks)
  }

  ghost predicate HeldBet(db: Db, p: Program)
    requires p.CashOut?
  {
    p.bet in db.bets && db.bets[p.bet].user == p.user && db.bets[p.bet].status == Active &&
    db.bets[p.bet].round in db.rounds
  }

  /** What never changes about a round once it has started. */
  predicate SameRace(r: Round, seen: Round) {
    seen.game == CrashGame && seen.crashPoint.Some? && seen.startedAt.Some? &&
    r.game == seen.game && r.crashPoint == seen.crashPoint && r.startedAt == seen.startedAt
  }

  /** Paying the price of one instant, `at`, when the curve was read. */
  ghost predicate CashDraining(db: Db, t: Tx, at: int)
    requires t.program.CashOut?
  {
    var p := t.program;
    HeldBet(db, p) && t.ids == [p.bet] && t.shared == {} && BetLock(p.bet) in t.locks &&
    (forall l | l in t.locks :: l == BetLock(p.bet) || l.BalanceLock?) &&
    MayCashOut(db, p.bet, at) &&
    t.w == BatchWrites(map[p.bet := PaidRow(db, p.bet, at)], [p.bet], map[]) &&
    PayoutQueue(db, t.queue) && EscrowFirst(t) && PaysOnly(t.queue, p.user)
  }

  /** Some payout of a stake within the limit, at this multiplier, is beyond the safe integers. */
  predicate MayOverflow(limits: Limits, bp: nat) {
    Scale(limits.maxStake, bp) > MAX_SAFE_INTEGER
  }

  ghost predicate CashAnswer(db: Db, limits: Limits, p: Program, a: Answer)
    requires p.CashOut?
  {
    match a
    case Answered(b) => b == p.bet && b in db.bets && db.bets[b].status == Won
    case Refused(f) =>
      f.NoBetOnRound? || f.BetAlreadySettled? || f.GameDoesNotSupportCashOut? || f.RoundNotRunning? ||
      f.CashOutTooLate? || (f == MoneyFailure(Unsafe) && MayOverflow(limits, MaxMultiplierBp()))
    case Aborted => true
    case _ => false
  }

  ghost predicate CashOk(db: Db, now: int, limits: Limits, t: Tx)
    requires t.program.CashOut?
  {
    var p := t.program;
    match t.stage
    case Start => Idle(t)
    case BetHeld => t == Blank(p, t.stage).(locks := {BetLock(p.bet)}) && HeldBet(db, p)
    case Quoted(seen) =>
      t == Blank(p, t.stage).(locks := {BetLock(p.bet)}) && HeldBet(db, p) &&
      SameRace(db.rounds[db.bets[p.bet].round], seen)
    case Paying(at) => at <= now && CashDraining(db, t, at)
    case Done(a) => Idle(t) && CashAnswer(db, limits, p, a)
    case _ => false
  }

  /** The round may be concluded, as the first statement found it. A void does not exclude RESOLVED. */
  predicate MayStart(voiding: bool, r: Round) {
    if voiding then r.status != Voided && r.status != Settled else r.status == Resolved
  }

  /** Active bets of round r. */
  ghost predicate ActiveIn(db: Db, r: nat, b: nat) {
    b in db.bets && db.bets[b].round == r && db.bets[b].status == Active
  }

  function BetLocks(ids: seq<nat>): set<Lock> {
    set b | b in ids :: BetLock(b)
  }

  ghost predicate ConcludeLocking(db: Db, t: Tx, todo: seq<nat>, got: seq<nat>)
    requires t.program.Conclude?
  {
    var r := t.program.round;
    t == Blank(t.program, t.stage).(locks := {RoundLock(r)} + BetLocks(got)) &&
    Distinct(got + todo) && (forall b | b in got :: ActiveIn(db, r, b)) &&
    (forall b | b in todo :: b in db.bets && db.bets[b].round == r) &&
    (forall b | ActiveIn(db, r, b) :: b in got || b in todo)
  }

  ghost predicate ConcludeSettling(db: Db, t: Tx, left: seq<nat>)
    requires t.program.Conclude?
  {
    var r, voiding := t.program.round, t.program.voiding;
    t.shared == {} && RoundLock(r) in t.locks &&
    ActiveBetsOf(db, r, t.ids + left) && Decidable(voiding, db, r, t.ids) &&
    (forall b | b in t.ids + left :: BetLock(b) in t.locks) &&
    (forall l | l in t.locks :: l == RoundLock(r) || l.BalanceLock? || (l.BetLock? && l.bet in t.ids + left)) &&
    t.w == BatchWrites(DecidedRows(voiding, db, r, t.ids), t.ids, map[]) &&
    PayoutQueue(db, t.queue) && EscrowFirst(t) && PaysLast(db, t)
  }

  /** The queue belongs to the bet decided last. */
  ghost predicate PaysLast(db: Db, t: Tx) {
    t.queue != [] ==>
      t.ids != [] && t.ids[|t.ids| - 1] in db.bets && PaysOnly(t.queue, db.bets[t.ids[|t.ids| - 1]].user)
  }

  /** Only a void may be aborted by a check, and only one of a round that has resolved. */
  ghost predicate ConcludeAnswer(db: Db, limits: Limits, p: Program, a: Answer)
    requires p.Conclude?
  {
    match a
    case Answered(_) => false
    case Refused(f) =>
      if p.voiding then f == CheckViolation && p.round in db.rounds && HasResolved(db.rounds[p.round])
      else f == MoneyFailure(Unsafe) && MayOverflow(limits, Odds(Straight))
    case _ => true
  }

  ghost predicate ConcludeOk(db: Db, limits: Limits, t: Tx)
    requires t.program.Conclude?
  {
    var p := t.program;
    match t.stage
    case Start => Idle(t)
    case Snapshot =>
      t == Blank(p, t.stage).(locks := {RoundLock(p.round)}) &&
      p.round in db.rounds && MayStart(p.voiding, db.rounds[p.round])
    case Locking(todo, got) =>
      p.round in db.rounds && MayStart(p.voiding, db.rounds[p.round]) && ConcludeLocking(db, t, todo, got)
    case Settling(left) =>
      p.round in db.rounds && MayStart(p.voiding, db.rounds[p.round]) && ConcludeSettling(db, t, left)
    case Done(a) => Idle(t) && ConcludeAnswer(db, limits, p, a)
    case _ => false
  }

  // ---------------------------------------------------------------------------
  // The rest
  // ---------------------------------------------------------------------------

  /** When the row written by a transition says it happened. */
  function Stamp(r: Round): int {
    if r.status == Running && r.startedAt.Some? then r.startedAt.value
    else if r.status == Resolved && r.resolvedAt.Some? then r.resolvedAt.value
    else 0
  }

  predicate IsAdvance(r: Round, row: Round, now: int) {
    row == Advanced(r, Stamp(row)) && (r.status == Open || Stamp(row) <= now)
  }

  ghost predicate AdvanceDraining(db: Db, now: int, t: Tx)
    requires t.program.Advance?
  {
    var r := t.program.round;
    r in db.rounds && db.rounds[r].status == t.program.from && Live(t.program.from) && r in t.w.rounds &&
    t == Blank(t.program, t.stage).(locks := {RoundLock(r)}, w := RoundWrites(r, t.w.rounds[r])) &&
    RoundChecks(t.w.rounds[r]) && IsAdvance(db.rounds[r], t.w.rounds[r], now)
  }

  ghost predicate AdvanceOk(db: Db, now: int, t: Tx)
    requires t.program.Advance?
  {
    match t.stage
    case Start => Idle(t)
    case Draining => AdvanceDraining(db, now, t)
    case Done(a) => Idle(t) && (a == Committed || a == NoOp || a == Aborted)
    case _ => false
  }

  function GrantQueue(p: Program): seq<Posting>
    requires p.Register?
  {
    [Posting(Mint, Negate(p.grant)), Posting(Wallet(p.user), p.grant)]
  }

  ghost predicate RegisterDraining(db: Db, t: Tx)
    requires t.program.Register?
  {
    var p := t.program;
    p.user !in db.users && p.grant > 0 && t.shared == {} && t.ids == [] &&
    t.w == RegisterWrites(p.user, p.grant) &&
    (t.queue == GrantQueue(p) || t.queue == GrantQueue(p)[1..] || t.queue == []) &&
    t.locks == {BalanceLock(Wallet(p.user))} + (if t.queue == GrantQueue(p) then {} else {BalanceLock(Mint)})
  }

  ghost predicate RegisterOk(db: Db, t: Tx)
    requires t.program.Register?
  {
    match t.stage
    case Start => Idle(t)
    case Draining => RegisterDraining(db, t)
    case Done(a) =>
      Idle(t) && (a == Committed || a == Aborted || a == Refused(EmailTaken) ||
                  (t.program.grant == 0 && a == Refused(LedgerFailure(Unbalanced))))
    case _ => false
  }

  ghost predicate OpenOk(t: Tx)
    requires t.program.OpenRound?
  {
    (t.stage.Start? || t.stage.Done?) && Idle(t)
  }

  // ---------------------------------------------------------------------------
  // The whole system
  // ---------------------------------------------------------------------------

  ghost predicate StageOk(db: Db, now: int, limits: Limits, t: Tx) {
    match t.program
    case Register(_, _) => RegisterOk(db, t)
    case PlaceBet(_, _, _, _, _) => PlaceOk(db, limits, t)
    case CashOut(_, _) => CashOk(db, now, limits, t)
    case Conclude(_, _) => ConcludeOk(db, limits, t)
    case Advance(_, _) => AdvanceOk(db, now, t)
    case OpenRound(_, _, _, _, _, _) => OpenOk(t)
  }

  ghost predicate TxOk(db: Db, now: int, nextBet: nat, limits: Limits, t: Tx) {
    StageOk(db, now, limits, t) && LocksKnown(db, nextBet, t) &&
    RowsLocked(db, t) && AccountsKnown(db, t) && MoneyTracked(db, t)
  }

  /** No two transactions hold conflicting locks. */
  predicate Compatible(t: Tx, u: Tx) {
    t.locks !! u.locks &&
    (forall r | r in t.shared :: RoundLock(r) !in u.locks) &&
    (forall r | r in u.shared :: RoundLock(r) !in t.locks)
  }

  /** A round has started by now if at all, not before it was locked, and resolves only into RESOLVED. */
  predicate TimesFit(r: Round, now: int) {
    (r.startedAt.Some? ==> r.startedAt.value <= now) &&
    (r.status == Open || r.status == Locked ==> r.startedAt.None?) &&
    (Live(r.status) ==> r.resolvedAt.None?) && (r.status == Resolved ==> r.resolvedAt.Some?)
  }

  /** The curve has shown this multiplier by now. */
  ghost predicate ShownBy(m: nat, elapsed: int) {
    exists tick: nat :: tick <= TickAtElapsed(elapsed) && m == MultiplierAtTick(tick)
  }

  /** A cashed-out bet was paid at a multiplier its round has shown by now. */
  ghost predicate PaidInTime(b: Bet, r: Round, now: int) {
    b.status == Won && b.multiplier.Some? && r.game == CrashGame && r.startedAt.Some? ==>
      ShownBy(b.multiplier.value, now - r.startedAt.value)
  }

  ghost predicate ClockOk(db: Db, now: int) {
    (forall r | r in db.rounds :: TimesFit(db.rounds[r], now)) &&
    (forall b | b in db.bets && db.bets[b].round in db.rounds ::
       PaidInTime(db.bets[b], db.rounds[db.bets[b].round], now))
  }

  ghost predicate CommittedOk(s: System) {
    Consistent(s.db) && ClockOk(s.db, s.now) && s.limits.minStake > 0 &&
    forall b | b in s.db.bets :: b < s.nextBet && s.db.bets[b].stake <= s.limits.maxStake
  }

  ghost predicate Safe(s: System) {
    CommittedOk(s) &&
    (forall i | 0 <= i < |s.txs| :: TxOk(s.db, s.now, s.nextBet, s.limits, s.txs[i])) &&
    (forall i, j | 0 <= i < |s.txs| && 0 <= j < |s.txs| && i != j :: Compatible(s.txs[i], s.txs[j]))
  }

  // ---------------------------------------------------------------------------
  // What others may change under a transaction
  // ---------------------------------------------------------------------------

  predicate HasResolved(r: Round) {
    r.status == Resolved || r.status == Settled
  }

  predicate SameTerms(r: Round, q: Round) {
    r.game == q.game && r.crashPoint == q.crashPoint && r.pocket == q.pocket &&
    (r.startedAt.Some? ==> q.startedAt == r.startedAt) && (HasResolved(r) ==> HasResolved(q))
  }

  ghost predicate BetsSteady(db: Db, after: Db, t: Tx) {
    (forall b | b in db.bets ::
       b in after.bets && SamePlacement(db.bets[b], after.bets[b]) &&
       (db.bets[b].status != Active ==> after.bets[b] == db.bets[b])) &&
    (forall b | BetLock(b) in t.locks :: b in after.bets <==> b in db.bets) &&
    (forall b | BetLock(b) in t.locks && b in db.bets :: after.bets[b] == db.bets[b]) &&
    (forall b | b in after.bets && b !in db.bets ::
       RoundLock(after.bets[b].round) !in t.locks && KeyLock(after.bets[b].user, after.bets[b].key) !in t.locks)
  }

  ghost predicate RoundsSteady(db: Db, after: Db, t: Tx) {
    (forall r | r in db.rounds :: r in after.rounds && SameTerms(db.rounds[r], after.rounds[r])) &&
    (forall r | r in db.rounds && (RoundLock(r) in t.locks || r in t.shared) :: after.rounds[r] == db.rounds[r])
  }

  ghost predicate AccountsSteady(db: Db, after: Db, t: Tx) {
    (forall u | u in db.users :: u in after.users) &&
    (forall u | BalanceLock(Wallet(u)) in t.locks :: u in after.users <==> u in db.users) &&
    (forall a | a in db.balances :: a in after.balances) &&
    (forall a | BalanceLock(a) in t.locks :: a in after.balances <==> a in db.balances) &&
    (forall a | BalanceLock(a) in t.locks && a in db.balances :: after.balances[a] == db.balances[a])
  }

  ghost predicate Steady(db: Db, after: Db, t: Tx) {
    BetsSteady(db, after, t) && RoundsSteady(db, after, t) && AccountsSteady(db, after, t)
  }
}
