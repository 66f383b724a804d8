/**
 Concurrent transactions, statement by statement.

 Each transaction buffers its writes, holds row locks until it ends, and reads
 the latest committed row once it has the lock (READ COMMITTED). A commit
 overwrites the committed rows with the buffered ones, whatever they now hold.
 Any number of transactions of any kind may be in flight, in any interleaving.
 */
module Interleaving {
  import opened Prelude
  import opened Money
  import opened CrashCurve
  import opened Roulette
  import opened Ledger
  import opened Tables
  import opened Operations

  datatype Program =
    | Register(user: nat, grant: nat)
    | PlaceBet(user: nat, round: nat, stake: nat, key: nat, selection: Option<Selection>)
    | CashOut(user: nat, bet: nat)
    | Conclude(voiding: bool, round: nat)
    | Advance(round: nat, from: RoundStatus)
    | OpenRound(round: nat, nonce: int, game: Game, crashPoint: Option<nat>, pocket: Option<nat>, locksAt: int)

  datatype Lock = BetLock(bet: nat) | RoundLock(round: nat) | BalanceLock(account: Account) | KeyLock(user: nat, key: nat)

  datatype Answer = Committed | Answered(bet: nat) | NoOp | Refused(why: Failure) | Aborted

  datatype Stage =
    | Start
    | Checked
    | RoundHeld(odds: Option<nat>)
    | FundsHeld(odds: Option<nat>)
    | BetHeld
    | Quoted(seen: Round)
    | Paying(at: int)
    | Snapshot
    | Locking(todo: seq<nat>, got: seq<nat>)
    | Settling(left: seq<nat>)
    | Draining
    | ReadBack
    | Done(answer: Answer)

  /**
   `shared` and `locks` are the locks held; `w` and `balances` the buffered
   writes; `queue` the postings not applied yet; `ids` the bets written.
   */
  datatype Tx = Tx(
    program: Program,
    stage: Stage,
    shared: set<nat>,
    locks: set<Lock>,
    w: Writes,
    balances: Balances,
    queue: seq<Posting>,
    ids: seq<nat>)

  function Blank(p: Program, stage: Stage): Tx {
    Tx(p, stage, {}, {}, NO_WRITES, map[], [], [])
  }

  datatype Limits = Limits(minStake: nat, maxStake: nat)

  /** `nextBet` is above every bet id in use; `now` is the database clock. */
  datatype System = System(db: Db, txs: seq<Tx>, now: int, nextBet: nat, limits: Limits)

  /** What one statement does to its transaction. */
  datatype Move = Go(next: Tx) | Commit(last: Tx, result: Answer) | Stop(answer: Answer)

  function Refuse(f: Failure): Move {
    Stop(Refused(f))
  }

  // ---------------------------------------------------------------------------
  // Locks
  // ---------------------------------------------------------------------------

  datatype Need = Nothing | Shared(round: nat) | Exclusive(lock: Lock)

  /** The lock the next statement waits for. */
  function Wants(db: Db, t: Tx): Need {
    if t.queue != [] then Exclusive(BalanceLock(t.queue[0].account))
    else
      match (t.program, t.stage)
      case (Register(u, _), Start) => Exclusive(BalanceLock(Wallet(u)))
      case (PlaceBet(_, r, _, _, _), Checked) => if r in db.rounds then Shared(r) else Nothing
      case (PlaceBet(u, _, _, _, _), RoundHeld(_)) =>
        if u in db.users then Exclusive(BalanceLock(Wallet(u))) else Nothing
      case (PlaceBet(u, _, _, k, _), FundsHeld(_)) => Exclusive(KeyLock(u, k))
      case (CashOut(u, b), Start) => if b in db.bets && db.bets[b].user == u then Exclusive(BetLock(b)) else Nothing
      case (Conclude(_, r), Start) => if r in db.rounds then Exclusive(RoundLock(r)) else Nothing
      case (Conclude(_, _), Locking(todo, _)) => if todo != [] then Exclusive(BetLock(todo[0])) else Nothing
      case (Advance(r, from), Start) =>
        if r in db.rounds && db.rounds[r].status == from then Exclusive(RoundLock(r)) else Nothing
      case _ => Nothing
  }

  /** Whether another transaction's locks refuse the need. */
  predicate Conflicts(need: Need, other: Tx) {
    match need
    case Nothing => false
    case Shared(r) => RoundLock(r) in other.locks
    case Exclusive(lock) => lock in other.locks || (lock.RoundLock? && lock.round in other.shared)
  }

  function WithLock(t: Tx, need: Need): Tx {
    match need
    case Nothing => t
    case Shared(r) => t.(shared := t.shared + {r})
    case Exclusive(lock) => t.(locks := t.locks + {lock})
  }

  // ---------------------------------------------------------------------------
  // Statements
  // ---------------------------------------------------------------------------

  /** Insert the journal rows of one transaction and start on its balances, in account order. */
  function Enqueue(t: Tx, tx: Transaction): Move {
    if !Balanced(tx.postings) then Refuse(LedgerFailure(Unbalanced))
    else Go(t.(w := t.w.(journal := t.w.journal + [tx]), queue := Sorted(tx.postings)))
  }

  /** UPDATE one balance row, under the non-negative trigger. */
  function PostOne(db: Db, t: Tx): Move
    requires t.queue != []
  {
    var p := t.queue[0];
    if p.account !in t.balances && p.account !in db.balances then Refuse(LedgerFailure(AccountNotFound(p.account)))
    else
      var v := (if p.account in t.balances then t.balances[p.account] else db.balances[p.account]) + p.amount;
      if Guarded(p.account) && v < 0 then Refuse(LedgerFailure(Overdrawn(p.account)))
      else Go(t.(balances := t.balances[p.account := v], queue := t.queue[1..]))
  }

  ghost predicate HasKey(db: Db, user: nat, key: nat, b: nat) {
    b in db.bets && db.bets[b].user == user && db.bets[b].key == key
  }

  ghost function FindKey(db: Db, user: nat, key: nat): Option<nat> {
    if b: nat :| HasKey(db, user, key, b) then Some(b) else None
  }

  ghost function ActPlaceBet(db: Db, limits: Limits, nextBet: nat, t: Tx): Move
    requires t.program.PlaceBet?
  {
    var p := t.program;
    match t.stage
    case Start =>
      if p.stake < limits.minStake || p.stake > limits.maxStake then Refuse(StakeOutOfRange)
      else
        var found := FindKey(db, p.user, p.key);
        if found.Some? then Stop(Answered(found.value)) else Go(t.(stage := Checked))
    case Checked =>
      if p.round !in db.rounds then Refuse(RoundNotFound)
      else if db.rounds[p.round].status != Open then Refuse(RoundNotOpen(db.rounds[p.round].status))
      else
        var priced := PriceSelection(db.rounds[p.round].game, p.selection);
        if priced.Err? then Refuse(priced.error) else Go(t.(stage := RoundHeld(priced.value)))
    case RoundHeld(odds) =>
      if p.user !in db.users then Refuse(LedgerFailure(AccountNotFound(Wallet(p.user))))
      else if BaseBalance(db, Wallet(p.user)) < p.stake then Refuse(InsufficientFunds)
      else Go(t.(stage := FundsHeld(odds)))
    case FundsHeld(odds) =>
      var row := NewBet(p.user, p.round, p.stake, p.key, p.selection, odds);
      if FindKey(db, p.user, p.key).Some? then Go(Blank(p, ReadBack))
      else if !BetChecks(row) then Refuse(CheckViolation)
      else
        Enqueue(t.(stage := Draining, ids := [nextBet], locks := t.locks + {BetLock(nextBet)},
                   w := t.w.(bets := t.w.bets[nextBet := row])), PlacedTx(nextBet, row))
    case Draining =>
      if t.queue != [] then PostOne(db, t)
      else Commit(t, if t.ids != [] then Answered(t.ids[0]) else Committed)
    case ReadBack =>
      var found := FindKey(db, p.user, p.key);
      if found.Some? then Stop(Answered(found.value)) else Refuse(UniqueViolation)
    case _ => Stop(NoOp)
  }

  function ActCashOut(db: Db, now: int, t: Tx): Move
    requires t.program.CashOut?
  {
    var b := t.program.bet;
    match t.stage
    case Start =>
      if b !in db.bets || db.bets[b].user != t.program.user then Refuse(NoBetOnRound)
      else if db.bets[b].status == Won then Stop(Answered(b))
      else if db.bets[b].status != Active then Refuse(BetAlreadySettled(db.bets[b].status))
      else Go(t.(stage := BetHeld))
    case BetHeld =>
      // The round row is read without a lock.
      if b !in db.bets || db.bets[b].round !in db.rounds then Refuse(RoundNotFound)
      else
        var r := db.rounds[db.bets[b].round];
        if r.game != CrashGame || r.crashPoint.None? then Refuse(GameDoesNotSupportCashOut)
        else if r.status != Running || r.startedAt.None? then Refuse(RoundNotRunning(r.status))
        else Go(t.(stage := Quoted(r)))
    case Quoted(r) =>
      // The clock is read after the round, and the price follows from both.
      if b !in db.bets || r.startedAt.None? || r.crashPoint.None? then Refuse(NoBetOnRound)
      else
        var bet := db.bets[b];
        var m := PriceAt(r, now);
        if m >= r.crashPoint.value then Refuse(CashOutTooLate(r.crashPoint.value))
        else
          var priced := ApplyBasisPoints(bet.stake, m);
          if priced.Err? then Refuse(MoneyFailure(priced.error))
          else if bet.status != Active then Refuse(BetAlreadySettled(bet.status))
          else
            var row := WonRow(bet, m, priced.value);
            if !BetChecks(row) then Refuse(CheckViolation)
            else
              Enqueue(t.(stage := Paying(now), ids := [b], w := t.w.(bets := t.w.bets[b := row])),
                      Transaction(BetCashout, BetRef(b), PayoutPostings(bet.user, bet.stake, priced.value)))
    case Paying(_) => if t.queue != [] then PostOne(db, t) else Commit(t, Answered(b))
    case _ => Stop(NoOp)
  }

  /** The transaction posted for a decided bet; the update itself may match no row. */
  function DecisionTx(id: nat, row: Bet): Transaction {
    match row.status
    case Won => Transaction(BetCashout, BetRef(id),
                            PayoutPostings(row.user, row.stake, if row.payout.Some? then row.payout.value else 0))
    case Refunded => Transaction(RoundVoidRefund, BetRef(id), RefundPostings(row.user, row.stake))
    case _ => Transaction(BetLost, BetRef(id), LossPostings(row.stake))
  }

  /** UPDATE ... WHERE status = 'ACTIVE', its row count ignored. */
  function UpdateIfActive(db: Db, w: Writes, id: nat, row: Bet): Writes {
    if id in db.bets && id !in w.bets && db.bets[id].status == Active then w.(bets := w.bets[id := row]) else w
  }

  function ActConclude(db: Db, now: int, t: Tx, order: seq<nat>): Move
    requires t.program.Conclude?
  {
    var r, voiding := t.program.round, t.program.voiding;
    match t.stage
    case Start =>
      if r !in db.rounds then Stop(NoOp)
      else
        var status := db.rounds[r].status;
        if (if voiding then status == Voided || status == Settled else status != Resolved) then Stop(NoOp)
        else Go(t.(stage := Snapshot))
    case Snapshot => Go(t.(stage := Locking(order, [])))
    case Locking(todo, got) =>
      if todo == [] then Go(t.(stage := Settling(got)))
      else if todo[0] in db.bets && db.bets[todo[0]].status == Active then
        Go(t.(stage := Locking(todo[1..], got + [todo[0]])))
      else Go(t.(stage := Locking(todo[1..], got), locks := t.locks - {BetLock(todo[0])}))
    case Settling(left) =>
      if t.queue != [] then PostOne(db, t)
      else if r !in db.rounds then Stop(NoOp)
      else if left != [] then
        if left[0] !in db.bets then Stop(NoOp)
        else
          var decided := Decide(voiding, db.bets[left[0]], db.rounds[r]);
          if decided.Err? then Refuse(decided.error)
          else if !BetChecks(decided.value) then Refuse(CheckViolation)
          else
            Enqueue(t.(stage := Settling(left[1..]), ids := t.ids + [left[0]],
                       w := UpdateIfActive(db, t.w, left[0], decided.value)),
                    DecisionTx(left[0], decided.value))
      else
        var row := Concluded(voiding, db.rounds[r], now);
        if !RoundChecks(row) then Refuse(CheckViolation)
        else Commit(t.(w := t.w.(rounds := t.w.rounds[r := row])), Committed)
    case _ => Stop(NoOp)
  }

  function ActAdvance(db: Db, now: int, t: Tx): Move
    requires t.program.Advance?
  {
    var r := t.program.round;
    match t.stage
    case Start =>
      if r !in db.rounds || db.rounds[r].status != t.program.from || !Live(t.program.from) then Stop(NoOp)
      else
        var row := Advanced(db.rounds[r], now);
        if !RoundChecks(row) then Refuse(CheckViolation)
        else Go(t.(stage := Draining, w := t.w.(rounds := t.w.rounds[r := row])))
    case Draining => Commit(t, Committed)
    case _ => Stop(NoOp)
  }

  function ActRegister(db: Db, t: Tx): Move
    requires t.program.Register?
  {
    var u, grant := t.program.user, t.program.grant;
    match t.stage
    case Start =>
      if u in db.users then Refuse(EmailTaken)
      else
        Enqueue(t.(stage := Draining, balances := t.balances[Wallet(u) := 0],
                   w := t.w.(users := t.w.users[u := grant])), GrantTx(u, grant))
    case Draining => if t.queue != [] then PostOne(db, t) else Commit(t, Committed)
    case _ => Stop(NoOp)
  }

  /** A single INSERT: the unique indexes and the checks decide it on the spot. */
  ghost function ActOpenRound(db: Db, t: Tx): Move
    requires t.program.OpenRound?
  {
    var p := t.program;
    var row := NewRound(p.nonce, p.game, p.crashPoint, p.pocket, p.locksAt);
    if !t.stage.Start? then Stop(NoOp)
    else if !RoundChecks(row) then Refuse(CheckViolation)
    else if p.round in db.rounds then Refuse(UniqueViolation)
    else if exists q :: q in db.rounds && db.rounds[q].game == p.game && Live(db.rounds[q].status) then Stop(NoOp)
    else Commit(t.(w := t.w.(rounds := t.w.rounds[p.round := row])), Committed)
  }

  ghost function Act(s: System, t: Tx, order: seq<nat>): Move {
    match t.program
    case Register(_, _) => ActRegister(s.db, t)
    case PlaceBet(_, _, _, _, _) => ActPlaceBet(s.db, s.limits, s.nextBet, t)
    case CashOut(_, _) => ActCashOut(s.db, s.now, t)
    case Conclude(_, _) => ActConclude(s.db, s.now, t, order)
    case Advance(_, _) => ActAdvance(s.db, s.now, t)
    case OpenRound(_, _, _, _, _, _) => ActOpenRound(s.db, t)
  }

  // ---------------------------------------------------------------------------
  // Steps and runs
  // ---------------------------------------------------------------------------

  /** COMMIT: buffered rows overwrite the committed ones. */
  function Overwrite(db: Db, t: Tx): Db {
    Db(db.users + t.w.users, db.balances + t.balances, db.journal + t.w.journal,
       db.bets + t.w.bets, db.rounds + t.w.rounds)
  }

  /**
   `order` is the order in which a settlement's snapshot lists the round's
   active bets. An abort is whatever ends a transaction from outside: a process
   that dies, a lost connection, a deadlock victim.
   */
  datatype Event = Begin(program: Program) | Run(tx: nat, order: seq<nat>) | Elapse(ms: nat) | Abort(victim: nat)

  predicate Waiting(s: System, i: nat, j: nat)
    requires i < |s.txs| && j < |s.txs|
  {
    i != j && !s.txs[i].stage.Done? && Conflicts(Wants(s.db, s.txs[i]), s.txs[j])
  }

  ghost predicate Possible(s: System, e: Event) {
    match e
    case Begin(_) => true
    case Elapse(_) => true
    case Abort(i) => i < |s.txs| && !s.txs[i].stage.Done?
    case Run(i, order) =>
      i < |s.txs| && !s.txs[i].stage.Done? &&
      (forall j | 0 <= j < |s.txs| :: !Waiting(s, i, j)) &&
      (s.txs[i].program.Conclude? && s.txs[i].stage.Snapshot? ==>
         ActiveBetsOf(s.db, s.txs[i].program.round, order))
  }

  ghost function MoveOf(s: System, i: nat, order: seq<nat>): Move
    requires i < |s.txs|
  {
    Act(s, WithLock(s.txs[i], Wants(s.db, s.txs[i])), order)
  }

  ghost function Step(s: System, e: Event): System
    requires Possible(s, e)
  {
    match e
    case Begin(p) => s.(txs := s.txs + [Blank(p, Start)])
    case Elapse(ms) => s.(now := s.now + ms)
    case Abort(i) => s.(txs := s.txs[i := Blank(s.txs[i].program, Done(Aborted))])
    case Run(i, order) =>
      var nextBet := if s.txs[i].program.PlaceBet? && s.txs[i].stage.FundsHeld? then s.nextBet + 1 else s.nextBet;
      match MoveOf(s, i, order)
      case Go(t) => s.(txs := s.txs[i := t], nextBet := nextBet)
      case Stop(answer) => s.(txs := s.txs[i := Blank(s.txs[i].program, Done(answer))], nextBet := nextBet)
      case Commit(t, answer) =>
        s.(txs := s.txs[i := Blank(s.txs[i].program, Done(answer))], db := Overwrite(s.db, t), nextBet := nextBet)
  }

  ghost predicate IsRun(s: System, events: seq<Event>)
    decreases |events|
  {
    events == [] || (Possible(s, events[0]) && IsRun(Step(s, events[0]), events[1..]))
  }

  ghost function After(s: System, events: seq<Event>): System
    requires IsRun(s, events)
    decreases |events|
  {
    if events == [] then s else After(Step(s, events[0]), events[1..])
  }

  /** The state right after the initial migration. */
  function Initial(now: int, limits: Limits): System {
    System(EMPTY_DB, [], now, 0, limits)
  }
}
