/**
 The services over one database: each method is one transaction run alone,
 working on the tables in place and restoring them when it throws.
 */
module Services {
  import opened Prelude
  import opened Money
  import opened CrashCurve
  import opened Roulette
  import opened Ledger
  import opened Tables
  import opened Operations
  import opened Interleaving
  import opened InterleavingState
  import opened InterleavingPosting
  import opened InterleavingMoves
  import opened InterleavingPlace
  import opened InterleavingPayouts
  import opened InterleavingConclude
  import opened Atomicity
  import opened Rows
  import opened Guarantees
  import opened Bookkeeping
  import opened Progress
  import opened Nonces
  import opened Placing

  /** What the fairness provider draws for one nonce. */
  datatype Draw = Draw(crashPoint: nat, pocket: nat)

  class Platform {
    var users: map<nat, nat>
    var balances: Balances
    var journal: Journal
    var bets: map<nat, Bet>
    var rounds: map<nat, Round>
    var nextBet: nat
    var nextRound: nat
    /** The last value the nonce sequence handed out; a sequence is not rolled back. */
    var serial: int
    const config: Config

    function View(): Db
      reads this
    {
      Db(users, balances, journal, bets, rounds)
    }

    ghost predicate Valid()
      reads this
    {
      Consistent(View()) && config.minStake > 0 &&
      (forall b | b in bets :: b < nextBet && bets[b].stake <= config.maxStake) && serial >= 0 && NoncesUnique(rounds) &&
      (forall r | r in rounds :: r < nextRound && Stamped(rounds[r]) && rounds[r].nonce <= serial)
    }

    constructor (config: Config)
      requires config.minStake > 0
      ensures Valid() && View() == EMPTY_DB && this.config == config && nextRound == 0
      ensures NumbersAre(rounds, serial, Nonces.After([]))
    {
      this.config := config;
      users, balances, journal, bets, rounds := map[], EMPTY_DB.balances, [], map[], map[];
      nextBet, nextRound, serial := 0, 0, 0;
      new;
      EmptyIsConsistent();
    }

    /** ROLLBACK. */
    method Restore(saved: Db)
      modifies this`users, this`balances, this`journal, this`bets, this`rounds
      ensures View() == saved
    {
      users, balances, journal, bets, rounds := saved.users, saved.balances, saved.journal, saved.bets, saved.rounds;
    }

    // -------------------------------------------------------------------------
    // The ledger
    // -------------------------------------------------------------------------

    /** Journal rows first, then one balance row after another in account order. */
    method Post(tx: Transaction) returns (r: Result<(), LedgerError>)
      modifies this`balances, this`journal
      ensures r.Ok? <==> Posted(old(balances), tx.postings).Ok?
      ensures r.Ok? ==> balances == Posted(old(balances), tx.postings).value && journal == old(journal) + [tx]
      ensures r.Err? ==> r.error == Posted(old(balances), tx.postings).error
      ensures r == Err(Unbalanced) <==>
              |tx.postings| < 2 || Ledger.Total(tx.postings) != 0 ||
              exists i :: 0 <= i < |tx.postings| && tx.postings[i].amount == 0
      ensures r.Ok? ==>
                balances.Keys == old(balances).Keys &&
                (forall a | a in old(balances) :: balances[a] == old(balances)[a] + Net(tx.postings, a)) &&
                forall p | p in tx.postings ::
                  p.account in balances && (p.account.Escrow? || p.account.Wallet? ==> balances[p.account] >= 0)
    {
      PostedIsNet(balances, tx.postings);
      if !Balanced(tx.postings) {
        return Err(Unbalanced);
      }
      journal := journal + [tx];
      var ordered := Sorted(tx.postings);
      var i := 0;
      while i < |ordered|
        invariant 0 <= i <= |ordered|
        invariant journal == old(journal) + [tx]
        invariant ApplyPostings(old(balances), ordered) == ApplyPostings(balances, ordered[i..])
      {
        var p := ordered[i];
        assert ordered[i..][0] == p && ordered[i..][1..] == ordered[i + 1..];
        if p.account !in balances {
          return Err(AccountNotFound(p.account));
        }
        if Guarded(p.account) && balances[p.account] + p.amount < 0 {
          return Err(Overdrawn(p.account));
        }
        balances := balances[p.account := balances[p.account] + p.amount];
        i := i + 1;
      }
      r := Ok(());
    }

    // -------------------------------------------------------------------------
    // Accounts and bets
    // -------------------------------------------------------------------------

    /** A new user starts with exactly the grant, minted; an existing one is left alone. */
    method Register(user: nat, grant: nat) returns (r: Result<(), Failure>)
      requires Valid()
      modifies this`users, this`balances, this`journal, this`bets, this`rounds
      ensures Valid() && bets == old(bets) && rounds == old(rounds)
      ensures r.Ok? <==> user !in old(users) && grant > 0
      ensures r.Ok? ==> Does(old(View()), View(), Grant(user, grant)) && balances[Wallet(user)] == grant
      ensures r.Ok? ==> GrantInRows(old(View()), View(), user, grant)
      ensures r.Err? ==> View() == old(View())
      ensures r.Err? ==> r.error == if user in old(users) then EmailTaken else LedgerFailure(Unbalanced)
    {
      hide Consistent, Does, Posted, GrantTx, GrantInRows;
      if user in users {
        return Err(EmailTaken);
      }
      Registers(View(), user, grant);
      var saved := View();
      users := users[user := grant];
      balances := balances[Wallet(user) := 0];
      var posted := Post(GrantTx(user, grant));
      if posted.Err? {
        Restore(saved);
        return Err(LedgerFailure(posted.error));
      }
      GrantIff(saved, View(), user, grant);
      r := Ok(());
    }

    /** The bet under an idempotency key, if there is one. */
    method FindByIdempotencyKey(user: nat, key: nat) returns (found: Option<nat>)
      ensures found.Some? ==> HasKey(View(), user, key, found.value)
      ensures found.None? ==> forall b: nat :: !HasKey(View(), user, key, b)
    {
      var todo := bets.Keys;
      found := None;
      while todo != {}
        invariant todo <= bets.Keys
        invariant forall b: nat | HasKey(View(), user, key, b) :: b in todo
        decreases |todo|
      {
        var b :| b in todo;
        if bets[b].user == user && bets[b].key == key {
          return Some(b);
        }
        todo := todo - {b};
      }
    }

    /**
     A replay answers with the stored bet. A new request succeeds exactly when
     stake, round, selection, user and wallet allow it, and then places one bet
     and debits its stake; refused, it changes nothing.
     */
    method PlaceBet(user: nat, round: nat, stake: nat, key: nat, selection: Option<Selection>)
      returns (r: Result<nat, Failure>)
      requires Valid()
      modifies this`balances, this`journal, this`bets, this`nextBet
      ensures Valid()
      ensures r.Err? ==> View() == old(View())
      ensures r.Ok? && View() == old(View()) ==> HasKey(old(View()), user, key, r.value)
      ensures r.Ok? && View() != old(View()) ==>
                r.value == old(nextBet) && r.value in bets &&
                Does(old(View()), View(), Place(r.value, bets[r.value])) && HasKey(View(), user, key, r.value) &&
                PlaceInRows(old(View()), View(), r.value, bets[r.value]) &&
                bets[r.value] == Bet(user, round, stake, key, selection, bets[r.value].odds, Active, None, None)
      ensures r == Err(StakeOutOfRange) <==> stake < config.minStake || stake > config.maxStake
      ensures var first := config.minStake <= stake <= config.maxStake && !KeyTaken(old(View()), user, key);
              (r.Ok? <==>
                 config.minStake <= stake <= config.maxStake &&
                 (KeyTaken(old(View()), user, key) ||
                  (TakesBet(old(View()), round, selection) && user in old(users) &&
                   BaseBalance(old(View()), Wallet(user)) >= stake))) &&
              (r == Err(RoundNotFound) <==> first && round !in old(rounds)) &&
              (forall status :: r == Err(RoundNotOpen(status)) <==>
                 first && round in old(rounds) && old(rounds)[round].status == status != Open) &&
              (r == Err(InvalidSelection) <==>
                 first && round in old(rounds) && old(rounds)[round].status == Open &&
                 !TakesBet(old(View()), round, selection)) &&
              (r == Err(LedgerFailure(AccountNotFound(Wallet(user)))) <==>
                 first && TakesBet(old(View()), round, selection) && user !in old(users)) &&
              (r == Err(InsufficientFunds) <==>
                 first && TakesBet(old(View()), round, selection) && user in old(users) &&
                 BaseBalance(old(View()), Wallet(user)) < stake)
    {
      hide Consistent, Does, Posted, PlacedTx, PriceSelection, MayPlace, NewBet, PlaceInRows, TakesBet;
      ghost var before := View();
      if stake < config.minStake || stake > config.maxStake {
        return Err(StakeOutOfRange);
      }
      var replay := FindByIdempotencyKey(user, key);
      if replay.Some? {
        return Ok(replay.value);
      }
      OnlyOpenRoundsTakeBets(View(), round, selection);
      if round !in rounds {
        return Err(RoundNotFound);
      }
      if rounds[round].status != Open {
        return Err(RoundNotOpen(rounds[round].status));
      }
      var priced := PriceSelection(rounds[round].game, selection);
      PricingDecides(View(), round, selection);
      if priced.Err? {
        return Err(priced.error);
      }
      if user !in users {
        return Err(LedgerFailure(AccountNotFound(Wallet(user))));
      }
      var balance := if Wallet(user) in balances then balances[Wallet(user)] else 0;
      if balance < stake {
        return Err(InsufficientFunds);
      }
      var id := nextBet;
      var row := NewBet(user, round, stake, key, selection, priced.value);
      RequestMayBePlaced(View(), id, user, round, stake, key, selection, priced.value);
      Places(View(), id, row);
      bets := bets[id := row];
      nextBet := nextBet + 1;
      var posted := Post(PlacedTx(id, row));
      PlaceIff(before, View(), id, row);
      NewBetRow(user, round, stake, key, selection, priced.value);
      r := Ok(id);
    }

    /** Pays an active bet at the curve, below the crash point; a bet already won is answered again. */
    method CashOut(user: nat, bet: nat, now: int) returns (r: Result<nat, Failure>)
      requires Valid()
      modifies this`balances, this`journal, this`bets
      ensures Valid()
      ensures r.Err? ==> View() == old(View())
      ensures r.Ok? ==> r.value == bet && bet in old(bets) && old(bets)[bet].user == user
      ensures r.Ok? && old(bets)[bet].status == Won ==> View() == old(View())
      ensures r.Ok? && old(bets)[bet].status != Won ==>
                Does(old(View()), View(), Pay(bet, now)) && PayInRows(old(View()), View(), bet, now) &&
                InFlight(old(View()), user, bet)
      ensures r == Err(NoBetOnRound) <==> !(bet in old(bets) && old(bets)[bet].user == user)
      ensures bet in old(bets) && old(bets)[bet].user == user ==>
                var was := old(bets)[bet];
                (was.status == Won ==> r.Ok?) &&
                (forall status :: r == Err(BetAlreadySettled(status)) <==>
                   was.status == status && (status == Lost || status == Refunded)) &&
                (r == Err(GameDoesNotSupportCashOut) <==>
                   was.status == Active && old(rounds)[was.round].game != CrashGame) &&
                (forall status :: r == Err(RoundNotRunning(status)) <==>
                   was.status == Active && old(rounds)[was.round].game == CrashGame &&
                   old(rounds)[was.round].status == status != Running)
      ensures InFlight(old(View()), user, bet) ==>
                var stake, shown, crash :=
                  old(bets)[bet].stake, PriceShown(old(View()), user, bet, now), Crash(old(View()), user, bet);
                (r.Ok? <==> shown < crash && stake * shown / 10_000 <= 9_007_199_254_740_991) &&
                (r.Ok? ==> bets[bet] == old(bets)[bet].(status := Won, multiplier := Some(shown),
                                                        payout := Some(stake * shown / 10_000))) &&
                (r == Err(CashOutTooLate(crash)) <==> shown >= crash) &&
                (r == Err(MoneyFailure(Unsafe)) <==> shown < crash && stake * shown / 10_000 > 9_007_199_254_740_991)
    {
      ghost var before := View();
      hide Consistent, Does, Posted, DecisionTx, PriceAt, Shown, PayInRows;
      if bet !in bets || bets[bet].user != user {
        return Err(NoBetOnRound);
      }
      var b := bets[bet];
      if b.status == Won {
        return Ok(bet);
      }
      if b.status != Active {
        return Err(BetAlreadySettled(b.status));
      }
      CommittedBetFits(View(), bet);
      var round := rounds[b.round];
      if round.game != CrashGame || round.crashPoint.None? {
        return Err(GameDoesNotSupportCashOut);
      }
      if round.status != Running || round.startedAt.None? {
        return Err(RoundNotRunning(round.status));
      }
      var multiplier := PriceAt(round, now);
      ShownIsPriced(round, now);
      if multiplier >= round.crashPoint.value {
        return Err(CashOutTooLate(round.crashPoint.value));
      }
      var payout := ApplyBasisPoints(b.stake, multiplier);
      if payout.Err? {
        return Err(MoneyFailure(payout.error));
      }
      Pays(View(), bet, now);
      var row := WonRow(b, multiplier, payout.value);
      var posted := WriteDecided(bet, row);
      PayIff(before, View(), bet, now);
      r := Ok(bet);
    }

    // -------------------------------------------------------------------------
    // Settling
    // -------------------------------------------------------------------------

    /** UPDATE one bet if it is active, then post its settlement whether or not a row matched. */
    method WriteDecided(id: nat, row: Bet) returns (r: Result<(), LedgerError>)
      modifies this`bets, this`balances, this`journal
      ensures bets == if id in old(bets) && old(bets)[id].status == Active then old(bets)[id := row] else old(bets)
      ensures r.Ok? <==> Posted(old(balances), DecisionTx(id, row).postings).Ok?
      ensures r.Ok? ==> balances == Posted(old(balances), DecisionTx(id, row).postings).value &&
                        journal == old(journal) + [DecisionTx(id, row)]
    {
      if id in bets && bets[id].status == Active {
        bets := bets[id := row];
      }
      r := Post(DecisionTx(id, row));
    }

    /** SELECT ... WHERE round_id = r AND status = 'ACTIVE'. */
    method ActiveBets(r: nat) returns (ids: seq<nat>)
      ensures ActiveBetsOf(View(), r, ids)
    {
      var todo := bets.Keys;
      ids := [];
      while todo != {}
        invariant todo <= bets.Keys && Distinct(ids)
        invariant forall b | b in ids :: b !in todo
        invariant forall b ::
          b in ids || (b in todo && bets[b].round == r && bets[b].status == Active) <==>
          b in bets && bets[b].round == r && bets[b].status == Active
        decreases |todo|
      {
        var b :| b in todo;
        todo := todo - {b};
        if bets[b].round == r && bets[b].status == Active {
          ids := ids + [b];
        }
      }
    }

    /** Decides the given active bets one after another; fails only on a payout beyond the safe integers. */
    method DecideAll(voiding: bool, r: nat, ids: seq<nat>) returns (done: Result<(), Failure>)
      requires Valid() && r in rounds && ActiveBetsOf(View(), r, ids)
      modifies this`bets, this`balances, this`journal
      ensures done.Ok? <==> Decidable(voiding, old(View()), r, ids)
      ensures done.Ok? ==> DecidedSoFar(voiding, old(View()), r, ids, View())
      ensures done.Err? ==> done.error == MoneyFailure(Unsafe)
    {
      hide Consistent, DecidedSoFar, Posted, DecisionTx, Decide, ActiveBetsOf, Decidable, BatchWrites, DecidedRows,
           Apply;
      ghost var before := View();
      var i := 0;
      StartsDecided(voiding, before, r);
      while i < |ids|
        invariant 0 <= i <= |ids|
        invariant DecidedSoFar(voiding, before, r, ids[..i], View())
      {
        var id := ids[i];
        assert ids[..i + 1] == ids[..i] + [id] && id in ids;
        StillActive(voiding, before, r, ids, i, View());
        var decided := Decide(voiding, bets[id], rounds[r]);
        if decided.Err? {
          return Err(decided.error);
        }
        DecidesNext(voiding, before, r, ids[..i], id, View());
        var written := WriteDecided(id, decided.value);
        i := i + 1;
      }
      assert ids[..i] == ids;
      EndsDecided(voiding, before, r, ids, View());
      done := Ok(());
    }

    /**
     Settles a resolved round and everything in it, exactly when every winning
     bet can be paid in safe integers; otherwise it fails and changes nothing.
     It never fails when the stake limit is safe at thirty-six-fold.
     */
    method SettleRound(r: nat, at: int) returns (done: Result<bool, Failure>)
      requires Valid()
      modifies this`users, this`balances, this`journal, this`bets, this`rounds
      ensures Valid() && SamePeeks(old(rounds), rounds)
      ensures done.Ok? && !Happened(done) <==> !(r in old(rounds) && old(rounds)[r].status == Resolved)
      ensures Happened(done) <==>
              r in old(rounds) && old(rounds)[r].status == Resolved && AllAffordable(old(View()), r)
      ensures done.Err? ==> 36 * config.maxStake > MAX_SAFE_INTEGER
      ensures !Happened(done) ==> View() == old(View())
      ensures Happened(done) ==>
                exists ids :: Does(old(View()), View(), Close(false, r, ids, at)) &&
                              CloseInRows(old(View()), View(), false, r, ids, at)
      ensures done.Err? ==> done.error == MoneyFailure(Unsafe)
    {
      if r !in rounds || rounds[r].status != Resolved {
        return Ok(false);
      }
      hide Consistent, Does, AllAffordable, CloseInRows;
      LimitMakesAffordable(View(), r, config.maxStake);
      done := Conclude(false, r, at);
    }

    /** Refunds everything in a round that has not resolved; a RESOLVED one is refused by its CHECK. */
    method VoidRound(r: nat, at: int) returns (done: Result<bool, Failure>)
      requires Valid()
      modifies this`users, this`balances, this`journal, this`bets, this`rounds
      ensures Valid() && SamePeeks(old(rounds), rounds)
      ensures done.Ok? && !Happened(done) <==>
              !(r in old(rounds) && old(rounds)[r].status != Voided && old(rounds)[r].status != Settled)
      ensures Happened(done) <==> r in old(rounds) && Live(old(rounds)[r].status)
      ensures !Happened(done) ==> View() == old(View())
      ensures Happened(done) ==>
                exists ids :: Does(old(View()), View(), Close(true, r, ids, at)) &&
                              CloseInRows(old(View()), View(), true, r, ids, at)
      ensures done.Err? ==> done.error == CheckViolation
    {
      hide Consistent, Does, CloseInRows;
      if r !in rounds || rounds[r].status == Voided || rounds[r].status == Settled {
        return Ok(false);
      }
      done := Conclude(true, r, at);
    }

    /** What settling and voiding share: lock the active bets, decide each, write the round. */
    method Conclude(voiding: bool, r: nat, at: int) returns (done: Result<bool, Failure>)
      requires Valid() && r in rounds && MayStart(voiding, rounds[r])
      modifies this`users, this`balances, this`journal, this`bets, this`rounds
      ensures Valid() && SamePeeks(old(rounds), rounds)
      ensures Happened(done) || done.Err?
      ensures Happened(done) ==>
                MayConclude(voiding, old(rounds)[r]) &&
                exists ids :: Does(old(View()), View(), Close(voiding, r, ids, at)) &&
                              CloseInRows(old(View()), View(), voiding, r, ids, at)
      ensures done.Err? ==> View() == old(View())
      ensures done.Err? && voiding ==> done.error == CheckViolation && !MayConclude(true, old(rounds)[r])
      ensures done.Err? && !voiding ==> done.error == MoneyFailure(Unsafe)
      ensures !voiding ==> (Happened(done) <==> AllAffordable(old(View()), r))
    {
      hide Consistent, DecidedSoFar, Does, RoundChecks, Concluded, MayConclude, MayStart, Stamped, Decidable,
           ActiveBetsOf, AllAffordable, CloseInRows;
      var saved := View();
      ghost var before := View();
      RoundIsChecked(before, r);
      ConcludeMayFail(voiding, before.rounds[r], at);
      var ids := ActiveBets(r);
      DecidableIffAffordable(before, r, ids);
      var decided := DecideAll(voiding, r, ids);
      if decided.Err? {
        VoidsAreDecidable(before, r, ids);
        Restore(saved);
        return Err(decided.error);
      }
      var row := Concluded(voiding, rounds[r], at);
      if !RoundChecks(row) {
        Restore(saved);
        return Err(CheckViolation);
      }
      ClosesRound(voiding, before, r, ids, at, View());
      SameNonces(rounds, r, row);
      rounds := rounds[r := row];
      CloseIff(before, View(), voiding, r, ids, at);
      done := Ok(true);
    }

    // -------------------------------------------------------------------------
    // The round engine
    // -------------------------------------------------------------------------

    /** UPDATE rounds ... WHERE status = from: one step, or nothing when another call was first. */
    method Transition(r: nat, from: RoundStatus, at: int) returns (changed: Result<bool, Failure>)
      requires Valid() && Live(from)
      modifies this`rounds
      ensures Valid() && SamePeeks(old(rounds), rounds)
      ensures changed.Ok? && !Happened(changed) <==> !(r in old(rounds) && old(rounds)[r].status == from)
      ensures changed.Err? <==>
              r in old(rounds) && old(rounds)[r].status == from && from == Running && ClockWentBack(old(rounds)[r], at)
      ensures Happened(changed) ==>
                Does(old(View()), View(), Move(r, at)) && MoveInRows(old(View()), View(), r, at) &&
                Follows(from, rounds[r].status)
      ensures !Happened(changed) ==> View() == old(View())
    {
      hide Consistent, Does, RoundChecks, Stamped, Advanced, MoveInRows;
      if r !in rounds || rounds[r].status != from {
        return Ok(false);
      }
      ghost var before := View();
      RoundIsChecked(before, r);
      AdvancedIsChecked(rounds[r], at);
      var row := Advanced(rounds[r], at);
      if !RoundChecks(row) {
        return Err(CheckViolation);
      }
      MovesRound(before, r, at);
      SameNonces(rounds, r, row);
      rounds := rounds[r := row];
      MoveIff(before, View(), r, at);
      changed := Ok(true);
    }

    /** A matching round with the highest nonce. */
    method Newest(game: Game, concluded: bool) returns (found: Option<nat>)
      ensures found.Some? ==> IsNewest(rounds, game, concluded, found.value)
      ensures found.None? ==> forall q | q in rounds :: !Matches(rounds[q], game, concluded)
    {
      var todo := rounds.Keys;
      found := None;
      while todo != {}
        invariant todo <= rounds.Keys
        invariant found.Some? ==> found.value in rounds && Matches(rounds[found.value], game, concluded)
        invariant forall q | q in rounds && q !in todo && Matches(rounds[q], game, concluded) ::
          found.Some? && rounds[q].nonce <= rounds[found.value].nonce
        decreases |todo|
      {
        var q :| q in todo;
        todo := todo - {q};
        if rounds[q].game == game && (IsConcluded(rounds[q]) <==> concluded) &&
           (found.None? || rounds[q].nonce > rounds[found.value].nonce)
        {
          found := Some(q);
        }
      }
    }

    /** COALESCE(MAX(nonce), 0) + 1. */
    method PeekNextNonce() returns (next: int)
      ensures Peeked(rounds, next)
    {
      var todo := rounds.Keys;
      var top: Option<int> := None;
      while todo != {}
        invariant todo <= rounds.Keys
        invariant top.None? <==> todo == rounds.Keys
        invariant top.Some? ==> exists q :: q in rounds && rounds[q].nonce == top.value
        invariant top.Some? ==> forall q | q in rounds && q !in todo :: rounds[q].nonce <= top.value
        decreases |todo|
      {
        var q :| q in todo;
        todo := todo - {q};
        if top.None? || rounds[q].nonce > top.value {
          top := Some(rounds[q].nonce);
        }
      }
      next := (if top.Some? then top.value else 0) + 1;
    }

    /**
     The INSERT of a drawn round. It uses up the next nonce of the sequence in
     any case; a failed check is thrown, a live round of the game is not.
     */
    method InsertRound(game: Game, drawn: Draw, locksAt: int) returns (r: Result<Option<nat>, Failure>)
      requires Valid()
      modifies this`rounds, this`nextRound, this`serial
      ensures Valid() && serial == old(serial) + 1
      ensures var row := DrawnRound(serial, game, drawn, locksAt);
              if !DrawFits(game, drawn) then r.Err? && View() == old(View())
              else if HasLive(old(rounds), game) then r.Ok? && r.value.None? && View() == old(View())
              else
                r.Ok? && r.value == Some(old(nextRound)) && rounds == old(rounds)[old(nextRound) := row] &&
                Does(old(View()), View(), Create(old(nextRound), row)) &&
                CreateInRows(old(View()), View(), old(nextRound), row)
      ensures r.Err? ==> r.error == CheckViolation
      ensures forall n | NumbersAre(old(rounds), old(serial), n) ::
                NumbersAre(rounds, serial, Nonces.Inserted(n, Opened(r)))
    {
      hide Consistent, Does, RoundChecks, Peeked, NewRound, DrawnFor, Stamped, NoncesUnique, HasLive, DrawFits,
           CreateInRows, DrawnRound;
      ghost var before := View();
      serial := serial + 1;
      var row := NewRound(serial, game, if game == CrashGame then Some(drawn.crashPoint) else None,
                          if game == RouletteGame then Some(drawn.pocket) else None, locksAt);
      NewRoundShape(serial, game, drawn, locksAt);
      DrawPasses(serial, game, drawn, locksAt);
      if !RoundChecks(row) {
        return Err(CheckViolation);
      }
      LiveOrNot(rounds, game);
      if q :| q in rounds && rounds[q].game == game && Live(rounds[q].status) {
        return Ok(None);
      }
      var id := nextRound;
      CreatesRound(View(), id, row);
      NextPeek(rounds, id, row);
      rounds := rounds[id := row];
      nextRound := nextRound + 1;
      CreateIff(before, View(), id, row);
      r := Ok(Some(id));
    }

    /**
     Once the intermission is over an insert is attempted, which uses up the
     next nonce of the sequence. The outcome is drawn for the nonce peeked at.
     The round opens exactly when the drawn row passes its checks and no round
     of the game is live; a failed check is thrown, a live round is not.
     */
    method OpenRoundIfDue(game: Game, draw: int -> Draw, now: int, localNow: int)
      returns (r: Result<Option<nat>, Failure>)
      requires Valid()
      modifies this`rounds, this`nextRound, this`serial
      ensures Valid()
      ensures !IntermissionOver(old(rounds), game, now, config) ==>
                r.Ok? && r.value.None? && View() == old(View()) && serial == old(serial) && nextRound == old(nextRound)
      ensures IntermissionOver(old(rounds), game, now, config) ==>
                serial == old(serial) + 1 &&
                forall peeked | Peeked(old(rounds), peeked) ::
                  var row := DrawnRound(serial, game, draw(peeked), localNow + config.windowMs);
                  if !DrawFits(game, draw(peeked)) then r.Err? && View() == old(View())
                  else if HasLive(old(rounds), game) then r.Ok? && r.value.None? && View() == old(View())
                  else
                    r.Ok? && r.value == Some(old(nextRound)) && rounds == old(rounds)[old(nextRound) := row] &&
                    Does(old(View()), View(), Create(old(nextRound), row)) &&
                    CreateInRows(old(View()), View(), old(nextRound), row)
      ensures r.Err? ==> r.error == CheckViolation
      ensures forall n | NumbersAre(old(rounds), old(serial), n) ::
                NumbersAre(rounds, serial,
                           if IntermissionOver(old(rounds), game, now, config) then Nonces.Inserted(n, Opened(r)) else n)
    {
      hide Consistent, Does, RoundChecks, Peeked, DrawFits, DrawnFor, Stamped, NoncesUnique, IntermissionOver,
           IsNewest, HasLive, CreateInRows;
      var last := Newest(game, true);
      NewestDecidesIntermission(rounds, game, now, config, last);
      if last.Some? && rounds[last.value].settledAt.Some? &&
         now - rounds[last.value].settledAt.value < config.intermissionMs
      {
        return Ok(None);
      }
      var peeked := PeekNextNonce();
      PeekIsUnique(rounds, peeked);
      r := InsertRound(game, draw(peeked), localNow + config.windowMs);
    }

    /**
     One tick of a game. The newest unconcluded round makes its due transition;
     that fails exactly when it is a settlement with a payout beyond the safe
     integers, which a safe stake limit excludes. With no such round, one opens
     exactly when the intermission is over and the drawn row passes its checks.
     */
    method TickGame(game: Game, draw: int -> Draw, now: int, at: int, localNow: int)
      returns (live: Option<nat>, created: Option<nat>, failed: bool)
      requires Valid() && now <= at
      modifies this`users, this`balances, this`journal, this`bets, this`rounds, this`nextRound, this`serial
      ensures Valid()
      ensures live.None? <==> forall q :: !Unconcluded(old(rounds), game, q)
      ensures live.Some? ==> Foremost(old(rounds), game, live.value) && created.None? && serial == old(serial)
      ensures live.Some? ==>
                (failed <==> old(rounds)[live.value].status == Resolved && !AllAffordable(old(View()), live.value)) &&
                (failed ==> View() == old(View()) && 36 * config.maxStake > MAX_SAFE_INTEGER) &&
                (!failed ==> TickInRows(old(View()), View(), live.value, now, at, config))
      ensures live.None? && !IntermissionOver(old(rounds), game, now, config) ==>
                !failed && created.None? && View() == old(View())
      ensures live.None? && IntermissionOver(old(rounds), game, now, config) ==>
                forall peeked | Peeked(old(rounds), peeked) ::
                  var row := DrawnRound(old(serial) + 1, game, draw(peeked), localNow + config.windowMs);
                  (failed <==> !DrawFits(game, draw(peeked))) && (created.Some? <==> DrawFits(game, draw(peeked))) &&
                  rounds == if DrawFits(game, draw(peeked)) then old(rounds)[old(nextRound) := row] else old(rounds)
      ensures !failed ==> TickStep(game, old(rounds), rounds, Tick(now, at), config)
      ensures View() == old(View()) || exists op :: Does(old(View()), View(), op)
      ensures forall n | NumbersAre(old(rounds), old(serial), n) ::
                NumbersAre(rounds, serial,
                           if live.None? && IntermissionOver(old(rounds), game, now, config)
                           then Nonces.Inserted(n, created.Some?) else n)
    {
      hide Consistent, Does, RoundChecks, Stamped, ElapsedAt, AllAffordable, IntermissionOver, DrawFits, Ticked,
           Peeked, DrawnRound, NoncesUnique, TickStep, IsNewest, MoveInRows, CloseInRows, EndOf, CrashAfter;
      live := Newest(game, false);
      created, failed := None, false;
      ghost var before := rounds;
      if live.None? {
        NothingLive(rounds, game);
        var attempt := OpenRoundIfDue(game, draw, now, localNow);
        failed := attempt.Err?;
        if attempt.Ok? {
          created := attempt.value;
        }
        SomePeek(before);
        OpeningIsATick(game, before, rounds, Tick(now, at), config, if created.Some? then created.value else 0);
        return;
      }
      var r := live.value;
      NewestIsForemost(rounds, game, r);
      RoundIsChecked(View(), r);
      ghost var was := View();
      RunningHasStarted(rounds[r], config);
      match Due(rounds[r], now, config) {
        case Rest =>
        case LockRound => var changed := Transition(r, Open, at);
        case StartRound => var changed := Transition(r, Locked, at);
        case ResolveRound => var changed := Transition(r, Running, at);
        case SettleRound =>
          var done := this.SettleRound(r, at);
          failed := done.Err?;
        case VoidRound =>
          var done := this.VoidRound(r, at);
          failed := done.Err?;
      }
      if !failed {
        TickedInRows(was, View(), r, now, at, config);
      }
      RowIsATick(game, before, r, Tick(now, at), config);
      TickedNumbers(before, r, Tick(now, at), config);
    }
  }

  // ---------------------------------------------------------------------------
  // What the methods rest on
  // ---------------------------------------------------------------------------

  /** The call went through and changed something. */
  predicate Happened(r: Result<bool, Failure>) {
    r.Ok? && r.value
  }

  /** A round of the game that is settled or voided, or one that is neither. */
  predicate Matches(r: Round, game: Game, concluded: bool) {
    r.game == game && (concluded <==> r.status == Settled || r.status == Voided)
  }

  ghost predicate Peeked(rounds: map<nat, Round>, next: int) {
    if rounds == map[] then next == 1
    else
      (exists q :: q in rounds && rounds[q].nonce == next - 1) && forall q | q in rounds :: rounds[q].nonce <= next - 1
  }

  predicate Opened(r: Result<Option<nat>, Failure>) {
    r.Ok? && r.value.Some?
  }

  /** The nonce column is unique. */
  ghost predicate NoncesUnique(rounds: map<nat, Round>) {
    forall q, p | q in rounds && p in rounds && rounds[q].nonce == rounds[p].nonce :: q == p
  }

  /** The two counters, as the table and the sequence have them. */
  ghost predicate NumbersAre(rounds: map<nat, Round>, serial: int, n: Numbering) {
    n.serial == serial && Peeked(rounds, n.peek)
  }

  /** A change that leaves the peeked nonce as it is. */
  ghost predicate SamePeeks(before: map<nat, Round>, after: map<nat, Round>) {
    forall next :: Peeked(before, next) <==> Peeked(after, next)
  }

  /** The pause since the game's latest concluded round has passed, or there is nothing to pause after. */
  ghost predicate IntermissionOver(rounds: map<nat, Round>, game: Game, now: int, config: Config) {
    forall q | IsNewest(rounds, game, true, q) && rounds[q].settledAt.Some? ::
      now - rounds[q].settledAt.value >= config.intermissionMs
  }

  /** The round of the game with the highest nonce, among the concluded ones or the others. */
  ghost predicate IsNewest(rounds: map<nat, Round>, game: Game, concluded: bool, q: nat) {
    q in rounds && Matches(rounds[q], game, concluded) &&
    forall p | p in rounds && Matches(rounds[p], game, concluded) :: rounds[p].nonce <= rounds[q].nonce
  }

  lemma NewestIsForemost(rounds: map<nat, Round>, game: Game, q: nat)
    ensures IsNewest(rounds, game, false, q) <==> Foremost(rounds, game, q)
  {
  }

  ghost predicate HasLive(rounds: map<nat, Round>, game: Game) {
    exists q :: q in rounds && rounds[q].game == game && Live(rounds[q].status)
  }

  predicate DrawnFor(row: Round, drawn: Draw) {
    if row.game == CrashGame then row.crashPoint == Some(drawn.crashPoint) else row.pocket == Some(drawn.pocket)
  }

  lemma NewestDecidesIntermission(rounds: map<nat, Round>, game: Game, now: int, config: Config, last: Option<nat>)
    requires NoncesUnique(rounds)
    requires last.Some? ==> IsNewest(rounds, game, true, last.value)
    requires last.None? ==> forall q | q in rounds :: !Matches(rounds[q], game, true)
    ensures IntermissionOver(rounds, game, now, config) <==>
            !(last.Some? && rounds[last.value].settledAt.Some? &&
              now - rounds[last.value].settledAt.value < config.intermissionMs)
  {
    hide Matches;
    if last.Some? {
      forall q | IsNewest(rounds, game, true, q) ensures q == last.value {
      }
    }
  }

  lemma NothingLive(rounds: map<nat, Round>, game: Game)
    requires forall q | q in rounds :: !Matches(rounds[q], game, false)
    ensures !HasLive(rounds, game) && forall q :: !Unconcluded(rounds, game, q)
  {
  }

  lemma SomePeek(rounds: map<nat, Round>)
    ensures exists peeked :: Peeked(rounds, peeked)
  {
    if rounds == map[] {
      assert Peeked(rounds, 1);
    } else {
      var r := HighestNonce(rounds, rounds.Keys);
      assert Peeked(rounds, rounds[r].nonce + 1);
    }
  }

  lemma {:induction false} HighestNonce(rounds: map<nat, Round>, ids: set<nat>) returns (r: nat)
    requires ids <= rounds.Keys && ids != {}
    ensures r in ids && forall q | q in ids :: rounds[q].nonce <= rounds[r].nonce
    decreases |ids|
  {
    var first :| first in ids;
    var rest := ids - {first};
    r := first;
    if rest != {} {
      var s := HighestNonce(rounds, rest);
      if rounds[s].nonce > rounds[first].nonce {
        r := s;
      }
    }
    forall q | q in ids ensures rounds[q].nonce <= rounds[r].nonce {
      if q != first { assert q in rest; }
    }
  }

  lemma LiveOrNot(rounds: map<nat, Round>, game: Game)
    ensures HasLive(rounds, game) <==> exists q :: q in rounds && rounds[q].game == game && Live(rounds[q].status)
  {
  }

  /** With nothing of the game unconcluded, leaving the table alone or adding a round is what a tick may do. */
  lemma OpeningIsATick(
    game: Game, rounds: map<nat, Round>, after: map<nat, Round>, tick: Tick, config: Config, id: nat)
    requires forall q :: !Unconcluded(rounds, game, q)
    requires after == rounds || (id !in rounds && id in after && after == rounds[id := after[id]])
    ensures TickStep(game, rounds, after, tick, config)
  {
    hide Ticked, IsConcluded;
  }

  lemma RowIsATick(game: Game, rounds: map<nat, Round>, r: nat, tick: Tick, config: Config)
    requires Foremost(rounds, game, r) && NoncesUnique(rounds)
    ensures TickStep(game, rounds, rounds[r := Ticked(rounds[r], tick.now, tick.at, config)], tick, config)
  {
    TickKeepsGame(rounds[r], tick, config);
    hide Ticked, IsConcluded;
    forall q | Foremost(rounds, game, q) ensures q == r {
    }
  }

  lemma RunningHasStarted(r: Round, config: Config)
    requires RoundChecks(r)
    ensures r.status == Running ==> r.startedAt.Some?
    ensures CrashAfter(r, config) == EndOf(r, config)
  {
    hide ElapsedAt;
  }

  /** What a tick that does not fail does to the tables, by the columns of the round it finds. */
  ghost predicate TickInRows(db: Db, after: Db, r: nat, now: int, at: int, config: Config) {
    r in db.rounds &&
    var row := db.rounds[r];
    match row.status
    case Open => if now < row.locksAt then after == db else MoveInRows(db, after, r, at)
    case Locked => MoveInRows(db, after, r, at)
    case Running =>
      row.startedAt.Some? &&
      var elapsed, end := now - row.startedAt.value, EndOf(row, config);
      if elapsed < end then after == db
      else if elapsed < end + config.graceMs then MoveInRows(db, after, r, at)
      else exists ids :: CloseInRows(db, after, true, r, ids, at)
    case Resolved => exists ids :: CloseInRows(db, after, false, r, ids, at)
    case _ => false
  }

  lemma TickedInRows(db: Db, after: Db, r: nat, now: int, at: int, config: Config)
    requires TickInRows(db, after, r, now, at, config)
    ensures after.rounds == db.rounds[r := Ticked(db.rounds[r], now, at, config)]
  {
    hide ElapsedAt, DecidedAs, PostsEach, Appends, BetsClosed, Distinct;
    assert db.rounds[r := db.rounds[r]] == db.rounds;
  }

  /** Players are not charged for a round nobody was resolving: past the grace period it is voided and refunded. */
  lemma LateRoundsAreRefunded(db: Db, after: Db, r: nat, now: int, at: int, config: Config)
    requires TickInRows(db, after, r, now, at, config) && db.rounds[r].status == Running
    requires now - db.rounds[r].startedAt.value >= EndOf(db.rounds[r], config) + config.graceMs
    ensures after.rounds[r].status == Voided && after.rounds[r].seedRevealed
    ensures forall b | ActiveIn(db, r, b) ::
              b in after.bets && after.bets[b] == db.bets[b].(status := Refunded, payout := Some(db.bets[b].stake))
    ensures forall b | b in db.bets && !ActiveIn(db, r, b) :: b in after.bets && after.bets[b] == db.bets[b]
  {
    hide ElapsedAt, PostsEach, Appends, Distinct;
    var ids :| CloseInRows(db, after, true, r, ids, at);
    forall b ensures b in ids <==> ActiveIn(db, r, b) {
    }
  }

  /**
   The engine and cash-outs read one clock the same way: while a bet is in
   flight, a tick leaves the round alone exactly when a cash-out at that time is
   early enough, so nothing is resolved while it would still be priced.
   */
  lemma TickRestsIffCashOutIsInTime(db: Db, user: nat, bet: nat, now: int, at: int, config: Config)
    requires InFlight(db, user, bet) && 10_000 <= Crash(db, user, bet) <= MaxMultiplierBp()
    requires db.rounds[db.bets[bet].round].startedAt.value <= now
    ensures Ticked(db.rounds[db.bets[bet].round], now, at, config) == db.rounds[db.bets[bet].round] <==>
            PriceShown(db, user, bet, now) < Crash(db, user, bet)
  {
    var r := db.rounds[db.bets[bet].round];
    TickRestsIffCashOutIsOpen(r, now, config);
    assert Shown(r.startedAt.value, now) == MultiplierAtElapsed(now - r.startedAt.value);
    hide MultiplierAtTick, CrashAfter;
  }

  lemma TickKeepsGame(r: Round, tick: Tick, config: Config)
    ensures Ticked(r, tick.now, tick.at, config).game == r.game
    ensures Ticked(r, tick.now, tick.at, config).nonce == r.nonce
  {
    hide CrashAfter;
  }

  lemma TickedNumbers(rounds: map<nat, Round>, r: nat, tick: Tick, config: Config)
    requires r in rounds
    ensures SamePeeks(rounds, rounds[r := Ticked(rounds[r], tick.now, tick.at, config)])
  {
    TickKeepsGame(rounds[r], tick, config);
    hide Ticked;
    SameNonces(rounds, r, Ticked(rounds[r], tick.now, tick.at, config));
  }

  lemma SameNonces(rounds: map<nat, Round>, r: nat, row: Round)
    requires r in rounds && row.nonce == rounds[r].nonce
    ensures SamePeeks(rounds, rounds[r := row])
  {
    var after := rounds[r := row];
    forall next ensures Peeked(rounds, next) <==> Peeked(after, next) {
      forall q ensures q in rounds <==> q in after {
      }
      forall q | q in rounds ensures after[q].nonce == rounds[q].nonce {
      }
    }
  }

  /** The row inserted for a draw: open, with the outcome of its own game and nothing of what comes later. */
  function DrawnRound(nonce: int, game: Game, drawn: Draw, locksAt: int): Round {
    Round(nonce, game, Open, if game == CrashGame then Some(drawn.crashPoint) else None,
          if game == RouletteGame then Some(drawn.pocket) else None, locksAt, None, None, None, false)
  }

  /** The drawn outcome is one the column takes. */
  predicate DrawFits(game: Game, drawn: Draw) {
    if game == CrashGame then drawn.crashPoint >= 10_000 else drawn.pocket <= 36
  }

  lemma NewRoundShape(nonce: int, game: Game, drawn: Draw, locksAt: int)
    ensures var row := DrawnRound(nonce, game, drawn, locksAt);
            row == NewRound(nonce, game, if game == CrashGame then Some(drawn.crashPoint) else None,
                            if game == RouletteGame then Some(drawn.pocket) else None, locksAt) &&
            row.nonce == nonce && row.status == Open && row.game == game && Stamped(row) && DrawnFor(row, drawn)
  {
  }

  /** The next round peeks past this one. */
  lemma NextPeek(rounds: map<nat, Round>, id: nat, row: Round)
    requires id !in rounds && forall q | q in rounds :: rounds[q].nonce < row.nonce
    ensures Peeked(rounds[id := row], row.nonce + 1)
    ensures NoncesUnique(rounds) ==> NoncesUnique(rounds[id := row])
  {
    var after := rounds[id := row];
    assert id in after && after[id] == row;
  }

  lemma PeekIsUnique(rounds: map<nat, Round>, next: int)
    requires Peeked(rounds, next)
    ensures forall other :: Peeked(rounds, other) <==> other == next
  {
  }

  /**
   A nonce burned, by calls: a crash round opens, a second one is refused
   because the first is live, and the roulette round opened next gets nonce 3
   with the outcome drawn for nonce 2.
   */
  method BurnANonce(config: Config, draw: int -> Draw, now: int) returns (platform: Platform, second: nat)
    requires config.minStake > 0
    requires draw(1).crashPoint >= BASIS_POINTS_ONE && draw(2).crashPoint >= BASIS_POINTS_ONE && draw(2).pocket <= 36
    ensures fresh(platform) && platform.Valid()
    ensures second in platform.rounds && platform.rounds[second].game == RouletteGame
    ensures platform.rounds[second].nonce == 3 && DrawnFor(platform.rounds[second], draw(2))
  {
    hide Consistent, Does, Stamped, NoncesUnique, IntermissionOver, RoundChecks, NewRound, Peeked, HasLive;
    platform := new Platform(config);
    ghost var crash := DrawnRound(1, CrashGame, draw(1), now + config.windowMs);
    ghost var wheel := DrawnRound(3, RouletteGame, draw(2), now + config.windowMs);
    NewRoundShape(1, CrashGame, draw(1), now + config.windowMs);
    NewRoundShape(3, RouletteGame, draw(2), now + config.windowMs);
    FirstRounds(crash, now, config);
    var first := platform.OpenRoundIfDue(CrashGame, draw, now, now);
    assert platform.rounds == map[0 := crash];
    var refused := platform.OpenRoundIfDue(CrashGame, draw, now, now);
    assert platform.rounds == map[0 := crash] && platform.serial == 2;
    ghost var id := platform.nextRound;
    second := platform.nextRound;
    var other := platform.OpenRoundIfDue(RouletteGame, draw, now, now);
    assert platform.rounds == map[0 := crash][id := wheel];
  }

  lemma DrawPasses(nonce: int, game: Game, drawn: Draw, locksAt: int)
    ensures RoundChecks(DrawnRound(nonce, game, drawn, locksAt)) <==> DrawFits(game, drawn)
  {
  }

  /** What the calls find: nothing to pause after, the peeks 1 and 2, and a live crash round. */
  lemma FirstRounds(crash: Round, now: int, config: Config)
    requires crash.nonce == 1 && crash.status == Open && crash.game == CrashGame
    ensures Peeked(map[], 1) && Peeked(map[0 := crash], 2)
    ensures !HasLive(map[], CrashGame) && HasLive(map[0 := crash], CrashGame) && !HasLive(map[0 := crash], RouletteGame)
    ensures IntermissionOver(map[], CrashGame, now, config)
    ensures forall game :: IntermissionOver(map[0 := crash], game, now, config)
  {
    var rounds := map[0 := crash];
    assert 0 in rounds && rounds[0].nonce == 1;
    forall game { NothingConcluded(rounds, game, now, config); }
  }

  lemma NothingConcluded(rounds: map<nat, Round>, game: Game, now: int, config: Config)
    requires forall q | q in rounds :: rounds[q].status == Open
    ensures IntermissionOver(rounds, game, now, config)
  {
  }

  /** A round that has not ended carries no end, and one that has resolved does. */
  predicate Stamped(r: Round) {
    (Live(r.status) ==> r.resolvedAt.None?) && (r.status == Resolved ==> r.resolvedAt.Some?)
  }

  /** The database clock is behind the round's own start. */
  predicate ClockWentBack(r: Round, at: int) {
    r.startedAt.Some? && at < r.startedAt.value
  }

  lemma OnlyOpenRoundsTakeBets(db: Db, round: nat, selection: Option<Selection>)
    ensures TakesBet(db, round, selection) ==> round in db.rounds && db.rounds[round].status == Open
  {
    hide PricedAs;
  }

  lemma PricingDecides(db: Db, round: nat, selection: Option<Selection>)
    requires round in db.rounds && db.rounds[round].status == Open
    ensures TakesBet(db, round, selection) <==> PriceSelection(db.rounds[round].game, selection).Ok?
    ensures PriceSelection(db.rounds[round].game, selection).Err? ==>
              PriceSelection(db.rounds[round].game, selection).error == InvalidSelection
  {
    PricingAsListed(db.rounds[round].game, selection);
    hide PricedAs;
    var priced := PriceSelection(db.rounds[round].game, selection);
    if priced.Ok? { assert PricedAs(db.rounds[round].game, selection, priced.value); }
  }

  lemma NewBetRow(user: nat, round: nat, stake: nat, key: nat, s: Option<Selection>, odds: Option<nat>)
    ensures NewBet(user, round, stake, key, s, odds) == Bet(user, round, stake, key, s, odds, Active, None, None)
  {
  }

  lemma RoundIsChecked(db: Db, r: nat)
    requires Consistent(db) && r in db.rounds
    ensures RoundChecks(db.rounds[r])
  {
    hide JournalMatchesRows, BetsFit, BalancesMatchJournal, NoWalletOverdrawn, AllBalanced;
  }

  lemma AdvancedIsChecked(r: Round, at: int)
    requires RoundChecks(r) && Live(r.status) && Stamped(r)
    ensures RoundChecks(Advanced(r, at)) <==> !(r.status == Running && ClockWentBack(r, at))
    ensures Stamped(Advanced(r, at)) && Advanced(r, at).nonce == r.nonce
  {
  }

  lemma MovesRound(db: Db, r: nat, at: int)
    requires Consistent(db) && r in db.rounds && Live(db.rounds[r].status) && RoundChecks(Advanced(db.rounds[r], at))
    ensures var after := db.(rounds := db.rounds[r := Advanced(db.rounds[r], at)]);
            Does(db, after, Move(r, at)) && Consistent(after) && Follows(db.rounds[r].status, after.rounds[r].status)
  {
    ConsistentGuardsHold(db);
    AdvanceKeeps(db, r, at);
    AdvancedIsLater(db.rounds[r], at);
    hide Consistent, Advanced, RoundChecks;
    RoundOnly(db, r, Advanced(db.rounds[r], at));
  }

  /** Writing a round row alone leaves every balance as it is. */
  lemma RoundOnly(db: Db, r: nat, row: Round)
    requires BalancesMatchJournal(db)
    ensures Apply(db, RoundWrites(r, row)) == db.(rounds := db.rounds[r := row])
  {
    NothingApplied(db);
    assert db.journal + [] == db.journal;
  }

  lemma CreatesRound(db: Db, r: nat, row: Round)
    requires Consistent(db) && r !in db.rounds && row.status == Open && RoundChecks(row)
    requires forall q | q in db.rounds && db.rounds[q].game == row.game :: !Live(db.rounds[q].status)
    ensures var after := db.(rounds := db.rounds[r := row]);
            Does(db, after, Create(r, row)) && Consistent(after)
  {
    ConsistentGuardsHold(db);
    OpenKeeps(db, r, row);
    hide Consistent, RoundChecks;
    RoundOnly(db, r, row);
  }

  // ---------------------------------------------------------------------------
  // Registering, placing, paying
  // ---------------------------------------------------------------------------

  lemma PostedIsNet(balances: Balances, ps: seq<Posting>)
    ensures var r := Posted(balances, ps);
            (r == Err(Unbalanced) <==>
               |ps| < 2 || Ledger.Total(ps) != 0 || exists i :: 0 <= i < |ps| && ps[i].amount == 0) &&
            (r.Ok? ==>
               r.value.Keys == balances.Keys && (forall a | a in balances :: r.value[a] == balances[a] + Net(ps, a)) &&
               forall p | p in ps :: p.account in balances &&
                                     (p.account.Escrow? || p.account.Wallet? ==> r.value[p.account] >= 0))
  {
    OnlyImbalanceIsUnbalanced(balances, Sorted(ps));
    if Posted(balances, ps).Ok? {
      PostedAddsNet(balances, ps);
      PostedNeverOverdraws(balances, ps);
    }
  }

  lemma {:induction false} OnlyImbalanceIsUnbalanced(balances: Balances, ps: seq<Posting>)
    ensures ApplyPostings(balances, ps) != Err(Unbalanced)
    decreases |ps|
  {
    if ps != [] && ApplyPosting(balances, ps[0]).Ok? {
      OnlyImbalanceIsUnbalanced(ApplyPosting(balances, ps[0]).value, ps[1..]);
    }
  }

  /** MINT down and the wallet up, by the grant. */
  lemma GrantNet(user: nat, grant: nat, a: Account)
    ensures EntrySum([GrantTx(user, grant)], a) == Net(GrantTx(user, grant).postings, a)
    ensures Net(GrantTx(user, grant).postings, a) ==
            if a == Mint then Negate(grant) else if a == Wallet(user) then grant else 0
  {
    EntrySumOne(GrantTx(user, grant), a);
    NetOfTwo(Posting(Mint, Negate(grant)), Posting(Wallet(user), grant), a);
  }

  lemma GrantPosts(db: Db, user: nat, grant: nat)
    requires Consistent(db) && user !in db.users && grant > 0
    ensures var start := db.balances[Wallet(user) := 0];
            Posted(start, GrantTx(user, grant).postings) ==
            Ok(map a | a in start :: start[a] + Net(GrantTx(user, grant).postings, a))
  {
    var start, tx := db.balances[Wallet(user) := 0], GrantTx(user, grant);
    ConsistentGuardsHold(db);
    NoWalletForStrangers(db, user);
    GrantIsBalanced(user, grant);
    hide Consistent, Balanced;
    forall a { GrantNet(user, grant, a); }
    CoveredPosts(start, tx.postings);
    PostedAddsNet(start, tx.postings);
  }

  lemma GrantApplied(db: Db, user: nat, grant: nat)
    requires Consistent(db) && user !in db.users
    ensures var start := db.balances[Wallet(user) := 0];
            Apply(db, RegisterWrites(user, grant)).balances ==
            map a | a in start :: start[a] + Net(GrantTx(user, grant).postings, a)
  {
    hide Consistent, EntrySum, Net, GrantTx, About;
    var start, w := db.balances[Wallet(user) := 0], RegisterWrites(user, grant);
    NoWalletForStrangers(db, user);
    assert w.journal == [GrantTx(user, grant)];
    forall a ensures EntrySum(w.journal, a) == Net(GrantTx(user, grant).postings, a) {
      GrantNet(user, grant, a);
    }
    assert AccountsAfter(db, w.users) == start.Keys;
  }

  lemma GrantIsAnOperation(db: Db, user: nat, amount: nat)
    requires user !in db.users && amount > 0
    ensures Does(db, Apply(db, RegisterWrites(user, amount)), Grant(user, amount))
  {
    hide Apply, RegisterWrites;
  }

  lemma GrantRows(db: Db, user: nat, grant: nat)
    ensures var after := Apply(db, RegisterWrites(user, grant));
            after.users == db.users[user := grant] && after.journal == db.journal + [GrantTx(user, grant)] &&
            after.bets == db.bets && after.rounds == db.rounds
  {
    hide GrantTx;
    assert db.users + map[user := grant] == db.users[user := grant];
    assert db.bets + map[] == db.bets && db.rounds + map[] == db.rounds;
  }

  lemma Registers(db: Db, user: nat, grant: nat)
    requires Consistent(db) && user !in db.users
    ensures var posted := Posted(db.balances[Wallet(user) := 0], GrantTx(user, grant).postings);
            (posted.Ok? <==> grant > 0) && (posted.Err? ==> posted.error == Unbalanced) &&
            (posted.Ok? ==>
               var after := Db(db.users[user := grant], posted.value, db.journal + [GrantTx(user, grant)],
                               db.bets, db.rounds);
               Does(db, after, Grant(user, grant)) && Consistent(after) &&
               Wallet(user) in after.balances && after.balances[Wallet(user)] == grant)
  {
    if grant > 0 {
      hide Consistent, Posted, EntrySum, Balanced, Net, Apply, RegisterWrites, Does, GrantTx;
      GrantPosts(db, user, grant);
      GrantApplied(db, user, grant);
      RegisterKeeps(db, user, grant);
      GrantNet(user, grant, Wallet(user));
      GrantRows(db, user, grant);
      GrantIsAnOperation(db, user, grant);
    } else {
      hide Consistent;
      assert !Balanced(GrantTx(user, grant).postings);
    }
  }

  lemma RequestMayBePlaced(db: Db, id: nat, user: nat, round: nat, stake: nat, key: nat,
                           selection: Option<Selection>, odds: Option<nat>)
    requires id !in db.bets && user in db.users && round in db.rounds && stake > 0
    requires db.rounds[round].status == Open && PriceSelection(db.rounds[round].game, selection) == Ok(odds)
    requires BaseBalance(db, Wallet(user)) >= stake && forall b: nat :: !HasKey(db, user, key, b)
    ensures MayPlace(db, id, NewBet(user, round, stake, key, selection, odds))
    ensures HasPlacement(NewBet(user, round, stake, key, selection, odds),
                         Program.PlaceBet(user, round, stake, key, selection))
  {
    hide PriceSelection;
    forall c | c in db.bets ensures db.bets[c].user != user || db.bets[c].key != key {
      assert !HasKey(db, user, key, c);
    }
  }

  lemma PlacementLands(db: Db, id: nat, row: Bet)
    requires Consistent(db) && MayPlace(db, id, row)
    ensures Posted(db.balances, PlacedTx(id, row).postings) == Ok(Apply(db, PlaceWrites(id, row)).balances)
  {
    hide Consistent, PriceSelection;
    PlaceKeeps(db, id, row);
    ConsistentGuardsHold(db);
    ConsistentGuardsHold(Apply(db, PlaceWrites(id, row)));
    NothingApplied(db);
    PlacementIsBalanced(id, row);
    PlacementIsOneWay(id, row);
    NoWalletForStrangers(db, row.user);
    hide Balanced, OneWay, Apply, GuardsHold, MayPlace;
    PostLands(db, NO_WRITES, PlacedTx(id, row), PlaceWrites(id, row));
  }

  lemma Places(db: Db, id: nat, row: Bet)
    requires Consistent(db) && MayPlace(db, id, row)
    ensures var posted := Posted(db.balances, PlacedTx(id, row).postings);
            posted.Ok? &&
            var after := Db(db.users, posted.value, db.journal + [PlacedTx(id, row)], db.bets[id := row], db.rounds);
            Does(db, after, Place(id, row)) && Consistent(after)
  {
    hide Consistent, Posted, MayPlace, PlacedTx, EntrySum;
    PlacementLands(db, id, row);
    PlaceKeeps(db, id, row);
    assert db.users + map[] == db.users && db.rounds + map[] == db.rounds;
    assert db.bets + map[id := row] == db.bets[id := row];
  }

  lemma CashOutLands(db: Db, id: nat, at: int)
    requires Consistent(db) && MayCashOut(db, id, at)
    ensures var row := PaidRow(db, id, at);
            var w := BatchWrites(map[id := row], [id], map[]);
            Posted(db.balances, DecisionTx(id, row).postings) == Ok(Apply(db, w).balances) &&
            w.journal == [DecisionTx(id, row)]
  {
    hide Consistent, PaidRow, MayCashOut, BatchFits, Payable, Apply, SettlementOf, DecisionTx;
    var row := MayPaidRow(db, id, at);
    CashOutFits(db, id, at);
    ConsistentGuardsHold(db);
    NothingApplied(db);
    BatchOfOne(id, row);
    BatchFitsNothing(db);
    assert [] + [id] == [id];
    BatchIsPayable(db, map[id := row], [id]);
    assert row == map[id := row][id] && id in [id];
    NextSettlementLands(db, map[], [], map[id := row], id);
    DecisionTxIsSettlement(id, row);
  }

  ghost function MayPaidRow(db: Db, id: nat, at: int): Bet
    requires MayCashOut(db, id, at)
  {
    PaidRow(db, id, at)
  }

  lemma BatchFitsNothing(db: Db)
    ensures BatchFits(db, map[], []) && BatchWrites(map[], [], map[]) == NO_WRITES
  {
  }

  lemma Pays(db: Db, id: nat, at: int)
    requires Consistent(db) && MayCashOut(db, id, at)
    ensures var row := PaidRow(db, id, at);
            var posted := Posted(db.balances, DecisionTx(id, row).postings);
            posted.Ok? &&
            var after := Db(db.users, posted.value, db.journal + [DecisionTx(id, row)], db.bets[id := row], db.rounds);
            Does(db, after, Pay(id, at)) && Consistent(after)
  {
    hide Consistent, Posted, CashOutRow, DecisionTx, EntrySum, PriceAt;
    CashOutLands(db, id, at);
    CashOutKeeps(db, id, at);
    var row := PaidRow(db, id, at);
    hide MayCashOut;
    assert db.users + map[] == db.users && db.rounds + map[] == db.rounds;
    assert db.bets + map[id := row] == db.bets[id := row];
  }

  // ---------------------------------------------------------------------------
  // Settling
  // ---------------------------------------------------------------------------

  /** Where a settlement stands once it has decided some of the round's bets. */
  ghost predicate DecidedSoFar(voiding: bool, before: Db, r: nat, done: seq<nat>, db: Db) {
    Decidable(voiding, before, r, done) &&
    db == Apply(before, BatchWrites(DecidedRows(voiding, before, r, done), done, map[]))
  }

  lemma StartsDecided(voiding: bool, db: Db, r: nat)
    requires Consistent(db) && r in db.rounds
    ensures DecidedSoFar(voiding, db, r, [], db)
  {
    ConsistentGuardsHold(db);
    NothingApplied(db);
    BatchFitsNothing(db);
    hide Consistent, Decide;
    assert DecidedRows(voiding, db, r, []) == map[];
  }

  lemma StillActive(voiding: bool, before: Db, r: nat, ids: seq<nat>, i: nat, db: Db)
    requires Consistent(before) && r in before.rounds && ActiveBetsOf(before, r, ids) && i < |ids|
    requires DecidedSoFar(voiding, before, r, ids[..i], db)
    ensures ActiveIn(before, r, ids[i]) && ids[i] !in ids[..i]
    ensures ids[i] in db.bets && db.bets[ids[i]] == before.bets[ids[i]] && db.rounds == before.rounds
    ensures var d := Decide(voiding, before.bets[ids[i]], before.rounds[r]);
            d.Err? ==> d.error == MoneyFailure(Unsafe) && !Decidable(voiding, before, r, ids)
  {
    hide Consistent, Decide, BetFits, BatchJournal, Decidable, EntrySum, DecidedRows;
    var id := ids[i];
    assert id in ids && ActiveIn(before, r, id);
    CommittedBetFits(before, id);
    DecisionErrors(voiding, before.bets[id], before.users, before.rounds);
    assert ids == ids[..i] + ids[i..];
    NotAmongTheFirst(ids[..i], ids[i..]);
    OnlyDecidedChange(voiding, before, r, ids[..i], db, id);
    if Decidable(voiding, before, r, ids) {
      DecidableIsDefined(voiding, before, r, ids);
    }
  }

  lemma OnlyDecidedChange(voiding: bool, before: Db, r: nat, done: seq<nat>, db: Db, id: nat)
    requires DecidedSoFar(voiding, before, r, done, db) && id !in done && id in before.bets
    ensures id in db.bets && db.bets[id] == before.bets[id] && db.rounds == before.rounds
  {
    hide Decide, BatchJournal, EntrySum, Distinct;
  }

  lemma EndsDecided(voiding: bool, before: Db, r: nat, ids: seq<nat>, db: Db)
    requires DecidedSoFar(voiding, before, r, ids, db)
    ensures Decidable(voiding, before, r, ids)
  {
    hide Decidable, Apply, DecidedRows, BatchWrites;
  }

  lemma DecidesNext(voiding: bool, before: Db, r: nat, done: seq<nat>, id: nat, db: Db)
    requires Consistent(before) && DecidedSoFar(voiding, before, r, done, db)
    requires id !in done && ActiveIn(before, r, id) && r in before.rounds
    requires Decide(voiding, before.bets[id], before.rounds[r]).Ok?
    ensures var row := Decide(voiding, before.bets[id], before.rounds[r]).value;
            var posted := Posted(db.balances, DecisionTx(id, row).postings);
            posted.Ok? &&
            DecidedSoFar(voiding, before, r, done + [id],
                         Db(db.users, posted.value, db.journal + [DecisionTx(id, row)], db.bets[id := row], db.rounds))
  {
    var row := Decide(voiding, before.bets[id], before.rounds[r]).value;
    ConsistentBets(before);
    BatchGrows(voiding, before, r, done, id);
    DecidedRowsFit(voiding, before, r, done);
    DecidedRowsFit(voiding, before, r, done + [id]);
    var rows, more := DecidedRows(voiding, before, r, done), DecidedRows(voiding, before, r, done + [id]);
    assert id in done + [id] && more[id] == row;
    BatchIsPayable(before, more, done + [id]);
    hide Consistent, Decide, BatchFits, Payable, BetsFit, RoundsFit, SettlementOf, DecisionTx, Decidable, DecidedRows;
    NextSettlementLands(before, rows, done, more, id);
    DecisionTxIsSettlement(id, row);
    AppliedRows(before, rows, done, more, done + [id], id, row);
  }

  lemma AppliedRows(db: Db, rows: map<nat, Bet>, ids: seq<nat>, more: map<nat, Bet>, longer: seq<nat>, id: nat, row: Bet)
    requires (forall b | b in ids :: b in rows) && (forall b | b in longer :: b in more)
    requires BatchWrites(more, longer, map[]) ==
             var w := BatchWrites(rows, ids, map[]);
             w.(bets := w.bets[id := row], journal := w.journal + [DecisionTx(id, row)])
    ensures var a, b := Apply(db, BatchWrites(rows, ids, map[])), Apply(db, BatchWrites(more, longer, map[]));
            b == Db(a.users, b.balances, a.journal + [DecisionTx(id, row)], a.bets[id := row], a.rounds)
  {
    hide DecisionTx, BatchJournal, EntrySum;
  }

  ghost predicate AllAffordable(db: Db, r: nat)
    requires r in db.rounds
  {
    forall b | ActiveIn(db, r, b) :: Affordable(db.bets[b], db.rounds[r])
  }

  lemma DecidableIffAffordable(db: Db, r: nat, ids: seq<nat>)
    requires Consistent(db) && r in db.rounds && ActiveBetsOf(db, r, ids)
    ensures Decidable(false, db, r, ids) <==> AllAffordable(db, r)
  {
    hide Consistent, Decide, Affordable, BetFits;
    forall b | b in ids ensures Decide(false, db.bets[b], db.rounds[r]).Ok? <==> Affordable(db.bets[b], db.rounds[r]) {
      CommittedBetFits(db, b);
      DecidedIffAffordable(db.bets[b], db.users, db.rounds);
    }
    forall b ensures b in ids <==> ActiveIn(db, r, b) {
    }
  }

  lemma LimitMakesAffordable(db: Db, r: nat, maxStake: nat)
    requires Consistent(db) && r in db.rounds && forall b | b in db.bets :: db.bets[b].stake <= maxStake
    ensures 36 * maxStake <= MAX_SAFE_INTEGER ==> AllAffordable(db, r)
  {
    hide Consistent, BetFits, Affordable;
    if 36 * maxStake <= MAX_SAFE_INTEGER {
      forall b | ActiveIn(db, r, b) ensures Affordable(db.bets[b], db.rounds[r]) {
        CommittedBetFits(db, b);
        LimitMakesOneAffordable(db.bets[b], db.users, db.rounds, maxStake);
      }
    }
  }

  lemma LimitMakesOneAffordable(b: Bet, users: map<nat, nat>, rounds: map<nat, Round>, maxStake: nat)
    requires BetFits(b, users, rounds) && b.stake <= maxStake && 36 * maxStake <= MAX_SAFE_INTEGER
    ensures Affordable(b, rounds[b.round])
  {
    hide Wins, WinsOn;
    if b.odds.Some? {
      ScaleMonotone(b.stake, maxStake, b.odds.value, Odds(Straight));
      assert Scale(maxStake, Odds(Straight)) == 36 * maxStake by { StraightPaysThirtySix(maxStake); }
    }
  }

  lemma StraightPaysThirtySix(stake: nat)
    ensures Scale(stake, Odds(Straight)) == 36 * stake
  {
    ScaleIsTheFloor(stake, Odds(Straight), 36 * stake);
  }

  lemma ConcludeMayFail(voiding: bool, r: Round, at: int)
    requires MayStart(voiding, r) && RoundChecks(r) && Stamped(r)
    ensures RoundChecks(Concluded(voiding, r, at)) <==> MayConclude(voiding, r)
    ensures !voiding ==> MayConclude(voiding, r)
    ensures voiding ==> (MayConclude(voiding, r) <==> Live(r.status))
    ensures Stamped(Concluded(voiding, r, at)) && Concluded(voiding, r, at).nonce == r.nonce
  {
  }

  lemma VoidsAreDecidable(db: Db, r: nat, ids: seq<nat>)
    requires ActiveBetsOf(db, r, ids) && r in db.rounds
    ensures Decidable(true, db, r, ids)
  {
  }

  lemma ClosesRound(voiding: bool, before: Db, r: nat, ids: seq<nat>, at: int, decided: Db)
    requires Consistent(before) && Decidable(voiding, before, r, ids) && ActiveBetsOf(before, r, ids)
    requires MayConclude(voiding, before.rounds[r])
    requires DecidedSoFar(voiding, before, r, ids, decided)
    ensures var after := decided.(rounds := decided.rounds[r := Concluded(voiding, before.rounds[r], at)]);
            Does(before, after, Close(voiding, r, ids, at)) && Consistent(after)
    ensures before.bets.Keys == decided.bets.Keys && before.users == decided.users && before.rounds == decided.rounds
    ensures forall b | b in before.bets :: decided.bets[b].stake == before.bets[b].stake
  {
    hide Consistent, Decide, MayConclude, Concluded, BatchJournal, ActiveBetsOf, EntrySum;
    ConcludeKeeps(voiding, before, r, ids, at);
    var after := decided.(rounds := decided.rounds[r := Concluded(voiding, before.rounds[r], at)]);
    assert after == Apply(before, ConcludeWrites(voiding, before, r, ids, at));
    DecidableIsDefined(voiding, before, r, ids);
    assert before.bets.Keys == decided.bets.Keys;
    forall b | b in ids ensures decided.bets[b].stake == before.bets[b].stake {
      OnlyRouletteWins(voiding, before.bets[b], before.rounds[r]);
    }
  }
}
