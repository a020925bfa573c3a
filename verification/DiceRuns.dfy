/** Whole runs of the dice contract: escrow is conserved and the book stays sound in every run. */
module DiceRuns {
  import opened Sums
  import opened Dice

  // ---------------------------------------------------------------- sums over one changed row

  lemma OfferSums(offers: map<nat, Offer>, k: nat, o: Offer)
    ensures Sum(BetColumn(offers[k := o])) == Sum(BetColumn(offers)) - (if k in offers then offers[k].bet else 0)
            + o.bet
  {
    hide Sum;
    SumUpdate(BetColumn(offers), k, o.bet);
    assert BetColumn(offers[k := o]) == BetColumn(offers)[k := o.bet];
  }

  function Opens(o: Offer, x: Name): int { if o.owner == x && o.gameid == 0 then 1 else 0 }
  function Plays(o: Offer, x: Name): int { if o.owner == x && o.gameid != 0 then 1 else 0 }

  lemma OfferCounts(offers: map<nat, Offer>, k: nat, o: Offer, x: Name)
    ensures Sum(OpenColumn(offers[k := o], x)) ==
            Sum(OpenColumn(offers, x)) - (if k in offers then Opens(offers[k], x) else 0) + Opens(o, x)
    ensures Sum(PlayColumn(offers[k := o], x)) ==
            Sum(PlayColumn(offers, x)) - (if k in offers then Plays(offers[k], x) else 0) + Plays(o, x)
  {
    hide Sum;
    SumUpdate(OpenColumn(offers, x), k, Opens(o, x));
    SumUpdate(PlayColumn(offers, x), k, Plays(o, x));
    assert OpenColumn(offers[k := o], x) == OpenColumn(offers, x)[k := Opens(o, x)];
    assert PlayColumn(offers[k := o], x) == PlayColumn(offers, x)[k := Plays(o, x)];
  }

  lemma OfferGone(offers: map<nat, Offer>, k: nat)
    requires k in offers
    ensures Sum(BetColumn(offers - {k})) == Sum(BetColumn(offers)) - offers[k].bet
  {
    hide Sum;
    SumRemove(BetColumn(offers), k);
    assert BetColumn(offers - {k}) == BetColumn(offers) - {k};
  }

  lemma OfferUncounted(offers: map<nat, Offer>, k: nat, x: Name)
    requires k in offers
    ensures Sum(OpenColumn(offers - {k}, x)) == Sum(OpenColumn(offers, x)) - Opens(offers[k], x)
    ensures Sum(PlayColumn(offers - {k}, x)) == Sum(PlayColumn(offers, x)) - Plays(offers[k], x)
  {
    hide Sum;
    SumRemove(OpenColumn(offers, x), k);
    SumRemove(PlayColumn(offers, x), k);
    assert OpenColumn(offers - {k}, x) == OpenColumn(offers, x) - {k};
    assert PlayColumn(offers - {k}, x) == PlayColumn(offers, x) - {k};
  }

  lemma AccountSums(accounts: map<Name, Account>, x: Name, a: Account)
    ensures Sum(BalanceColumn(accounts[x := a])) ==
            Sum(BalanceColumn(accounts)) - (if x in accounts then accounts[x].balance else 0) + a.balance
  {
    hide Sum;
    SumUpdate(BalanceColumn(accounts), x, a.balance);
    assert BalanceColumn(accounts[x := a]) == BalanceColumn(accounts)[x := a.balance];
  }

  lemma AccountGone(accounts: map<Name, Account>, x: Name)
    requires x in accounts
    ensures Sum(BalanceColumn(accounts - {x})) == Sum(BalanceColumn(accounts)) - accounts[x].balance
  {
    hide Sum;
    SumRemove(BalanceColumn(accounts), x);
    assert BalanceColumn(accounts - {x}) == BalanceColumn(accounts) - {x};
  }

  lemma GameSums(games: map<nat, Game>, g: nat, game: Game)
    ensures Sum(StakeColumn(games[g := game])) ==
            Sum(StakeColumn(games)) - (if g in games then 2 * games[g].bet else 0) + 2 * game.bet
  {
    hide Sum;
    SumUpdate(StakeColumn(games), g, 2 * game.bet);
    assert StakeColumn(games[g := game]) == StakeColumn(games)[g := 2 * game.bet];
  }

  lemma GameGone(games: map<nat, Game>, g: nat)
    requires g in games
    ensures Sum(StakeColumn(games - {g})) == Sum(StakeColumn(games)) - 2 * games[g].bet
  {
    hide Sum;
    SumRemove(StakeColumn(games), g);
    assert StakeColumn(games - {g}) == StakeColumn(games) - {g};
  }

  // ---------------------------------------------------------------- conservation

  lemma UpdateConserves(s: State, x: Name, balance: int, offers: int, games: int)
    requires x in s.accounts
    ensures Sum(BalanceColumn(Update(s, x, balance, offers, games).accounts)) == Sum(BalanceColumn(s.accounts))
            + balance
  {
    hide Sum;
    AccountSums(s.accounts, x, Update(s, x, balance, offers, games).accounts[x]);
  }

  lemma OfferBetConserves(s: State, id: nat, player: Name, bet: int, c: Hash)
    requires Booked(s) && Conserved(s) && OfferBet(s, id, player, bet, c).Some?
    ensures Conserved(OfferBet(s, id, player, bet, c).value)
  {
    hide Sum, BetColumn, BalanceColumn, StakeColumn, SoundOffer, SoundGame;
    var k := Matched(s, player, bet);
    if k.None? {
      var o := Offer(player, bet, c, 0);
      OfferSums(s.offers, id, o);
      UpdateConserves(s.(offers := s.offers[id := o]), player, -bet, 1, 0);
    } else {
      var m := s.offers[k.value];
      var s1 := Pair(s, k.value, id, player, bet, c);
      OfferSums(s.offers, k.value, m.(bet := 0, gameid := s.nextGame + 1));
      OfferSums(s.offers[k.value := m.(bet := 0, gameid := s.nextGame + 1)], id, Offer(player, 0, c, s.nextGame + 1));
      assert s.nextGame + 1 !in s.games by { NextGameIsNew(s); }
      GameSums(s.games, s.nextGame + 1, s1.games[s.nextGame + 1]);
      UpdateConserves(s1, m.owner, 0, -1, 1);
      UpdateConserves(Update(s1, m.owner, 0, -1, 1), player, -bet, 0, 1);
    }
  }

  lemma NextGameIsNew(s: State)
    requires Booked(s)
    ensures s.nextGame + 1 !in s.games
  {
    assert forall g <- s.games :: SoundGame(s, g) ==> g <= s.nextGame;
  }

  lemma CancelConserves(s: State, c: Hash)
    requires Conserved(s) && CancelOffer(s, c).Some?
    ensures Conserved(CancelOffer(s, c).value)
  {
    hide Sum, BetColumn, BalanceColumn, StakeColumn;
    var k := OfferWith(s.offers, c).value;
    OfferGone(s.offers, k);
    UpdateConserves(s.(offers := s.offers - {k}), s.offers[k].owner, s.offers[k].bet, -1, 0);
  }

  lemma PayConserves(s: State, g: nat, winner: nat, loser: nat)
    requires Conserved(s) && g in s.games && winner in s.offers && loser in s.offers && winner != loser
    requires s.offers[winner].bet == 0 && s.offers[loser].bet == 0 && PayAndClean(s, g, winner, loser).Some?
    ensures Conserved(PayAndClean(s, g, winner, loser).value)
  {
    hide Sum, BetColumn, BalanceColumn, StakeColumn;
    var w, l := s.offers[winner].owner, s.offers[loser].owner;
    var s1 := Update(s, w, 2 * s.games[g].bet, 0, -1);
    UpdateConserves(s, w, 2 * s.games[g].bet, 0, -1);
    UpdateConserves(s1, l, 0, 0, -1);
    AccountGone(Update(s1, l, 0, 0, -1).accounts, l);
    GameGone(s.games, g);
    OfferGone(s.offers, winner);
    OfferGone(s.offers - {winner}, loser);
    assert s.offers - {winner, loser} == s.offers - {winner} - {loser};
  }

  lemma DepositConserves(s: State, x: Name, amount: int)
    requires Conserved(s) && Deposit(s, x, amount).Some?
    ensures Conserved(Deposit(s, x, amount).value)
  {
    hide Sum, BetColumn, BalanceColumn, StakeColumn;
    AccountSums(s.accounts, x, Account(0, 0, 0));
    var s1 := if x in s.accounts then s else s.(accounts := s.accounts[x := Account(0, 0, 0)]);
    UpdateConserves(s1, x, amount, 0, 0);
  }

  lemma WithdrawConserves(s: State, x: Name, amount: int)
    requires Conserved(s) && Withdraw(s, x, amount).Some?
    ensures Conserved(Withdraw(s, x, amount).value)
  {
    hide Sum, BetColumn, BalanceColumn, StakeColumn;
    UpdateConserves(s, x, -amount, 0, 0);
    AccountGone(Update(s, x, -amount, 0, 0).accounts, x);
  }

  // ---------------------------------------------------------------- counts

  lemma OfferBetCounts(s: State, id: nat, player: Name, bet: int, c: Hash, x: Name)
    requires Booked(s) && CountedFor(s, x) && OfferBet(s, id, player, bet, c).Some?
    ensures CountedFor(OfferBet(s, id, player, bet, c).value, x)
  {
    hide Sum, OpenColumn, PlayColumn, SoundGame;
    var k := Matched(s, player, bet);
    if k.None? {
      OfferCounts(s.offers, id, Offer(player, bet, c, 0), x);
    } else {
      var m := s.offers[k.value];
      assert SoundOffer(s, k.value);
      var m' := m.(bet := 0, gameid := s.nextGame + 1);
      OfferCounts(s.offers, k.value, m', x);
      OfferCounts(s.offers[k.value := m'], id, Offer(player, 0, c, s.nextGame + 1), x);
    }
  }

  lemma CancelCounts(s: State, c: Hash, x: Name)
    requires CountedFor(s, x) && CancelOffer(s, c).Some?
    ensures CountedFor(CancelOffer(s, c).value, x)
  {
    hide Sum, OpenColumn, PlayColumn;
    OfferUncounted(s.offers, OfferWith(s.offers, c).value, x);
  }

  lemma PayCounts(s: State, g: nat, winner: nat, loser: nat, x: Name)
    requires CountedFor(s, x) && g in s.games && winner in s.offers && loser in s.offers
    requires s.offers[winner].gameid != 0 && s.offers[loser].gameid != 0
    requires s.offers[winner].owner != s.offers[loser].owner
    requires PayAndClean(s, g, winner, loser).Some?
    ensures CountedFor(PayAndClean(s, g, winner, loser).value, x)
  {
    hide Sum, OpenColumn, PlayColumn;
    OfferUncounted(s.offers, winner, x);
    OfferUncounted(s.offers - {winner}, loser, x);
    assert s.offers - {winner, loser} == s.offers - {winner} - {loser};
  }

  /** A count is never negative, so a decrement that the invariant accounts for never underflows. */
  lemma CountsNonNegative(s: State, x: Name)
    requires Counted(s) && x in s.accounts
    ensures s.accounts[x].openOffers >= 0 && s.accounts[x].openGames >= 0
  {
    hide Sum;
    assert CountedFor(s, x);
    SumNonNegative(OpenColumn(s.offers, x));
    SumNonNegative(PlayColumn(s.offers, x));
  }

  /** Whoever owns an offer or sits in a game has a positive count, so the account row is not empty and
      is never erased from under it. */
  lemma OwnerIsCounted(s: State, k: nat)
    requires Booked(s) && Counted(s) && k in s.offers
    ensures var a := s.accounts[s.offers[k].owner];
            s.offers[k].owner in s.accounts && !a.IsEmpty() &&
            (if s.offers[k].gameid == 0 then a.openOffers >= 1 else a.openGames >= 1)
  {
    hide Sum, SoundGame, OpenColumn, PlayColumn, Unique, NoneMissed;
    assert SoundOffer(s, k);
    var x := s.offers[k].owner;
    OfferIsCounted(s.offers, k, x);
    assert CountedFor(s, x);
  }

  // ---------------------------------------------------------------- the book

  /** Games whose offers are untouched stay seated. */
  lemma SeatsKept(s: State, s': State, g: nat)
    requires g in s.games && g in s'.games && s'.games[g] == s.games[g] && SoundGame(s, g) && s'.nextGame >= s.nextGame
    requires forall k <- s.offers :: s.offers[k].gameid == g ==> k in s'.offers && s'.offers[k] == s.offers[k]
    ensures SoundGame(s', g)
  {
    var k1, k2 :| Seated(s, g, k1, k2);
    assert Seated(s', g, k1, k2);
  }

  lemma OpenOfferNoneMissed(s: State, id: nat, player: Name, bet: int, c: Hash)
    requires Booked(s) && FreshKey(s.offers, id) && bet > 0 && Matched(s, player, bet).None?
    ensures NoneMissed(s.offers[id := Offer(player, bet, c, 0)])
  {
    hide SoundGame;
    forall k <- s.offers | s.offers[k].gameid == 0 && s.offers[k].bet == bet ensures s.offers[k].owner == player {
      var l := Lowest(s.offers, bet);
      assert SoundOffer(s, l.value) && SoundOffer(s, k);
    }
  }

  lemma UniqueAdd(offers: map<nat, Offer>, id: nat, o: Offer)
    requires Unique(offers) && FreshKey(offers, id) && !HasCommitment(offers, o.commitment)
    ensures Unique(offers[id := o])
  {
  }

  lemma OpenOfferBooked(s: State, id: nat, player: Name, bet: int, c: Hash)
    requires Booked(s) && OfferBet(s, id, player, bet, c).Some? && Matched(s, player, bet).None?
    ensures Booked(OfferBet(s, id, player, bet, c).value)
  {
    hide Unique, NoneMissed, SoundGame;
    var s' := OfferBet(s, id, player, bet, c).value;
    forall g <- s'.games ensures SoundGame(s', g) {
      assert SoundGame(s, g);
      SeatsKept(s, s', g);
    }
    forall k <- s'.offers ensures SoundOffer(s', k) {
      if k != id { assert SoundOffer(s, k); }
    }
    OpenOfferNoneMissed(s, id, player, bet, c);
    UniqueAdd(s.offers, id, Offer(player, bet, c, 0));
  }

  lemma PairUnique(s: State, k: nat, id: nat, player: Name, bet: int, c: Hash)
    requires Unique(s.offers) && NoneMissed(s.offers) && k in s.offers && FreshKey(s.offers, id)
    requires !HasCommitment(s.offers, c)
    ensures Unique(Pair(s, k, id, player, bet, c).offers) && NoneMissed(Pair(s, k, id, player, bet, c).offers)
  {
    UniqueAdd(s.offers, id, Offer(player, 0, c, s.nextGame + 1));
  }

  lemma PairSeats(s: State, k: nat, id: nat, player: Name, bet: int, c: Hash, g: nat)
    requires Booked(s) && k in s.offers && s.offers[k].owner != player && s.offers[k].gameid == 0
    requires FreshKey(s.offers, id)
    requires bet > 0 && !HasCommitment(s.offers, c)
    requires g in Pair(s, k, id, player, bet, c).games
    ensures SoundGame(Pair(s, k, id, player, bet, c), g)
  {
    hide SoundOffer, Unique, NoneMissed;
    var s' := Pair(s, k, id, player, bet, c);
    if g == s'.nextGame {
      assert Seated(s', g, k, id);
    } else {
      assert SoundGame(s, g);
      SeatsKept(s, s', g);
    }
  }

  lemma MatchedOfferBooked(s: State, id: nat, player: Name, bet: int, c: Hash)
    requires Booked(s) && OfferBet(s, id, player, bet, c).Some? && Matched(s, player, bet).Some?
    ensures Booked(OfferBet(s, id, player, bet, c).value)
  {
    hide Unique, NoneMissed, SoundGame;
    var s' := OfferBet(s, id, player, bet, c).value;
    var k0 := Matched(s, player, bet).value;
    assert SoundOffer(s, k0);
    NextGameIsNew(s);
    var p := Pair(s, k0, id, player, bet, c);
    forall g <- s'.games ensures SoundGame(s', g) {
      PairSeats(s, k0, id, player, bet, c, g);
      SeatsKept(p, s', g);
    }
    forall k <- s'.offers ensures SoundOffer(s', k) {
      if k != id { assert SoundOffer(s, k); }
    }
    PairUnique(s, k0, id, player, bet, c);
  }

  lemma CancelBooked(s: State, c: Hash)
    requires Booked(s) && CancelOffer(s, c).Some?
    ensures Booked(CancelOffer(s, c).value)
  {
    hide SoundGame;
    var s' := CancelOffer(s, c).value;
    var k0 := OfferWith(s.offers, c).value;
    assert SoundOffer(s, k0);
    forall g <- s'.games ensures SoundGame(s', g) {
      assert SoundGame(s, g);
      StakesArePositive(s, g);
      SeatsKept(s, s', g);
    }
    forall k <- s'.offers ensures SoundOffer(s', k) {
      assert SoundOffer(s, k);
    }
  }

  /** The two offers of a game, found by the commitments in its seats. */
  lemma SeatsFound(s: State, g: nat)
    requires Booked(s) && g in s.games
    ensures var k1, k2 := OfferWith(s.offers, s.games[g].player1.commitment),
            OfferWith(s.offers, s.games[g].player2.commitment);
            k1.Some? && k2.Some? && Seated(s, g, k1.value, k2.value)
    ensures forall k <- s.offers :: s.offers[k].gameid == g ==>
              k == OfferWith(s.offers, s.games[g].player1.commitment).value ||
              k == OfferWith(s.offers, s.games[g].player2.commitment).value
  {
    assert SoundGame(s, g);
    var k1, k2 :| Seated(s, g, k1, k2);
    forall k <- s.offers | s.offers[k].gameid == g ensures k == k1 || k == k2 {
      assert SoundOffer(s, k);
    }
  }

  lemma PayBooked(s: State, g: nat, winner: nat, loser: nat)
    requires Booked(s) && Counted(s) && g in s.games && winner in s.offers && loser in s.offers
    requires Seated(s, g, winner, loser) || Seated(s, g, loser, winner)
    requires forall k <- s.offers :: s.offers[k].gameid == g ==> k == winner || k == loser
    requires PayAndClean(s, g, winner, loser).Some?
    ensures Booked(PayAndClean(s, g, winner, loser).value)
  {
    hide Sum, Counted, SoundGame, SoundOffer, Unique, NoneMissed;
    var s' := PayAndClean(s, g, winner, loser).value;
    StakesArePositive(s, g);
    forall h <- s'.games ensures SoundGame(s', h) {
      SeatsKept(s, s', h);
    }
    forall k <- s'.offers ensures SoundOffer(s', k) {
      OthersKeepAccount(s, g, winner, loser, k);
      StillSound(s, s', g, k);
    }
    assert Unique(s'.offers) && NoneMissed(s'.offers) by { FewerOffers(s.offers, {winner, loser}); }
  }

  lemma StakesArePositive(s: State, g: nat)
    requires g in s.games && SoundGame(s, g)
    ensures s.games[g].bet > 0 && g > 0
  {
  }

  lemma StillSound(s: State, s': State, g: nat, k: nat)
    requires k in s.offers && k in s'.offers && s'.offers[k] == s.offers[k] && s.offers[k].gameid != g
    requires SoundOffer(s, k) && s'.games == s.games - {g} && s.offers[k].owner in s'.accounts
    ensures SoundOffer(s', k)
  {
  }

  lemma FewerOffers(offers: map<nat, Offer>, gone: set<nat>)
    requires Unique(offers) && NoneMissed(offers)
    ensures Unique(offers - gone) && NoneMissed(offers - gone)
  {
  }

  /** Settling a game does not erase the account of anyone else's remaining offer. */
  lemma OthersKeepAccount(s: State, g: nat, winner: nat, loser: nat, k: nat)
    requires Booked(s) && Counted(s) && g in s.games && winner in s.offers && loser in s.offers
    requires s.offers[winner].gameid != 0 && s.offers[loser].gameid != 0
    requires s.offers[winner].owner != s.offers[loser].owner
    requires k in s.offers && k != winner && k != loser && PayAndClean(s, g, winner, loser).Some?
    ensures s.offers[k].owner in PayAndClean(s, g, winner, loser).value.accounts
  {
    hide Sum, OpenColumn, PlayColumn, SoundGame;
    var x := s.offers[k].owner;
    var s' := PayAndClean(s, g, winner, loser).value;
    assert SoundOffer(s, k);
    assert CountedFor(s, x);
    PayCounts(s, g, winner, loser, x);
    OfferIsCounted(s'.offers, k, x);
  }

  lemma OfferIsCounted(offers: map<nat, Offer>, k: nat, x: Name)
    requires k in offers && offers[k].owner == x
    ensures Sum(OpenColumn(offers, x)) >= Opens(offers[k], x) && Sum(PlayColumn(offers, x)) >= Plays(offers[k], x)
  {
    hide Sum;
    SumNonNegative(OpenColumn(offers, x));
    SumNonNegative(PlayColumn(offers, x));
    assert OpenColumn(offers, x)[k] == Opens(offers[k], x);
    assert PlayColumn(offers, x)[k] == Plays(offers[k], x);
  }

  lemma OpenedBooked(s: State, g: nat, c: Hash, source: Hash, now: nat)
    requires Booked(s) && g in s.games
    requires c == s.games[g].player1.commitment || c == s.games[g].player2.commitment
    requires (if c == s.games[g].player1.commitment then s.games[g].player2 else s.games[g].player1).secret == 0
    ensures Booked(s.(games := s.games[g := Opened(s.games[g], c, source, now)]))
  {
    hide Unique, NoneMissed, SoundGame, SoundOffer;
    var s' := s.(games := s.games[g := Opened(s.games[g], c, source, now)]);
    forall h <- s'.games ensures SoundGame(s', h) {
      if h == g { OpenedSeats(s, g, c, source, now); } else { SeatsKept(s, s', h); }
    }
    forall k <- s'.offers ensures SoundOffer(s', k) {
      OpenedOffers(s, g, c, source, now, k);
    }
  }

  lemma OpenedSeats(s: State, g: nat, c: Hash, source: Hash, now: nat)
    requires g in s.games && SoundGame(s, g)
    requires c == s.games[g].player1.commitment || c == s.games[g].player2.commitment
    requires (if c == s.games[g].player1.commitment then s.games[g].player2 else s.games[g].player1).secret == 0
    ensures SoundGame(s.(games := s.games[g := Opened(s.games[g], c, source, now)]), g)
  {
    var k1, k2 :| Seated(s, g, k1, k2);
    assert Seated(s.(games := s.games[g := Opened(s.games[g], c, source, now)]), g, k1, k2);
  }

  lemma OpenedOffers(s: State, g: nat, c: Hash, source: Hash, now: nat, k: nat)
    requires g in s.games && k in s.offers && SoundOffer(s, k)
    ensures SoundOffer(s.(games := s.games[g := Opened(s.games[g], c, source, now)]), k)
  {
  }

  lemma DepositBooked(s: State, x: Name, amount: int)
    requires Booked(s) && Deposit(s, x, amount).Some?
    ensures Booked(Deposit(s, x, amount).value)
  {
    hide Unique, NoneMissed, SoundGame;
    var s' := Deposit(s, x, amount).value;
    forall g <- s'.games ensures SoundGame(s', g) { SeatsKept(s, s', g); }
    forall k <- s'.offers ensures SoundOffer(s', k) { assert SoundOffer(s, k); }
  }

  lemma WithdrawBooked(s: State, x: Name, amount: int)
    requires Booked(s) && Counted(s) && Withdraw(s, x, amount).Some?
    ensures Booked(Withdraw(s, x, amount).value)
  {
    hide Unique, NoneMissed, SoundGame, Counted;
    var s' := Withdraw(s, x, amount).value;
    forall g <- s'.games ensures SoundGame(s', g) { SeatsKept(s, s', g); }
    forall k <- s'.offers ensures SoundOffer(s', k) {
      assert SoundOffer(s, k);
      OwnerIsCounted(s, k);
    }
  }

  // ---------------------------------------------------------------- runs

  datatype Action =
    | Offering(id: nat, player: Name, bet: int, c: Hash)
    | Cancelling(c: Hash)
    | Revealing(c: Hash, source: Hash, hashOk: bool, coin: (Seat, Seat) -> bool, now: nat)
    | Claiming(gameid: nat, now: nat)
    | Depositing(player: Name, amount: int)
    | Withdrawing(player: Name, amount: int)

  ghost function Attempt(s: State, a: Action): Option<State> {
    match a
    case Offering(id, player, bet, c) => OfferBet(s, id, player, bet, c)
    case Cancelling(c) => CancelOffer(s, c)
    case Revealing(c, source, hashOk, coin, now) => Reveal(s, c, source, hashOk, coin, now)
    case Claiming(g, now) => ClaimExpired(s, g, now)
    case Depositing(x, amount) => Deposit(s, x, amount)
    case Withdrawing(x, amount) => Withdraw(s, x, amount)
  }

  ghost function Exec(s: State, a: Action): State {
    var r := Attempt(s, a);
    if r.Some? then r.value else s
  }

  ghost function Run(s: State, run: seq<Action>): State
    decreases |run|
  {
    if run == [] then s else Run(Exec(s, run[0]), run[1..])
  }

  lemma OfferBetKeepsInv(s: State, id: nat, player: Name, bet: int, c: Hash)
    requires Inv(s) && OfferBet(s, id, player, bet, c).Some?
    ensures Inv(OfferBet(s, id, player, bet, c).value)
  {
    hide Booked, Conserved, Sum, OfferBet, OpenColumn, PlayColumn;
    OfferBetConserves(s, id, player, bet, c);
    if Matched(s, player, bet).None? {
      OpenOfferBooked(s, id, player, bet, c);
    } else {
      MatchedOfferBooked(s, id, player, bet, c);
    }
    var s' := OfferBet(s, id, player, bet, c).value;
    forall x: Name ensures CountedFor(s', x) {
      assert CountedFor(s, x);
      OfferBetCounts(s, id, player, bet, c, x);
    }
  }

  lemma CancelKeepsInv(s: State, c: Hash)
    requires Inv(s) && CancelOffer(s, c).Some?
    ensures Inv(CancelOffer(s, c).value)
  {
    hide Booked, Conserved, Sum, CancelOffer, OpenColumn, PlayColumn;
    CancelConserves(s, c);
    CancelBooked(s, c);
    forall x: Name ensures CountedFor(CancelOffer(s, c).value, x) {
      assert CountedFor(s, x);
      CancelCounts(s, c, x);
    }
  }

  /** Settling a game between its two offers, either way, succeeds and keeps the invariant. */
  lemma PayKeepsInv(s: State, g: nat, winner: nat, loser: nat)
    requires Inv(s) && g in s.games && winner in s.offers && loser in s.offers
    requires Seated(s, g, winner, loser) || Seated(s, g, loser, winner)
    ensures PayAndClean(s, g, winner, loser).Some? && Inv(PayAndClean(s, g, winner, loser).value)
  {
    hide Conserved, Sum, OpenColumn, PlayColumn, SoundGame, Unique, NoneMissed;
    assert SoundOffer(s, winner) && SoundOffer(s, loser);
    StakesArePositive(s, g);
    assert PayAndClean(s, g, winner, loser).Some?;
    SeatsFound(s, g);
    SameOffer(s, winner, loser, g);
    hide Booked, PayAndClean;
    PayConserves(s, g, winner, loser);
    PayBooked(s, g, winner, loser);
    forall x: Name ensures CountedFor(PayAndClean(s, g, winner, loser).value, x) {
      assert CountedFor(s, x);
      PayCounts(s, g, winner, loser, x);
    }
  }

  lemma SameOffer(s: State, winner: nat, loser: nat, g: nat)
    requires Unique(s.offers) && g in s.games && (Seated(s, g, winner, loser) || Seated(s, g, loser, winner))
    ensures {OfferWith(s.offers, s.games[g].player1.commitment), OfferWith(s.offers, s.games[g].player2.commitment)} ==
            {Some(winner), Some(loser)}
  {
  }

  function SeatOf(game: Game, c: Hash): Seat { if game.player1.commitment == c then game.player1 else game.player2 }
  function OtherSeat(game: Game, c: Hash): Seat { if game.player1.commitment == c then game.player2 else game.player1 }

  /** A secret that matches its commitment is taken exactly when that commitment is in a game and has no
      nonzero secret yet: neither seat nor account is ever missing. */
  lemma RevealKeepsInv(s: State, c: Hash, source: Hash, hashOk: bool, coin: (Seat, Seat) -> bool, now: nat)
    requires Inv(s)
    ensures var k := OfferWith(s.offers, c);
            var r := Reveal(s, c, source, hashOk, coin, now);
            && (k.Some? && s.offers[k.value].gameid != 0 ==> s.offers[k.value].gameid in s.games)
            && (r.Some? <==>
                  hashOk && k.Some? && s.offers[k.value].gameid != 0
                    && SeatOf(s.games[s.offers[k.value].gameid], c).secret == 0)
            && (r.Some? ==> Inv(r.value))
  {
    hide Conserved, Counted, SoundGame, Unique, NoneMissed, PayAndClean;
    var k := OfferWith(s.offers, c);
    if k.Some? && s.offers[k.value].gameid != 0 {
      var g := s.offers[k.value].gameid;
      assert SoundOffer(s, k.value);
      SeatsFound(s, g);
      var game := s.games[g];
      var k1, k2 := OfferWith(s.offers, game.player1.commitment).value,
          OfferWith(s.offers, game.player2.commitment).value;
      PayKeepsInv(s, g, k1, k2);
      PayKeepsInv(s, g, k2, k1);
      var prev := if game.player1.commitment == c then game.player2 else game.player1;
      if prev.secret == 0 {
        OpenedBooked(s, g, c, source, now);
        OpenedKeepsSums(s, g, Opened(game, c, source, now));
      }
    }
  }

  lemma OpenedKeepsSums(s: State, g: nat, game: Game)
    requires Conserved(s) && Counted(s) && g in s.games && game.bet == s.games[g].bet
    ensures Conserved(s.(games := s.games[g := game])) && Counted(s.(games := s.games[g := game]))
  {
    hide Sum;
    GameSums(s.games, g, game);
    var s' := s.(games := s.games[g := game]);
    forall x: Name ensures CountedFor(s', x) { assert CountedFor(s, x); }
  }

  /** An expired game can always be claimed: neither seat nor account is ever missing. */
  lemma ClaimKeepsInv(s: State, g: nat, now: nat)
    requires Inv(s)
    ensures var r := ClaimExpired(s, g, now);
            && (r.Some? <==> g in s.games && s.games[g].deadline != 0 && now > s.games[g].deadline)
            && (r.Some? ==> Inv(r.value))
  {
    hide Conserved, Counted, Unique, NoneMissed, PayAndClean;
    if g in s.games {
      SeatsFound(s, g);
      assert SoundGame(s, g);
      var game := s.games[g];
      var k1, k2 := OfferWith(s.offers, game.player1.commitment).value,
          OfferWith(s.offers, game.player2.commitment).value;
      PayKeepsInv(s, g, k1, k2);
      PayKeepsInv(s, g, k2, k1);
    }
  }

  lemma DepositKeepsInv(s: State, x: Name, amount: int)
    requires Inv(s) && Deposit(s, x, amount).Some?
    ensures Inv(Deposit(s, x, amount).value)
  {
    hide Sum, OpenColumn, PlayColumn, Booked, Conserved;
    DepositConserves(s, x, amount);
    DepositBooked(s, x, amount);
    forall y: Name ensures CountedFor(Deposit(s, x, amount).value, y) { assert CountedFor(s, y); }
  }

  lemma WithdrawKeepsInv(s: State, x: Name, amount: int)
    requires Inv(s) && Withdraw(s, x, amount).Some?
    ensures Inv(Withdraw(s, x, amount).value)
  {
    hide Sum, OpenColumn, PlayColumn, Booked, Conserved;
    WithdrawConserves(s, x, amount);
    WithdrawBooked(s, x, amount);
    forall y: Name ensures CountedFor(Withdraw(s, x, amount).value, y) { assert CountedFor(s, y); }
  }

  lemma ActionKeepsInv(s: State, a: Action)
    requires Inv(s)
    ensures Inv(Exec(s, a))
  {
    hide Inv, OfferBet, CancelOffer, Reveal, ClaimExpired, Deposit, Withdraw;
    match a
    case Offering(id, player, bet, c) =>
      if OfferBet(s, id, player, bet, c).Some? { OfferBetKeepsInv(s, id, player, bet, c); }
    case Cancelling(c) => if CancelOffer(s, c).Some? { CancelKeepsInv(s, c); }
    case Revealing(c, source, hashOk, coin, now) => RevealKeepsInv(s, c, source, hashOk, coin, now);
    case Claiming(g, now) => ClaimKeepsInv(s, g, now);
    case Depositing(x, amount) => if Deposit(s, x, amount).Some? { DepositKeepsInv(s, x, amount); }
    case Withdrawing(x, amount) => if Withdraw(s, x, amount).Some? { WithdrawKeepsInv(s, x, amount); }
  }

  /** In every run from the empty contract: escrow is conserved, the counters are right, no match is
      missed, and every game has its two players. */
  lemma {:induction false} RunKeepsInv(s: State, run: seq<Action>)
    requires Inv(s)
    ensures Inv(Run(s, run))
    decreases |run|
  {
    hide Inv, Exec;
    if run != [] {
      ActionKeepsInv(s, run[0]);
      RunKeepsInv(Exec(s, run[0]), run[1..]);
    }
  }

  lemma EmptyKeepsInv()
    ensures Inv(EMPTY)
  {
    forall x: Name ensures CountedFor(EMPTY, x) {
      SumZero(OpenColumn(map[], x));
      SumZero(PlayColumn(map[], x));
    }
    SumZero(BalanceColumn(map[]));
    SumZero(BetColumn(map[]));
    SumZero(StakeColumn(map[]));
  }
}
