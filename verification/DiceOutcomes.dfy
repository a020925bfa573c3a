/** How games end: who is paid, when that is settled, and when nobody can be paid. */
module DiceOutcomes {
  import opened Sums
  import opened Dice
  import opened DiceRuns

  // ---------------------------------------------------------------- what an action does to a game

  /** Nobody's secret for game `g` is revealed by `a`. */
  predicate Silent(a: Action, game: Game) {
    a.Revealing? ==> a.c != game.player1.commitment && a.c != game.player2.commitment
  }

  /** The offers of game `g` are what they were. */
  ghost predicate SameSeats(s: State, s': State, g: nat) {
    forall k <- s.offers :: s.offers[k].gameid == g ==> k in s'.offers && s'.offers[k] == s.offers[k]
  }

  /** Game `g`, played or over, is over or as it was, with the same offers. */
  ghost predicate Pinned(s: State, s': State, g: nat) {
    g <= s'.nextGame && (g in s'.games ==> g in s.games && s'.games[g] == s.games[g] && SameSeats(s, s', g))
  }

  lemma OfferPins(s: State, id: nat, player: Name, bet: int, c: Hash, g: nat)
    requires Inv(s) && 1 <= g <= s.nextGame && OfferBet(s, id, player, bet, c).Some?
    ensures var s' := OfferBet(s, id, player, bet, c).value;
            Pinned(s, s', g) && (g in s.games ==> g in s'.games)
  {
    hide Conserved, Counted, SoundGame, Unique, NoneMissed;
    var k := Matched(s, player, bet);
    if k.Some? { assert SoundOffer(s, k.value); }
  }

  lemma PayPins(s: State, h: nat, winner: nat, loser: nat, g: nat)
    requires Inv(s) && h in s.games && winner in s.offers && loser in s.offers && g <= s.nextGame
    requires s.offers[winner].gameid == h && s.offers[loser].gameid == h && PayAndClean(s, h, winner, loser).Some?
    ensures var s' := PayAndClean(s, h, winner, loser).value;
            Pinned(s, s', g) && (g in s'.games <==> g in s.games && g != h)
  {
    hide Conserved, Counted, SoundGame, Unique, NoneMissed, SoundOffer;
  }

  /** What a reveal for the game `h` does. */
  lemma RevealSettles(s: State, c: Hash, source: Hash, coin: (Seat, Seat) -> bool, now: nat)
    requires Inv(s) && HasCommitment(s.offers, c) && s.offers[OfferWith(s.offers, c).value].gameid != 0
    ensures var k := OfferWith(s.offers, c).value;
            var h := s.offers[k].gameid;
            && h in s.games && (c == s.games[h].player1.commitment || c == s.games[h].player2.commitment)
            && var game := s.games[h];
            var j := OfferWith(s.offers, OtherSeat(game, c).commitment);
            && j.Some? && j.value != k && s.offers[j.value].gameid == h
            && var r := Reveal(s, c, source, true, coin, now);
            r == if SeatOf(game, c).secret != 0 then None
                 else if OtherSeat(game, c).secret == 0 then
                   Some(s.(games := s.games[h := Opened(game, c, source, now)]))
                 else if coin(game.player1, game.player2) then PayAndClean(s, h, k, j.value)
                 else PayAndClean(s, h, j.value, k)
  {
    hide Conserved, Counted, Unique, NoneMissed, PayAndClean, SoundGame;
    var k := OfferWith(s.offers, c).value;
    assert SoundOffer(s, k);
    SeatsFound(s, s.offers[k].gameid);
  }

  lemma RevealPins(s: State, c: Hash, source: Hash, hashOk: bool, coin: (Seat, Seat) -> bool, now: nat, g: nat)
    requires Inv(s) && 1 <= g <= s.nextGame && Reveal(s, c, source, hashOk, coin, now).Some?
    ensures var s' := Reveal(s, c, source, hashOk, coin, now).value;
            && (Pinned(s, s', g) || (g in s.games && g in s'.games && OtherSeat(s.games[g], c).secret == 0
                                     && (c == s.games[g].player1.commitment || c == s.games[g].player2.commitment)
                                     && SeatOf(s.games[g], c).secret == 0))
            && (g in s.games && c != s.games[g].player1.commitment && c != s.games[g].player2.commitment ==>
                  Pinned(s, s', g) && g in s'.games)
  {
    hide Inv, PayAndClean, Reveal, SameSeats;
    assert HasCommitment(s.offers, c) && s.offers[OfferWith(s.offers, c).value].gameid != 0
           && hashOk by { RevealKeepsInv(s, c, source, hashOk, coin, now); }
    RevealSettles(s, c, source, coin, now);
    var k := OfferWith(s.offers, c).value;
    var h := s.offers[k].gameid;
    var j := OfferWith(s.offers, OtherSeat(s.games[h], c).commitment).value;
    if OtherSeat(s.games[h], c).secret == 0 {
      SeatsUntouched(s, s.(games := s.games[h := Opened(s.games[h], c, source, now)]), g);
    } else if coin(s.games[h].player1, s.games[h].player2) {
      PayPins(s, h, k, j, g);
    } else {
      PayPins(s, h, j, k, g);
    }
  }

  lemma SeatsUntouched(s: State, s': State, g: nat)
    requires s'.offers == s.offers
    ensures SameSeats(s, s', g)
  {
  }

  lemma ClaimPins(s: State, h: nat, now: nat, g: nat)
    requires Inv(s) && 1 <= g <= s.nextGame && ClaimExpired(s, h, now).Some?
    ensures var s' := ClaimExpired(s, h, now).value;
            Pinned(s, s', g) && (g in s.games && s.games[g].deadline == 0 ==> g in s'.games)
  {
    hide Conserved, Counted, Unique, NoneMissed, PayAndClean, SoundGame, SoundOffer, SameSeats;
    SeatsFound(s, h);
    var k1, k2 := OfferWith(s.offers, s.games[h].player1.commitment).value,
        OfferWith(s.offers, s.games[h].player2.commitment).value;
    if s.games[h].player1.secret != 0 {
      PayPins(s, h, k1, k2, g);
    } else {
      PayPins(s, h, k2, k1, g);
    }
  }

  lemma OthersPin(s: State, a: Action, g: nat)
    requires Inv(s) && 1 <= g <= s.nextGame && (a.Cancelling? || a.Depositing? || a.Withdrawing?)
    ensures Pinned(s, Exec(s, a), g) && (g in s.games ==> g in Exec(s, a).games)
  {
    hide Inv;
  }

  /** No action but a first reveal changes a live game: it ends it or leaves it and its offers alone. */
  lemma ActionPins(s: State, a: Action, g: nat)
    requires Inv(s) && 1 <= g <= s.nextGame
    ensures var s' := Exec(s, a);
            && (Pinned(s, s', g) || (a.Revealing? && g in s.games && !Silent(a, s.games[g])
                                     && SeatOf(s.games[g], a.c).secret == 0 && OtherSeat(s.games[g], a.c).secret == 0))
            && (g in s.games && s.games[g].deadline == 0 && Silent(a, s.games[g]) ==> Pinned(s, s', g) && g in s'.games)
  {
    hide Inv, OfferBet, CancelOffer, Reveal, ClaimExpired, Deposit, Withdraw, SameSeats;
    SeatsUntouched(s, s, g);
    match a
    case Offering(id, player, bet, c) =>
      if OfferBet(s, id, player, bet, c).Some? { OfferPins(s, id, player, bet, c, g); }
    case Cancelling(c) => OthersPin(s, a, g);
    case Revealing(c, source, hashOk, coin, now) =>
      if Reveal(s, c, source, hashOk, coin, now).Some? { RevealPins(s, c, source, hashOk, coin, now, g); }
    case Claiming(h, now) =>
      if ClaimExpired(s, h, now).Some? { ClaimPins(s, h, now, g); }
    case Depositing(x, amount) => OthersPin(s, a, g);
    case Withdrawing(x, amount) => OthersPin(s, a, g);
  }

  // ---------------------------------------------------------------- locked stakes

  lemma GameNumber(s: State, g: nat)
    requires Inv(s) && g in s.games
    ensures 1 <= g <= s.nextGame && s.games[g].player1.commitment != s.games[g].player2.commitment
  {
    assert SoundGame(s, g);
  }

  /** A game nobody revealed anything for can be ended by nothing but a reveal: as long as neither player
      reveals, it stays, both stakes stay in it, and no claim can take them out. */
  lemma {:induction false} StakesStayLocked(s: State, run: seq<Action>, g: nat)
    requires Inv(s) && g in s.games && s.games[g].deadline == 0 && forall a <- run :: Silent(a, s.games[g])
    ensures var s' := Run(s, run);
            g in s'.games && s'.games[g] == s.games[g] && forall now :: ClaimExpired(s', g, now) == None
    decreases |run|
  {
    hide Inv, Exec, Silent, SameSeats;
    if run != [] {
      GameNumber(s, g);
      ActionPins(s, run[0], g);
      assert Inv(Exec(s, run[0])) by { ActionKeepsInv(s, run[0]); }
      StakesStayLocked(Exec(s, run[0]), run[1..], g);
    }
  }

  // ---------------------------------------------------------------- the winner

  lemma {:induction false} PinnedAlong(s: State, run: seq<Action>, g: nat)
    requires Inv(s) && 1 <= g <= s.nextGame
    requires g in s.games ==> s.games[g].player1.secret != 0 || s.games[g].player2.secret != 0
    ensures Pinned(s, Run(s, run), g) && Inv(Run(s, run))
    decreases |run|
  {
    hide Inv, Exec, SameSeats;
    if run == [] {
      SeatsUntouched(s, s, g);
    } else {
      var s' := Exec(s, run[0]);
      ActionPins(s, run[0], g);
      ActionKeepsInv(s, run[0]);
      PinnedAlong(s', run[1..], g);
      if g in Run(s, run).games { SeatsThrough(s, s', Run(s, run), g); }
    }
  }

  lemma SeatsThrough(s: State, s1: State, s2: State, g: nat)
    requires SameSeats(s, s1, g) && SameSeats(s1, s2, g)
    ensures SameSeats(s, s2, g)
  {
  }

  /** From the first reveal of a nonzero secret on, the winner is settled. Whatever happens in between, when
      the other player reveals, with whatever secret and whenever, the same offer is paid. */
  lemma WinnerIsFixed(s: State, g: nat, c: Hash, run: seq<Action>, source: Hash, coin: (Seat, Seat) -> bool, now: nat)
    requires Inv(s) && g in s.games && (c == s.games[g].player1.commitment || c == s.games[g].player2.commitment)
    requires OtherSeat(s.games[g], c).secret != 0 && g in Run(s, run).games
    ensures var s' := Run(s, run);
            var k, j := OfferWith(s.offers, c), OfferWith(s.offers, OtherSeat(s.games[g], c).commitment);
            && k.Some? && j.Some? && k.value in s'.offers && j.value in s'.offers
            && s'.offers[k.value] == s.offers[k.value] && s'.offers[j.value] == s.offers[j.value]
            && Reveal(s', c, source, true, coin, now) ==
               if coin(s.games[g].player1, s.games[g].player2) then PayAndClean(s', g, k.value, j.value)
               else PayAndClean(s', g, j.value, k.value)
  {
    hide Conserved, Counted, NoneMissed, SoundOffer, PayAndClean, Reveal, Run;
    GameNumber(s, g);
    SeatsFound(s, g);
    PinnedAlong(s, run, g);
    var s' := Run(s, run);
    var k, j := OfferWith(s.offers, c).value, OfferWith(s.offers, OtherSeat(s.games[g], c).commitment).value;
    assert s'.offers[k].commitment == c && s'.offers[j].commitment == OtherSeat(s.games[g], c).commitment;
    SameOfferFound(s'.offers, k, c);
    SameOfferFound(s'.offers, j, s'.offers[j].commitment);
    OneSecret(s, g, c);
    RevealSettles(s', c, source, coin, now);
  }

  lemma SameOfferFound(offers: map<nat, Offer>, k: nat, c: Hash)
    requires Unique(offers) && k in offers && offers[k].commitment == c
    ensures HasCommitment(offers, c) && OfferWith(offers, c) == Some(k)
  {
  }

  lemma OneSecret(s: State, g: nat, c: Hash)
    requires Inv(s) && g in s.games && OtherSeat(s.games[g], c).secret != 0
    ensures SeatOf(s.games[g], c).secret == 0
  {
    assert SoundGame(s, g);
  }

  // ---------------------------------------------------------------- after the deadline

  lemma PayoutsDiffer(s: State, g: nat, k: nat, j: nat)
    requires g in s.games && k in s.offers && j in s.offers && s.games[g].bet > 0
    requires s.offers[k].owner != s.offers[j].owner && s.offers[k].owner in s.accounts
    requires s.offers[j].owner in s.accounts
    requires s.accounts[s.offers[k].owner].balance >= 0
    ensures PayAndClean(s, g, k, j) != PayAndClean(s, g, j, k)
  {
    var w, l := PayAndClean(s, g, k, j).value, PayAndClean(s, g, j, k).value;
    var x := s.offers[k].owner;
    assert w.accounts[x].balance == s.accounts[x].balance + 2 * s.games[g].bet;
    assert x in l.accounts ==> l.accounts[x].balance == s.accounts[x].balance;
  }

  /** After the deadline the first to reveal is meant to win. The contract pays the first revealer if
      and only if the revealed secret is not all zero or the revealer holds the second seat: an
      all-zero secret in the first seat counts as no reveal at all. */
  lemma ExpiryPaysFirstRevealer(s: State, c: Hash, source: Hash, coin: (Seat, Seat) -> bool, now: nat, later: nat)
    requires Inv(s) && HasCommitment(s.offers, c)
    requires var g := s.offers[OfferWith(s.offers, c).value].gameid;
             && g in s.games && s.games[g].deadline == 0 && later > now + FIVE_MINUTES
    ensures var k := OfferWith(s.offers, c).value;
            var g := s.offers[k].gameid;
            var r := Reveal(s, c, source, true, coin, now);
            && r.Some? && g in r.value.games
            && exists j ::
                 && j in s.offers && s.offers[j].gameid == g && s.offers[j].owner != s.offers[k].owner
                 && k in r.value.offers && j in r.value.offers
                 && (ClaimExpired(r.value, g, later) == PayAndClean(r.value, g, k, j) <==>
                     source != 0 || c == s.games[g].player2.commitment)
  {
    hide Conserved, Counted, Unique, NoneMissed, PayAndClean;
    var k := OfferWith(s.offers, c).value;
    var g := s.offers[k].gameid;
    var game := s.games[g];
    assert SoundGame(s, g) && SoundOffer(s, k);
    SeatsFound(s, g);
    var k1, k2 := OfferWith(s.offers, game.player1.commitment).value,
        OfferWith(s.offers, game.player2.commitment).value;
    var j := if c == game.player1.commitment then k2 else k1;
    var r := Reveal(s, c, source, true, coin, now).value;
    assert r == s.(games := s.games[g := Opened(game, c, source, now)]);
    assert SoundOffer(s, j);
    PayoutsDiffer(r, g, k, j);
    assert j in s.offers && s.offers[j].gameid == g;
  }

  /** Account 1 bets against account 2, and reveals an all-zero secret from the first seat. */
  const ZERO_SECRET := State(
    map[0 := Offer(1, 0, 5, 1), 1 := Offer(2, 0, 6, 1)],
    map[1 := Game(3, 400, Seat(5, 0), Seat(6, 0))], 1,
    map[1 := Account(0, 0, 1), 2 := Account(0, 0, 1)], 6)

  const DEPOSITED := State(map[], map[], 0, map[1 := Account(3, 0, 0), 2 := Account(3, 0, 0)], 6)
  const OFFERED := State(map[0 := Offer(1, 3, 5, 0)], map[], 0, map[1 := Account(0, 1, 0), 2 := Account(3, 0, 0)], 6)
  const PLAYING := ZERO_SECRET.(games := map[1 := Game(3, 0, Seat(5, 0), Seat(6, 0))])

  lemma Offered()
    ensures OfferBet(DEPOSITED, 0, 1, 3, 5) == Some(OFFERED)
  {
    assert Matched(DEPOSITED, 1, 3) == None;
    var r := OfferBet(DEPOSITED, 0, 1, 3, 5).value;
    assert r.offers == OFFERED.offers && r.accounts == OFFERED.accounts;
  }

  lemma Playing()
    ensures OfferBet(OFFERED, 1, 2, 3, 6) == Some(PLAYING)
  {
    var s := OFFERED;
    assert s.offers[0].bet == 3 && s.offers[0].commitment == 5;
    assert Lowest(s.offers, 3) == Some(0) && Matched(s, 2, 3) == Some(0);
    var p := Pair(s, 0, 1, 2, 3, 6);
    assert p.offers == PLAYING.offers && p.games == PLAYING.games;
    assert OfferBet(s, 1, 2, 3, 6).value.accounts == PLAYING.accounts;
  }

  lemma Revealed(coin: (Seat, Seat) -> bool)
    ensures Reveal(PLAYING, 5, 0, true, coin, 100) == Some(ZERO_SECRET)
  {
    var s := PLAYING;
    assert s.offers[0].commitment == 5 && s.offers[1].commitment == 6;
    assert OfferWith(s.offers, 5) == Some(0);
    assert s.games[1 := Opened(s.games[1], 5, 0, 100)] == ZERO_SECRET.games;
  }

  /** It is reached from the empty contract by two deposits, two offers and the reveal. */
  lemma {:induction false} ZeroSecretIsReached(coin: (Seat, Seat) -> bool)
    ensures Run(EMPTY, [Depositing(1, 3), Depositing(2, 3), Offering(0, 1, 3, 5), Offering(1, 2, 3, 6),
                        Revealing(5, 0, true, coin, 100)]) == ZERO_SECRET
  {
    hide OfferBet, Reveal;
    var a, b, c, d, e := Depositing(1, 3), Depositing(2, 3), Offering(0, 1, 3, 5), Offering(1, 2, 3, 6),
        Revealing(5, 0, true, coin, 100);
    assert Exec(Exec(EMPTY, a), b) == DEPOSITED;
    Offered();
    Playing();
    Revealed(coin);
    assert [a, b, c, d, e][1..] == [b, c, d, e] && [b, c, d, e][1..] == [c, d, e] && [c, d, e][1..] == [d, e]
           && [d, e][1..] == [e];
    hide Exec;
    assert Run(PLAYING, [e]) == Run(Exec(PLAYING, e), []);
    assert Run(OFFERED, [d, e]) == Run(Exec(OFFERED, d), [e]);
    assert Run(DEPOSITED, [c, d, e]) == Run(Exec(DEPOSITED, c), [d, e]);
    assert Run(Exec(EMPTY, a), [b, c, d, e]) == Run(DEPOSITED, [c, d, e]);
  }

  /** After the deadline the claim pays account 2, which never revealed anything. */
  lemma ZeroSecretLoses(now: nat)
    requires now > 400
    ensures var r := ClaimExpired(ZERO_SECRET, 1, now);
            r.Some? && 2 in r.value.accounts && r.value.accounts[2].balance == 6 && 1 !in r.value.accounts
  {
    var s := ZERO_SECRET;
    assert s.offers[0].commitment == 5 && s.offers[1].commitment == 6;
    assert OfferWith(s.offers, 5) == Some(0) && OfferWith(s.offers, 6) == Some(1);
  }
}
