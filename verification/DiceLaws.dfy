/** What each dice action demands and whose balance it moves. */
module DiceLaws {
  import opened Sums
  import opened Dice
  import opened DiceRuns

  function Balance(s: State, x: Name): int { if x in s.accounts then s.accounts[x].balance else 0 }

  /** A deposit succeeds if and only if it is positive; it goes to its account. */
  lemma DepositLaw(s: State, x: Name, amount: int, y: Name)
    ensures var r := Deposit(s, x, amount);
            && (r.Some? <==> amount > 0)
            && (r.Some? ==>
                  && Balance(r.value, y) == Balance(s, y) + (if y == x then amount else 0)
                  && r.value.escrow == s.escrow + amount
                  && r.value.offers == s.offers && r.value.games == s.games && r.value.nextGame == s.nextGame)
  {
  }

  /** A withdrawal succeeds if and only if it is positive and the account has that much; it comes out of that account,
      and the row goes when nothing is left in it. */
  lemma WithdrawLaw(s: State, x: Name, amount: int, y: Name)
    ensures var r := Withdraw(s, x, amount);
            && (r.Some? <==> 0 < amount <= Balance(s, x))
            && (r.Some? ==>
                  && Balance(r.value, y) == Balance(s, y) - (if y == x then amount else 0)
                  && r.value.escrow == s.escrow - amount
                  && (x in r.value.accounts <==>
                        Balance(s, x) > amount || s.accounts[x].openOffers != 0 || s.accounts[x].openGames != 0)
                  && (forall z <- s.accounts :: z != x ==>
                        z in r.value.accounts && r.value.accounts[z] == s.accounts[z])
                  && r.value.offers == s.offers && r.value.games == s.games && r.value.nextGame == s.nextGame)
  {
  }

  /** An offer is taken if and only if its bet is positive and covered and nobody has used its commitment. It costs its
      player the bet. It stays open, unless the oldest open offer of the same bet is somebody else's: then both are in a
      new game, in that order, and nobody has revealed. */
  lemma {:induction false} OfferLaw(s: State, id: nat, player: Name, bet: int, c: Hash, y: Name)
    requires Inv(s) && FreshKey(s.offers, id)
    ensures var r := OfferBet(s, id, player, bet, c);
            && (r.Some? <==>
                  && bet > 0 && player in s.accounts && s.accounts[player].balance >= bet
                  && forall k <- s.offers :: s.offers[k].commitment != c)
            && (r.Some? ==>
                  && Balance(r.value, y) == Balance(s, y) - (if y == player then bet else 0)
                  && r.value.escrow == s.escrow && r.value.offers.Keys == s.offers.Keys + {id}
                  && r.value.offers[id].owner == player && r.value.offers[id].commitment == c)
  {
    hide Sum, OpenColumn, PlayColumn, Conserved, SoundGame, Unique, NoneMissed;
    var k := Matched(s, player, bet);
    if k.Some? { assert SoundOffer(s, k.value); }
  }

  /** Whether an offer is matched, and what becomes of it and the one it meets. */
  lemma {:induction false} MatchLaw(s: State, id: nat, player: Name, bet: int, c: Hash, k: nat)
    requires Inv(s) && FreshKey(s.offers, id) && OfferBet(s, id, player, bet, c).Some?
    requires k in s.offers && s.offers[k].bet == bet && forall j <- s.offers :: s.offers[j].bet == bet ==> k <= j
    ensures var r := OfferBet(s, id, player, bet, c).value;
            if s.offers[k].owner == player then
              && r.offers == s.offers[id := Offer(player, bet, c, 0)] && r.games == s.games
            else
              var g := s.nextGame + 1;
              && r.nextGame == g && r.offers[id] == Offer(player, 0, c, g)
              && r.offers[k] == s.offers[k].(bet := 0, gameid := g)
              && r.games == s.games[g := Game(bet, 0, Seat(s.offers[k].commitment, 0), Seat(c, 0))]
  {
    hide Inv;
    var m := Matched(s, player, bet);
    LowestIs(s.offers, bet, k);
  }

  lemma {:induction false} NoMatchLaw(s: State, id: nat, player: Name, bet: int, c: Hash)
    requires OfferBet(s, id, player, bet, c).Some? && forall j <- s.offers :: s.offers[j].bet != bet
    ensures var r := OfferBet(s, id, player, bet, c).value;
            r.offers == s.offers[id := Offer(player, bet, c, 0)] && r.games == s.games && r.nextGame == s.nextGame
  {
  }

  lemma LowestIs(offers: map<nat, Offer>, bet: int, k: nat)
    requires IsLowest(offers, bet, k)
    ensures Lowest(offers, bet) == Some(k)
  {
  }

  /** An offer that is open can be cancelled, whoever made it, and nothing else can be; its bet goes back to its
      owner. */
  lemma {:induction false} CancelLaw(s: State, c: Hash, y: Name)
    requires Inv(s)
    ensures var r := CancelOffer(s, c);
            && (r.Some? <==> exists k <- s.offers :: s.offers[k].commitment == c && s.offers[k].gameid == 0)
            && (r.Some? ==>
                  exists k <- s.offers ::
                    && s.offers[k].commitment == c && s.offers[k].gameid == 0 && r.value.offers == s.offers - {k}
                    && Balance(r.value, y) == Balance(s, y) + (if y == s.offers[k].owner then s.offers[k].bet else 0)
                    && r.value.games == s.games && r.value.escrow == s.escrow)
  {
    hide Sum, OpenColumn, PlayColumn, Conserved, SoundGame, NoneMissed, Counted;
    var k := OfferWith(s.offers, c);
    if k.Some? {
      assert SoundOffer(s, k.value);
      forall j | j in s.offers && s.offers[j].commitment == c ensures j == k.value { }
    }
  }

  /** Settling a game gives the winner both bets, and nobody else anything. */
  lemma {:induction false} PayLaw(s: State, g: nat, winner: nat, loser: nat, y: Name)
    requires Inv(s) && g in s.games && winner in s.offers && loser in s.offers
    requires Seated(s, g, winner, loser) || Seated(s, g, loser, winner)
    ensures var r := PayAndClean(s, g, winner, loser);
            && r.Some?
            && Balance(r.value, y) == Balance(s, y) + (if y == s.offers[winner].owner then 2 * s.games[g].bet else 0)
            && r.value.games == s.games - {g} && r.value.offers == s.offers - {winner, loser}
            && r.value.escrow == s.escrow
  {
    hide Sum, OpenColumn, PlayColumn, Conserved, SoundGame, Unique, NoneMissed, Counted;
    assert SoundOffer(s, winner) && SoundOffer(s, loser);
  }

  /** The first reveal of a game stores the secret in the revealer's seat and gives the other player five minutes. */
  lemma {:induction false} FirstRevealLaw(
    s: State, c: Hash, source: Hash, hashOk: bool, coin: (Seat, Seat) -> bool, now: nat, g: nat)
    requires Inv(s) && Reveal(s, c, source, hashOk, coin, now).Some? && g in s.games
    requires s.games[g].player1.secret == 0 && s.games[g].player2.secret == 0
    requires s.games[g].player1.commitment == c || s.games[g].player2.commitment == c
    ensures var r, game := Reveal(s, c, source, hashOk, coin, now).value, s.games[g];
            r == s.(games := s.games[g :=
              if game.player1.commitment == c then Game(game.bet, now + 300, Seat(c, source), game.player2)
              else Game(game.bet, now + 300, game.player1, Seat(c, source))])
  {
    hide Conserved, Counted, SoundGame, NoneMissed, PayAndClean;
    GameOf(s, c, g);
  }

  /** The game whose seat has a commitment is that of the offer with it. */
  lemma {:induction false} GameOf(s: State, c: Hash, g: nat)
    requires Inv(s) && g in s.games
    requires s.games[g].player1.commitment == c || s.games[g].player2.commitment == c
    ensures OfferWith(s.offers, c).Some? && s.offers[OfferWith(s.offers, c).value].gameid == g != 0
    ensures var k1, k2 := OfferWith(s.offers, s.games[g].player1.commitment),
                          OfferWith(s.offers, s.games[g].player2.commitment);
            k1.Some? && k2.Some? && Seated(s, g, k1.value, k2.value)
            && s.games[g].player1.commitment != s.games[g].player2.commitment
  {
    hide Conserved, Counted, NoneMissed;
    SeatsFound(s, g);
    assert SoundGame(s, g);
  }

  /** The second one ends the game. The hash of the seats as they are stored, before this secret, decides between the
      revealer and the other player, and the winner gets both bets. */
  lemma {:induction false} SecondRevealLaw(
    s: State, c: Hash, source: Hash, hashOk: bool, coin: (Seat, Seat) -> bool, now: nat, g: nat, y: Name)
    requires Inv(s) && Reveal(s, c, source, hashOk, coin, now).Some? && g in s.games
    requires s.games[g].player1.commitment == c || s.games[g].player2.commitment == c
    requires s.games[g].player1.secret != 0 || s.games[g].player2.secret != 0
    ensures var r, game := Reveal(s, c, source, hashOk, coin, now).value, s.games[g];
            && OfferWith(s.offers, game.player1.commitment).Some? && OfferWith(s.offers, game.player2.commitment).Some?
            && var first := (game.player1.commitment == c) == coin(game.player1, game.player2);
               var k := OfferWith(s.offers, if first then game.player1.commitment else game.player2.commitment).value;
               && Balance(r, y) == Balance(s, y) + (if y == s.offers[k].owner then 2 * game.bet else 0)
               && r.games == s.games - {g} && r.escrow == s.escrow
  {
    GameOf(s, c, g);
    var game := s.games[g];
    var k1, k2 := OfferWith(s.offers, game.player1.commitment).value,
        OfferWith(s.offers, game.player2.commitment).value;
    PayLaw(s, g, k1, k2, y);
    PayLaw(s, g, k2, k1, y);
    hide Inv, PayAndClean, Balance;
  }

  /** After the deadline whoever has revealed gets both bets. */
  lemma {:induction false} ExpiryLaw(s: State, g: nat, now: nat, y: Name)
    requires Inv(s) && ClaimExpired(s, g, now).Some?
    ensures g in s.games && s.games[g].deadline != 0 && now > s.games[g].deadline
    ensures var r, game := ClaimExpired(s, g, now).value, s.games[g];
            && OfferWith(s.offers, game.player1.commitment).Some? && OfferWith(s.offers, game.player2.commitment).Some?
            && var c := if game.player1.secret != 0 then game.player1.commitment else game.player2.commitment;
               var k := OfferWith(s.offers, c).value;
               && Balance(r, y) == Balance(s, y) + (if y == s.offers[k].owner then 2 * game.bet else 0)
               && r.games == s.games - {g} && r.escrow == s.escrow
  {
    var game := s.games[g];
    GameOf(s, game.player1.commitment, g);
    var k1, k2 := OfferWith(s.offers, game.player1.commitment).value,
        OfferWith(s.offers, game.player2.commitment).value;
    PayLaw(s, g, k1, k2, y);
    PayLaw(s, g, k2, k1, y);
    hide Inv, PayAndClean, Balance;
  }
}
