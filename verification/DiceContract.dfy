/** The dice actions as the contract runs them: rows are inserted, changed and erased one by one, and
    a check that fails half way puts everything back. */
module DiceContract {
  import opened Sums
  import opened Dice
  import opened DiceRuns

  class DiceBook {
    var offers: map<nat, Offer>
    var games: map<nat, Game>
    var nextGame: nat
    var accounts: map<Name, Account>
    var escrow: int

    ghost function View(): State
      reads this
    {
      State(offers, games, nextGame, accounts, escrow)
    }

    constructor ()
      ensures View() == EMPTY
    {
      offers, games, nextGame, accounts, escrow := map[], map[], 0, map[], 0;
    }

    method Restore(s: State)
      modifies this
      ensures View() == s
    {
      offers, games, nextGame, accounts, escrow := s.offers, s.games, s.nextGame, s.accounts, s.escrow;
    }

    /** The commitment index. */
    method FindCommitment(c: Hash) returns (k: Option<nat>)
      requires Unique(offers)
      ensures k == OfferWith(offers, c)
    {
      var todo := offers.Keys;
      while todo != {}
        invariant todo <= offers.Keys
        invariant forall j <- offers :: j !in todo ==> offers[j].commitment != c
      {
        var j :| j in todo;
        if offers[j].commitment == c {
          return Some(j);
        }
        todo := todo - {j};
      }
      return None;
    }

    /** The bet index: the offer with this bet and the lowest key. */
    method LowestOffer(bet: int) returns (k: nat)
      requires exists j <- offers :: offers[j].bet == bet
      ensures IsLowest(offers, bet, k)
    {
      k :| k in offers && offers[k].bet == bet;
      var todo := offers.Keys;
      while todo != {}
        invariant todo <= offers.Keys && k in offers && offers[k].bet == bet
        invariant forall j <- offers :: j !in todo && offers[j].bet == bet ==> k <= j
      {
        var j :| j in todo;
        if offers[j].bet == bet && j < k {
          k := j;
        }
        todo := todo - {j};
      }
    }

    method ChangeAccount(x: Name, balance: int, openOffers: int, openGames: int)
      requires x in accounts
      modifies this`accounts
      ensures View() == Update(old(View()), x, balance, openOffers, openGames)
    {
      var a := accounts[x];
      accounts := accounts[x := Account(a.balance + balance, a.openOffers + openOffers, a.openGames + openGames)];
    }

    /** Matches the stored offers `k` and `id`. */
    method StartGame(k: nat, id: nat, player: Name, bet: int, c: Hash)
      requires k in offers && k != id && id in offers && offers[id] == Offer(player, bet, c, 0)
      requires offers[k].owner in accounts
      modifies this
      ensures View() == Update(Pair(old(View()), k, id, player, bet, c), old(offers[k].owner), 0, -1, 1)
    {
      nextGame := nextGame + 1;
      games := games[nextGame := Game(bet, 0, Seat(offers[k].commitment, 0), Seat(c, 0))];
      offers := offers[k := offers[k].(bet := 0, gameid := nextGame)];
      offers := offers[id := offers[id].(bet := 0, gameid := nextGame)];
      ChangeAccount(offers[k].owner, 0, -1, 1);
    }

    /** Stores the offer, then looks for a match in the bet index, which by now contains it too. */
    method OfferBet(id: nat, player: Name, bet: int, c: Hash) returns (ok: bool)
      requires Inv(View()) && FreshKey(offers, id)
      modifies this
      ensures Dice.OfferBet(old(View()), id, player, bet, c) == if ok then Some(View()) else None
      ensures !ok ==> View() == old(View())
      ensures Inv(View())
    {
      hide Conserved, Counted, SoundGame, Unique, NoneMissed, Pair;
      ghost var s := View();
      if bet <= 0 {
        return false;
      }
      var taken := FindCommitment(c);
      if taken.Some? || player !in accounts {
        return false;
      }
      var saved := State(offers, games, nextGame, accounts, escrow);
      offers := offers[id := Offer(player, bet, c, 0)];
      assert offers[id].bet == bet;
      var k := LowestOffer(bet);
      MatchInIndex(s, id, Offer(player, bet, c, 0), k);
      if offers[k].owner == player {
        if accounts[player].balance < bet {
          Restore(saved);
          return false;
        }
        ChangeAccount(player, -bet, 1, 0);
      } else {
        // the owner of an open offer always has an account
        assert SoundOffer(s, k);
        StartGame(k, id, player, bet, c);
        SamePair(s, k, id, player, bet, c);
        if accounts[player].balance < bet {
          Restore(saved);
          return false;
        }
        ChangeAccount(player, -bet, 0, 1);
      }
      OfferBetKeepsInv(s, id, player, bet, c);
      return true;
    }

    method CancelOffer(c: Hash) returns (ok: bool)
      requires Inv(View())
      modifies this
      ensures Dice.CancelOffer(old(View()), c) == if ok then Some(View()) else None
      ensures !ok ==> View() == old(View())
      ensures Inv(View())
    {
      hide Conserved, Counted, SoundGame, Unique, NoneMissed;
      ghost var s := View();
      var k := FindCommitment(c);
      if k.None? || offers[k.value].gameid != 0 {
        return false;
      }
      assert SoundOffer(s, k.value);
      ChangeAccount(offers[k.value].owner, offers[k.value].bet, -1, 0);
      offers := offers - {k.value};
      CancelKeepsInv(s, c);
      return true;
    }

    /** Settles game `g`: the winner's offer is `winner`, the loser's is `loser`. */
    method PayAndClean(g: nat, winner: nat, loser: nat)
      requires Inv(View()) && g in games && winner in offers && loser in offers
      requires Seated(View(), g, winner, loser) || Seated(View(), g, loser, winner)
      modifies this
      ensures Dice.PayAndClean(old(View()), g, winner, loser) == Some(View()) && Inv(View())
    {
      hide Conserved, Counted, SoundGame, Unique, NoneMissed;
      ghost var s := View();
      PayKeepsInv(s, g, winner, loser);
      assert SoundOffer(s, winner) && SoundOffer(s, loser);
      var l := offers[loser].owner;
      ChangeAccount(offers[winner].owner, 2 * games[g].bet, 0, -1);
      ChangeAccount(l, 0, 0, -1);
      if accounts[l].IsEmpty() {
        accounts := accounts - {l};
      }
      games := games - {g};
      offers := offers - {winner, loser};
    }

    method Reveal(c: Hash, source: Hash, hashOk: bool, coin: (Seat, Seat) -> bool, now: nat) returns (ok: bool)
      requires Inv(View())
      modifies this
      ensures Dice.Reveal(old(View()), c, source, hashOk, coin, now) == if ok then Some(View()) else None
      ensures !ok ==> View() == old(View())
      ensures Inv(View())
    {
      hide Conserved, Counted, SoundGame, Unique, NoneMissed, Dice.PayAndClean;
      ghost var s := View();
      RevealKeepsInv(s, c, source, hashOk, coin, now);
      if !hashOk {
        return false;
      }
      var k := FindCommitment(c);
      if k.None? || offers[k.value].gameid == 0 {
        return false;
      }
      var g := offers[k.value].gameid;
      assert SoundOffer(s, k.value);
      SeatsFound(s, g);
      var curr, prev := games[g].player1, games[g].player2;
      if curr.commitment != c {
        curr, prev := prev, curr;
      }
      if curr.secret != 0 {
        return false;
      }
      if prev.secret != 0 {
        var j := FindCommitment(prev.commitment);
        if coin(games[g].player1, games[g].player2) {
          PayAndClean(g, k.value, j.value);
        } else {
          PayAndClean(g, j.value, k.value);
        }
      } else {
        var game := games[g].(deadline := now + FIVE_MINUTES);
        if curr.commitment == game.player1.commitment {
          game := game.(player1 := Seat(game.player1.commitment, source));
        } else {
          game := game.(player2 := Seat(game.player2.commitment, source));
        }
        games := games[g := game];
      }
      return true;
    }

    method ClaimExpired(g: nat, now: nat) returns (ok: bool)
      requires Inv(View())
      modifies this
      ensures Dice.ClaimExpired(old(View()), g, now) == if ok then Some(View()) else None
      ensures !ok ==> View() == old(View())
      ensures Inv(View())
    {
      hide Conserved, Counted, Unique, NoneMissed, Dice.PayAndClean;
      ghost var s := View();
      if g !in games || games[g].deadline == 0 || now <= games[g].deadline {
        return false;
      }
      SeatsFound(s, g);
      var k1 := FindCommitment(games[g].player1.commitment);
      var k2 := FindCommitment(games[g].player2.commitment);
      assert SoundGame(s, g);
      if games[g].player1.secret != 0 {
        // two open seats would have been settled at once
        assert games[g].player2.secret == 0;
        PayAndClean(g, k1.value, k2.value);
      } else {
        PayAndClean(g, k2.value, k1.value);
      }
      return true;
    }

    method Deposit(x: Name, amount: int) returns (ok: bool)
      requires Inv(View())
      modifies this
      ensures Dice.Deposit(old(View()), x, amount) == if ok then Some(View()) else None
      ensures !ok ==> View() == old(View())
      ensures Inv(View())
    {
      hide Conserved, Counted, Booked;
      ghost var s := View();
      if amount <= 0 {
        return false;
      }
      if x !in accounts {
        accounts := accounts[x := Account(0, 0, 0)];
      }
      escrow := escrow + amount;
      ChangeAccount(x, amount, 0, 0);
      DepositKeepsInv(s, x, amount);
      return true;
    }

    method Withdraw(x: Name, amount: int) returns (ok: bool)
      requires Inv(View())
      modifies this
      ensures Dice.Withdraw(old(View()), x, amount) == if ok then Some(View()) else None
      ensures !ok ==> View() == old(View())
      ensures Inv(View())
    {
      hide Conserved, Counted, Booked;
      ghost var s := View();
      if amount <= 0 || x !in accounts || accounts[x].balance < amount {
        return false;
      }
      ChangeAccount(x, -amount, 0, 0);
      escrow := escrow - amount;
      if accounts[x].IsEmpty() {
        accounts := accounts - {x};
      }
      WithdrawKeepsInv(s, x, amount);
      return true;
    }
  }

  /** With the new offer in the index, the lowest offer of its bet belongs to somebody else exactly when
      there is a match. */
  lemma SamePair(s: State, k: nat, id: nat, player: Name, bet: int, c: Hash)
    requires k in s.offers && k != id
    ensures Pair(s.(offers := s.offers[id := Offer(player, bet, c, 0)]), k, id, player, bet, c) ==
            Pair(s, k, id, player, bet, c)
    ensures Pair(s, k, id, player, bet, c).accounts == s.accounts
  {
    var o := s.offers[k].(bet := 0, gameid := s.nextGame + 1);
    assert s.offers[id := Offer(player, bet, c, 0)][k := o][id := Offer(player, 0, c, s.nextGame + 1)]
        == s.offers[k := o][id := Offer(player, 0, c, s.nextGame + 1)];
  }

  lemma MatchInIndex(s: State, id: nat, o: Offer, k: nat)
    requires FreshKey(s.offers, id) && IsLowest(s.offers[id := o], o.bet, k)
    ensures Matched(s, o.owner, o.bet) == if (s.offers[id := o])[k].owner == o.owner then None else Some(k)
  {
    var l := Lowest(s.offers, o.bet);
    if l.Some? {
      assert l.value in s.offers[id := o] && (s.offers[id := o])[l.value].bet == o.bet;
      assert k <= l.value;
      assert k in s.offers;
    }
  }
}
