/** The dice contract: an order book of bets, and a two player commit and reveal game with escrowed
    stakes. Hashes are numbers, zero standing for the all-zero hash. */
module Dice {
  import opened Sums

  type Name = nat
  type Hash = nat

  const FIVE_MINUTES := 300

  /** An open offer has gameid 0 and carries its bet; once matched it carries no bet. */
  datatype Offer = Offer(owner: Name, bet: int, commitment: Hash, gameid: nat)
  datatype Seat = Seat(commitment: Hash, secret: Hash)  // zero until revealed
  datatype Game = Game(bet: int, deadline: nat, player1: Seat, player2: Seat)
  datatype Account = Account(balance: int, openOffers: int, openGames: int) {
    predicate IsEmpty() { balance == 0 && openOffers == 0 && openGames == 0 }
  }

  /** `escrow` is the net amount deposited: what came in with `deposit` less what went out with
      `withdraw`. */
  datatype State = State(
    offers: map<nat, Offer>,
    games: map<nat, Game>,
    nextGame: nat,
    accounts: map<Name, Account>,
    escrow: int)

  const EMPTY := State(map[], map[], 0, map[], 0)

  // ---------------------------------------------------------------- table lookups

  /** A key above every key in use, as the table hands them out. */
  ghost predicate FreshKey(offers: map<nat, Offer>, id: nat) { forall k <- offers :: k < id }

  predicate HasCommitment(offers: map<nat, Offer>, c: Hash) { exists k <- offers :: offers[k].commitment == c }

  ghost predicate IsLowest(offers: map<nat, Offer>, bet: int, k: nat) {
    k in offers && offers[k].bet == bet && forall j <- offers :: offers[j].bet == bet ==> k <= j
  }

  ghost function OfferWith(offers: map<nat, Offer>, c: Hash): (k: Option<nat>)
    ensures k.Some? ==> k.value in offers && offers[k.value].commitment == c
    ensures k.None? <==> !HasCommitment(offers, c)
  {
    if HasCommitment(offers, c) then
      var k :| k in offers && offers[k].commitment == c;
      Some(k)
    else None
  }

  /** The offer the bet index yields first for this bet. */
  ghost function Lowest(offers: map<nat, Offer>, bet: int): (k: Option<nat>)
    ensures k.Some? ==> IsLowest(offers, bet, k.value)
    ensures k.None? <==> forall j <- offers :: offers[j].bet != bet
  {
    if exists j <- offers :: offers[j].bet == bet then
      LowestExists(offers, bet);
      var k :| IsLowest(offers, bet, k);
      Some(k)
    else None
  }

  lemma LowestExists(offers: map<nat, Offer>, bet: int)
    requires exists j <- offers :: offers[j].bet == bet
    ensures exists k :: IsLowest(offers, bet, k)
    decreases |offers|
  {
    var j :| j in offers && offers[j].bet == bet;
    if !IsLowest(offers, bet, j) {
      var i :| i in offers && offers[i].bet == bet && i < j;
      var rest := offers - {j};
      assert rest[i].bet == bet;
      LowestExists(rest, bet);
      var k :| IsLowest(rest, bet, k);
      assert i in rest && k <= i;
      forall q <- offers | offers[q].bet == bet ensures k <= q {
        if q != j { assert q in rest; }
      }
      assert IsLowest(offers, bet, k);
    }
  }

  // ---------------------------------------------------------------- actions

  function Update(s: State, x: Name, balance: int, offers: int, games: int): State
    requires x in s.accounts
  {
    var a := s.accounts[x];
    s.(accounts := s.accounts[x := Account(a.balance + balance, a.openOffers + offers, a.openGames + games)])
  }

  /** Whether an offer of `player` for `bet` meets one of somebody else. */
  ghost function Matched(s: State, player: Name, bet: int): (k: Option<nat>)
    ensures k.Some? ==> IsLowest(s.offers, bet, k.value) && s.offers[k.value].owner != player
  {
    var k := Lowest(s.offers, bet);
    if k.Some? && s.offers[k.value].owner != player then k else None
  }

  /** The book once offers `k` (already there) and `id` (new) are matched in game `g`. */
  function Pair(s: State, k: nat, id: nat, player: Name, bet: int, c: Hash): State
    requires k in s.offers
  {
    var g := s.nextGame + 1;
    s.(offers := s.offers[k := s.offers[k].(bet := 0, gameid := g)][id := Offer(player, 0, c, g)],
       games := s.games[g := Game(bet, 0, Seat(s.offers[k].commitment, 0), Seat(c, 0))],
       nextGame := g)
  }

  ghost function OfferBet(s: State, id: nat, player: Name, bet: int, c: Hash): Option<State> {
    if bet <= 0 || HasCommitment(s.offers, c) || player !in s.accounts || !FreshKey(s.offers, id)
       || s.accounts[player].balance < bet then None
    else
      var k := Matched(s, player, bet);
      if k.None? then
        Some(Update(s.(offers := s.offers[id := Offer(player, bet, c, 0)]), player, -bet, 1, 0))
      else if s.offers[k.value].owner !in s.accounts then None
      else
        var s' := Update(Pair(s, k.value, id, player, bet, c), s.offers[k.value].owner, 0, -1, 1);
        Some(Update(s', player, -bet, 0, 1))
  }

  ghost function CancelOffer(s: State, c: Hash): Option<State> {
    var k := OfferWith(s.offers, c);
    if k.None? || s.offers[k.value].gameid != 0 || s.offers[k.value].owner !in s.accounts then None else
      var o := s.offers[k.value];
      Some(Update(s.(offers := s.offers - {k.value}), o.owner, o.bet, -1, 0))
  }

  /** Winner takes both stakes; the game and its two offers are gone, and so is the loser's account if
      nothing is left in it. */
  function PayAndClean(s: State, g: nat, winner: nat, loser: nat): Option<State>
    requires g in s.games && winner in s.offers && loser in s.offers
  {
    var w, l := s.offers[winner].owner, s.offers[loser].owner;
    if w !in s.accounts || l !in s.accounts then None else
      var s1 := Update(Update(s, w, 2 * s.games[g].bet, 0, -1), l, 0, 0, -1);
      Some(s1.(accounts := if s1.accounts[l].IsEmpty() then s1.accounts - {l} else s1.accounts,
               games := s1.games - {g},
               offers := s1.offers - {winner, loser}))
  }

  /** The game with the revealer's seat opened. */
  function Opened(game: Game, c: Hash, source: Hash, now: nat): Game {
    if game.player1.commitment == c then
      game.(player1 := Seat(c, source), deadline := now + FIVE_MINUTES)
    else
      game.(player2 := Seat(game.player2.commitment, source), deadline := now + FIVE_MINUTES)
  }

  /** `reveal`. `hashOk` is the host's check of `source` against `c`; `coin` decides the winner from the
      two seats as they are stored, true for the player who reveals now. */
  ghost function Reveal(
    s: State, c: Hash, source: Hash, hashOk: bool, coin: (Seat, Seat) -> bool, now: nat): Option<State>
  {
    var k := OfferWith(s.offers, c);
    if !hashOk || k.None? || s.offers[k.value].gameid == 0 || s.offers[k.value].gameid !in s.games then None else
      var g := s.offers[k.value].gameid;
      var game := s.games[g];
      var (curr, prev) := if game.player1.commitment == c then (game.player1, game.player2)
          else (game.player2, game.player1);
      if curr.secret != 0 then None
      else if prev.secret == 0 then Some(s.(games := s.games[g := Opened(game, c, source, now)]))
      else
        var j := OfferWith(s.offers, prev.commitment);
        if j.None? then None
        else if coin(game.player1, game.player2) then PayAndClean(s, g, k.value, j.value)
        else PayAndClean(s, g, j.value, k.value)
  }

  /** `claimexpired`. */
  ghost function ClaimExpired(s: State, g: nat, now: nat): Option<State> {
    if g !in s.games || s.games[g].deadline == 0 || now <= s.games[g].deadline then None else
      var game := s.games[g];
      var k1, k2 := OfferWith(s.offers, game.player1.commitment), OfferWith(s.offers, game.player2.commitment);
      if k1.None? || k2.None? then None
      else if game.player1.secret != 0 then
        if game.player2.secret != 0 then None else PayAndClean(s, g, k1.value, k2.value)
      else PayAndClean(s, g, k2.value, k1.value)
  }

  /** `deposit`, once the token transfer into the contract succeeded. */
  function Deposit(s: State, x: Name, amount: int): Option<State> {
    if amount <= 0 then None else
      var s1 := if x in s.accounts then s else s.(accounts := s.accounts[x := Account(0, 0, 0)]);
      Some(Update(s1, x, amount, 0, 0).(escrow := s.escrow + amount))
  }

  function Withdraw(s: State, x: Name, amount: int): Option<State> {
    if amount <= 0 || x !in s.accounts || s.accounts[x].balance < amount then None else
      var s1 := Update(s, x, -amount, 0, 0).(escrow := s.escrow - amount);
      Some(if s1.accounts[x].IsEmpty() then s1.(accounts := s1.accounts - {x}) else s1)
  }

  // ---------------------------------------------------------------- invariants

  function BetColumn(offers: map<nat, Offer>): map<nat, int> { map k | k in offers :: offers[k].bet }
  function OpenColumn(offers: map<nat, Offer>, x: Name): map<nat, int> {
    map k | k in offers :: if offers[k].owner == x && offers[k].gameid == 0 then 1 else 0
  }
  function PlayColumn(offers: map<nat, Offer>, x: Name): map<nat, int> {
    map k | k in offers :: if offers[k].owner == x && offers[k].gameid != 0 then 1 else 0
  }
  function StakeColumn(games: map<nat, Game>): map<nat, int> { map g | g in games :: 2 * games[g].bet }
  function BalanceColumn(accounts: map<Name, Account>): map<Name, int> { map x | x in accounts :: accounts[x].balance }

  /** Nothing is lost and nothing is made: every token deposited and not withdrawn is in an account, in
      an open offer, or in a game. */
  ghost predicate Conserved(s: State) {
    s.escrow == Sum(BalanceColumn(s.accounts)) + Sum(BetColumn(s.offers)) + Sum(StakeColumn(s.games))
  }

  ghost predicate CountedFor(s: State, x: Name) {
    && Sum(OpenColumn(s.offers, x)) == (if x in s.accounts then s.accounts[x].openOffers else 0)
    && Sum(PlayColumn(s.offers, x)) == (if x in s.accounts then s.accounts[x].openGames else 0)
  }

  /** The counters of an account are the true counts; an account without a row has none. */
  ghost predicate Counted(s: State) { forall x: Name :: CountedFor(s, x) }

  ghost predicate SoundOffer(s: State, k: nat)
    requires k in s.offers
  {
    var o := s.offers[k];
    && o.owner in s.accounts
    && if o.gameid == 0 then o.bet > 0
       else o.bet == 0 && o.gameid in s.games &&
            (o.commitment == s.games[o.gameid].player1.commitment
             || o.commitment == s.games[o.gameid].player2.commitment)
  }

  ghost predicate Seated(s: State, g: nat, k1: nat, k2: nat)
    requires g in s.games
  {
    && k1 in s.offers && k2 in s.offers && s.offers[k1].owner != s.offers[k2].owner
    && s.offers[k1].gameid == g && s.offers[k1].commitment == s.games[g].player1.commitment
    && s.offers[k2].gameid == g && s.offers[k2].commitment == s.games[g].player2.commitment
  }

  ghost predicate SoundGame(s: State, g: nat)
    requires g in s.games
  {
    && 1 <= g <= s.nextGame && s.games[g].bet > 0
    && s.games[g].player1.commitment != s.games[g].player2.commitment
    && (s.games[g].player1.secret == 0 || s.games[g].player2.secret == 0)
    && (s.games[g].deadline == 0 ==> s.games[g].player1.secret == 0 && s.games[g].player2.secret == 0)
    && exists k1, k2 :: Seated(s, g, k1, k2)
  }

  ghost predicate Unique(offers: map<nat, Offer>) {
    forall j, k :: j in offers && k in offers && offers[j].commitment == offers[k].commitment ==> j == k
  }

  /** Open offers of the same bet have one owner: no match was ever missed. */
  ghost predicate NoneMissed(offers: map<nat, Offer>) {
    forall j, k :: (j in offers && k in offers && offers[j].gameid == 0 && offers[k].gameid == 0 &&
                    offers[j].bet == offers[k].bet) ==> offers[j].owner == offers[k].owner
  }

  /** The book is in order. */
  ghost predicate Booked(s: State) {
    && (forall k <- s.offers :: SoundOffer(s, k))
    && (forall g <- s.games :: SoundGame(s, g))
    && Unique(s.offers) && NoneMissed(s.offers)
    && (forall x <- s.accounts :: s.accounts[x].balance >= 0)
  }

  ghost predicate Inv(s: State) { Booked(s) && Counted(s) && Conserved(s) }
}
