/** What each voting action demands and does, in terms of the tables alone. */
module VotingLaws {
  import opened Sums
  import opened Voting
  import opened VotingTallies
  import opened VotingRuns
  import opened VotingRegistration
  import opened VotingSteps
  import opened VotingLinear

  // ---------------------------------------------------------------- what a vote demands

  /** A ballot for producers is accepted if and only if it lists at most thirty of them in strictly rising order, its
      voter has a row, and every one of them is an active producer; this last is not asked of a negative weight. */
  lemma {:induction false} BallotIsAccepted(s: State, x: Name, prods: seq<Name>, f: Scale)
    requires WellFormed(s) && Registered(s.roll, s.tally)
    ensures UpdateVotes(s, x, None, prods, true, f).Some? <==>
            && |prods| <= 30 && (forall i, j :: 0 <= i < j < |prods| ==> prods[i] < prods[j])
            && x in s.roll.voters
            && var v := s.roll.voters[x];
               (f(v.staked) + (if v.isProxy then s.tally.proxied[x] else 0.0) < 0.0
                || forall p <- prods :: p in s.active && s.active[p])
  {
    hide UpdateVotes, Registered, Shaped;
    VoteAbortsOnlyOnItsChecks(s, x, None, prods, true, f);
  }

  /** A ballot for a proxy is accepted if and only if it lists nobody, its voter has a row and is no proxy, and the
      proxy is another account, registered as one. */
  lemma {:induction false} ProxyIsAccepted(s: State, x: Name, q: Name, prods: seq<Name>, f: Scale)
    requires WellFormed(s) && Registered(s.roll, s.tally)
    ensures UpdateVotes(s, x, Some(q), prods, true, f).Some? <==>
            && prods == [] && q != x && x in s.roll.voters && !s.roll.voters[x].isProxy
            && q in s.roll.voters && s.roll.voters[q].isProxy
  {
    hide UpdateVotes, Registered, Shaped;
    VoteAbortsOnlyOnItsChecks(s, x, Some(q), prods, true, f);
  }

  // ---------------------------------------------------------------- what a vote does

  /** An accepted ballot is the one that is stored, at the voter's current weight; stake takes part in voting with its
      owner's first ballot; and no other row changes its ballot, its stake or its flag. */
  lemma {:induction false} BallotIsStored(
    s: State, x: Name, proxy: Option<Name>, prods: seq<Name>, voting: bool, f: Scale)
    requires WellFormed(s) && (!voting && x in s.roll.voters ==> proxy == s.roll.voters[x].proxy)
    requires UpdateVotes(s, x, proxy, prods, voting, f).Some?
    ensures var r := UpdateVotes(s, x, proxy, prods, voting, f).value;
            && x in s.roll.voters && r.roll.voters.Keys == s.roll.voters.Keys && r.active == s.active
            && (var v := s.roll.voters[x];
                && r.roll.voters[x] == Voter(proxy, prods, v.staked, v.isProxy)
                && r.tally.last[x] == f(v.staked) + (if v.isProxy then s.tally.proxied[x] else 0.0)
                && r.activatedStake == s.activatedStake + if s.tally.last[x] <= 0.0 then v.staked else 0)
            && forall y <- s.roll.voters :: y != x ==> r.roll.voters[y] == s.roll.voters[y]
  {
    hide Recount, Shaped, ValidBallot, MayGain, Rerank;
    var w := CurrentWeight(s.roll.voters[x], s.tally.proxied[x], f);
    RecountSets(s.roll, s.tally, x, proxy, prods, w, f);
  }

  lemma {:induction false} RecountSets(
    g: Roll, t: Tally, x: Name, proxy: Option<Name>, prods: seq<Name>, w: real, f: Scale)
    requires Shaped(g) && Fits(g, t) && x in g.voters && (proxy.Some? ==> proxy.value in g.voters)
    ensures Recount(g, t, x, proxy, prods, w, f).Some? ==> Recount(g, t, x, proxy, prods, w, f).value.last[x] == w
  {
    hide Shaped, Withdraw, Entrust, ApplyDeltas, BallotDeltas;
  }

  /** The votes of a producer after a voter without a proxy has cast a ballot for producers: its old weight goes where
      it was listed, its new one comes where it is; a producer it lists neither before nor now keeps its votes. */
  lemma {:induction false} BallotIsCounted(s: State, x: Name, prods: seq<Name>, f: Scale, p: Name)
    requires WellFormed(s) && Registered(s.roll, s.tally) && UpdateVotes(s, x, None, prods, true, f).Some?
    requires x in s.roll.voters && s.roll.voters[x].proxy.None? && p in s.tally.votes
    ensures var r := UpdateVotes(s, x, None, prods, true, f).value;
            var v, last := s.roll.voters[x], s.tally.last[x];
            var w := f(v.staked) + (if v.isProxy then s.tally.proxied[x] else 0.0);
            var was, now := p in v.producers && last > 0.0, p in prods && w >= 0.0;
            var moved := s.tally.votes[p] - (if was then last else 0.0) + (if now then w else 0.0);
            && p in r.tally.votes
            && r.tally.votes[p] == (if (was || now) && moved < 0.0 then 0.0 else moved)
            && r.tally.proxied == s.tally.proxied
  {
    hide Shaped, Registered, UpdateVotes, MayVote;
    VoteAbortsOnlyOnItsChecks(s, x, None, prods, true, f);
    PlainVote(s, x, prods, f, WeightOf(s, x, f));
    assert Exec(s, Vote(x, None, prods, f)) == UpdateVotes(s, x, None, prods, true, f).value;
    hide Exec, RealSum;
  }

  // ---------------------------------------------------------------- proxies, stakes, producers

  /** `regproxy` succeeds if and only if it changes something and makes nobody a proxy who follows one; it sets that
      flag and nothing else in the rows. */
  lemma {:induction false} FlagIsSet(s: State, x: Name, flag: bool, f: Scale)
    requires WellFormed(s) && Registered(s.roll, s.tally)
    ensures var r := RegProxy(s, x, flag, f);
            && (r.Some? <==>
                  (x in s.roll.voters ==> s.roll.voters[x].isProxy != flag && (flag ==> s.roll.voters[x].proxy.None?)))
            && (r.Some? ==>
                  r.value.roll.voters ==
                  s.roll.voters[x := if x in s.roll.voters then s.roll.voters[x].(isProxy := flag)
                                     else Voter(None, [], 0, flag)])
            && (r.Some? ==> r.value.active == s.active && r.value.activatedStake == s.activatedStake)
  {
    hide Propagate, Shaped, AllRegistered;
    if x in s.roll.voters && (flag ==> s.roll.voters[x].proxy.None?) {
      var g := SetFlag(s.roll, x, flag);
      assert Registered(g, s.tally);
      PropagateNeverAborts(g, s.tally, x, f);
    }
  }

  /** A stake change succeeds if and only if the stake does not go negative. It moves that stake alone, and whoever
      has a ballot casts it again at the weight that results. */
  lemma {:induction false} StakeIsMoved(s: State, x: Name, delta: int, f: Scale)
    requires WellFormed(s) && Registered(s.roll, s.tally)
    ensures var r := Restake(s, x, delta, f);
            && (r.Some? <==> (if x in s.roll.voters then s.roll.voters[x].staked else 0) + delta >= 0)
            && (r.Some? ==>
                  && r.value.roll.voters ==
                     s.roll.voters[x := if x in s.roll.voters then
                                          s.roll.voters[x].(staked := s.roll.voters[x].staked + delta)
                                        else Voter(None, [], delta, false)]
                  && r.value.active == s.active)
            && (r.Some? && x in s.roll.voters ==>
                  var v := s.roll.voters[x];
                  r.value.tally.last[x] ==
                  if v.producers == [] && v.proxy.None? then s.tally.last[x]
                  else f(v.staked + delta) + (if v.isProxy then s.tally.proxied[x] else 0.0))
  {
    hide UpdateVotes, Shaped, AllRegistered, MayVote;
    if x in s.roll.voters && s.roll.voters[x].staked + delta >= 0 {
      var v := s.roll.voters[x];
      var s' := s.(roll := SetStake(s.roll, x, v.staked + delta));
      assert Registered(s'.roll, s'.tally);
      if v.producers != [] || v.proxy.Some? { CastAgain(s', x, f); }
    }
  }

  lemma {:induction false} CastAgain(s: State, x: Name, f: Scale)
    requires WellFormed(s) && Registered(s.roll, s.tally) && x in s.roll.voters
    ensures var v := s.roll.voters[x];
            var r := UpdateVotes(s, x, v.proxy, v.producers, false, f);
            && r.Some? && r.value.roll.voters == s.roll.voters && r.value.active == s.active
            && r.value.tally.last[x] == f(v.staked) + (if v.isProxy then s.tally.proxied[x] else 0.0)
  {
    hide Shaped, UpdateVotes, Registered, MayVote;
    var v := s.roll.voters[x];
    StoredBallotMayBeCast(s, x, f);
    VoteAbortsOnlyOnItsChecks(s, x, v.proxy, v.producers, false, f);
    BallotIsStored(s, x, v.proxy, v.producers, false, f);
    assert v == Voter(v.proxy, v.producers, v.staked, v.isProxy);
  }

  /** A registered producer is active, whether it is new, without votes yet, or back with the votes it has; no other
      producer and no voter notices. */
  lemma RegistrationActivates(s: State, p: Name)
    ensures var r := RegProducer(s, p);
            && r.active.Keys == s.active.Keys + {p} && r.active[p] && r.tally.votes.Keys == s.tally.votes.Keys + {p}
            && (forall q <- s.active :: q != p ==> r.active[q] == s.active[q])
            && (forall q <- s.tally.votes :: r.tally.votes[q] == s.tally.votes[q])
            && (p !in s.tally.votes ==> r.tally.votes[p] == 0.0)
            && r.roll == s.roll && r.tally.last == s.tally.last && r.tally.proxied == s.tally.proxied
            && r.tally.total == s.tally.total && r.activatedStake == s.activatedStake
  {
  }

  /** Any producer with a row can be deactivated, and only that changes. */
  lemma DeactivationIsAll(s: State, p: Name)
    ensures var r := Deactivate(s, p);
            && (r.Some? <==> p in s.active)
            && (r.Some? ==>
                  && r.value.active.Keys == s.active.Keys && !r.value.active[p]
                  && (forall q <- s.active :: q != p ==> r.value.active[q] == s.active[q])
                  && r.value.roll == s.roll && r.value.tally == s.tally && r.value.activatedStake == s.activatedStake)
  {
  }
}
