/** Which producers voters may list. A vote of negative weight skips the check that the producers it lists
    are registered; everything else about registration follows from that. */
module VotingRegistration {
  import opened Sums
  import opened Voting
  import opened VotingTallies
  import opened VotingRuns

  ghost function WeightOf(s: State, x: Name, f: Scale): real
    requires WellFormed(s) && x in s.roll.voters
  {
    CurrentWeight(s.roll.voters[x], s.tally.proxied[x], f)
  }

  /** There is always a name beyond all those in use. */
  lemma {:induction false} FreshName(used: set<Name>) returns (p: Name)
    ensures forall k <- used :: k < p
    decreases |used|
  {
    if used == {} {
      p := 0;
    } else {
      var k :| k in used;
      var q := FreshName(used - {k});
      p := if k < q then q else k + 1;
      forall j <- used ensures j < p { assert j == k || j in used - {k}; }
    }
  }

  /** A voter can be made to list registered producers only if and only if its weight is not negative. */
  lemma ChecksRegistration(s: State, x: Name, f: Scale)
    requires WellFormed(s) && Registered(s.roll, s.tally) && x in s.roll.voters
    ensures (forall prods :: UpdateVotes(s, x, None, prods, true, f).Some? ==> AllRegistered(s.tally, prods)) <==>
            WeightOf(s, x, f) >= 0.0
  {
    hide Recount, Registered, ShapedVoter, UpdateVotes;
    if WeightOf(s, x, f) >= 0.0 {
      forall prods | UpdateVotes(s, x, None, prods, true, f).Some? ensures AllRegistered(s.tally, prods) {
        VoteAbortsOnlyOnItsChecks(s, x, None, prods, true, f);
      }
    } else {
      var p := FreshName(s.tally.votes.Keys);
      VoteAbortsOnlyOnItsChecks(s, x, None, [p], true, f);
      assert p in [p] && !AllRegistered(s.tally, [p]);
    }
  }

  // ---------------------------------------------------------------- runs

  /** A vote of negative weight that stores a producer nobody registered. */
  ghost predicate Careless(s: State, a: Action)
    requires WellFormed(s)
  {
    && a.Vote? && MayVote(s, a.voter, a.proxy, a.producers, true, a.f)
    && WeightOf(s, a.voter, a.f) < 0.0 && !AllRegistered(s.tally, a.producers)
  }

  lemma VoteKeepsRegistered(s: State, x: Name, proxy: Option<Name>, prods: seq<Name>, voting: bool, f: Scale)
    requires WellFormed(s) && Registered(s.roll, s.tally) && MayVote(s, x, proxy, prods, voting, f)
    requires !voting ==> proxy == s.roll.voters[x].proxy
    ensures var r := UpdateVotes(s, x, proxy, prods, voting, f);
            r.Some? && (Registered(r.value.roll, r.value.tally) <==> AllRegistered(s.tally, prods))
  {
    hide Recount, ShapedVoter;
    VoteAbortsOnlyOnItsChecks(s, x, proxy, prods, voting, f);
    var r := UpdateVotes(s, x, proxy, prods, voting, f).value;
    assert r.roll.voters[x].producers == prods;
  }

  lemma RestakeKeepsRegistered(s: State, x: Name, delta: int, f: Scale)
    requires WellFormed(s) && Registered(s.roll, s.tally)
    ensures var r := Exec(s, ChangeStake(x, delta, f)); Registered(r.roll, r.tally)
  {
    hide UpdateVotes, ShapedVoter, Shaped, AllRegistered, MayVote, AddVoter;
    if x !in s.roll.voters {
      if delta >= 0 { AddVoterKeepsRegistered(s, x, delta, false); }
    } else if s.roll.voters[x].staked + delta >= 0 {
      var v := s.roll.voters[x];
      var s' := s.(roll := SetStake(s.roll, x, v.staked + delta));
      assert Registered(s'.roll, s'.tally);
      RegisteredRow(s.roll, s.tally, x);
      VoteAbortsOnlyOnItsChecks(s', x, v.proxy, v.producers, false, f);
      if MayVote(s', x, v.proxy, v.producers, false, f) { VoteKeepsRegistered(s', x, v.proxy, v.producers, false, f); }
    }
  }

  lemma AddVoterKeepsRegistered(s: State, x: Name, staked: nat, isProxy: bool)
    requires WellFormed(s) && Registered(s.roll, s.tally) && x !in s.roll.voters
    ensures var r := AddVoter(s, x, staked, isProxy); Registered(r.roll, r.tally)
  {
    hide ShapedVoter, Shaped;
    var r := AddVoter(s, x, staked, isProxy);
    forall y <- r.roll.voters ensures AllRegistered(r.tally, r.roll.voters[y].producers) {
      if y != x { RegisteredRow(s.roll, s.tally, y); }
    }
  }

  lemma FlagKeepsRegistered(s: State, x: Name, flag: bool, f: Scale)
    requires WellFormed(s) && Registered(s.roll, s.tally)
    ensures var r := Exec(s, FlagProxy(x, flag, f)); Registered(r.roll, r.tally)
  {
    hide Propagate, ShapedVoter, Shaped, AddVoter;
    var r := Exec(s, FlagProxy(x, flag, f));
    if x !in s.roll.voters {
      AddVoterKeepsRegistered(s, x, 0, flag);
    } else {
      forall y <- r.roll.voters ensures AllRegistered(r.tally, r.roll.voters[y].producers) {
        RegisteredRow(s.roll, s.tally, y);
      }
    }
  }

  lemma VoteRegistered(s: State, x: Name, proxy: Option<Name>, prods: seq<Name>, f: Scale)
    requires WellFormed(s) && Registered(s.roll, s.tally)
    ensures var r := Exec(s, Vote(x, proxy, prods, f));
            Registered(r.roll, r.tally) <==> !Careless(s, Vote(x, proxy, prods, f))
  {
    hide UpdateVotes, ShapedVoter, Registered;
    VoteAbortsOnlyOnItsChecks(s, x, proxy, prods, true, f);
    if MayVote(s, x, proxy, prods, true, f) { VoteKeepsRegistered(s, x, proxy, prods, true, f); }
  }

  /** Every listed producer stays registered under every action that is not careless, whatever the weights. */
  lemma ActionKeepsRegistered(s: State, a: Action)
    requires WellFormed(s) && Registered(s.roll, s.tally)
    ensures var r := Exec(s, a); Registered(r.roll, r.tally) <==> !Careless(s, a)
  {
    if a.Vote? {
      hide *;
      VoteRegistered(s, a.voter, a.proxy, a.producers, a.f);
    } else {
      assert !Careless(s, a);
      hide Careless, ShapedVoter, Propagate, UpdateVotes;
      match a
      case FlagProxy(x, flag, f) => hide Exec; FlagKeepsRegistered(s, x, flag, f);
      case ChangeStake(x, delta, f) => hide Exec; RestakeKeepsRegistered(s, x, delta, f);
      case Register(p) =>
      case Unregister(p) =>
    }
  }

  ghost predicate CarefulRun(s: State, run: seq<Action>)
    requires WellFormed(s)
    decreases |run|
  {
    run != [] ==> !Careless(s, run[0]) && CarefulRun(Exec(s, run[0]), run[1..])
  }

  ghost predicate RegisteredAt(s: State, run: seq<Action>, k: nat)
    requires WellFormed(s) && k <= |run|
  {
    var r := Run(s, run[..k]); Registered(r.roll, r.tally)
  }

  /** Along every run, whatever the weights and whatever is lost, all listed producers are registered, and
      so no propagation aborts, exactly while no vote of negative weight stores an unregistered one. */
  lemma {:induction false} RunKeepsRegistered(s: State, run: seq<Action>)
    requires WellFormed(s) && Registered(s.roll, s.tally)
    ensures (forall k :: 0 <= k <= |run| ==> RegisteredAt(s, run, k)) <==> CarefulRun(s, run)
    decreases |run|
  {
    hide Registered, Exec, Careless, WellFormed;
    assert run[..0] == [] && RegisteredAt(s, run, 0);
    if run != [] {
      var s' := Exec(s, run[0]);
      ActionKeepsRegistered(s, run[0]);
      forall k: nat | 0 < k <= |run| ensures RegisteredAt(s, run, k) <==> RegisteredAt(s', run[1..], k - 1) {
        RunTail(s, run, k);
      }
      assert run[1..][..0] == [];
      assert RegisteredAt(s, run, 1) <==> !Careless(s, run[0]);
      if !Careless(s, run[0]) {
        RunKeepsRegistered(s', run[1..]);
        if CarefulRun(s, run) {
          forall k: nat | k <= |run| ensures RegisteredAt(s, run, k) {
            if k > 0 { assert RegisteredAt(s', run[1..], k - 1); }
          }
        } else {
          var k: nat :| k <= |run| - 1 && !RegisteredAt(s', run[1..], k);
          assert !RegisteredAt(s, run, k + 1);
        }
      }
    }
  }
}
