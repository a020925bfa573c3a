/** Where single actions lead: the whole state after a vote, a proxy flag or a stake change of a few plain kinds. */
module VotingSteps {
  import opened Sums
  import opened Voting
  import opened VotingTallies
  import opened VotingRuns
  import opened VotingRegistration

  lemma {:induction false} VoteLeadsTo(s: State, x: Name, proxy: Option<Name>, prods: seq<Name>, f: Scale)
    requires WellFormed(s) && MayVote(s, x, proxy, prods, true, f) && Registered(s.roll, s.tally)
    ensures var w := WeightOf(s, x, f);
            var t := Recount(s.roll, s.tally, x, proxy, prods, w, f);
            && t.Some?
            && Exec(s, Vote(x, proxy, prods, f)) ==
               State(StoreBallot(s.roll, x, proxy, prods, true), s.active, t.value,
                     s.activatedStake + if s.tally.last[x] <= 0.0 then s.roll.voters[x].staked else 0)
  {
    assert x in s.roll.voters && (proxy.Some? ==> proxy.value in s.roll.voters);
    var r := UpdateVotes(s, x, proxy, prods, true, f);
    assert Exec(s, Vote(x, proxy, prods, f)) == if r.Some? then r.value else s by {
      hide UpdateVotes, MayVote, WellFormed;
    }
    hide Exec, Shaped, ShapedVoter, Recount, StoreBallot, CurrentWeight, MayGain, MayEntrust, ValidBallot, Gaining,
      Registered;
    RecountNeverAborts(s.roll, s.tally, x, proxy, prods, WeightOf(s, x, f), f);
  }

  /** A count in the order the contract makes it. */
  lemma RecountLeadsTo(
    g: Roll, t: Tally, x: Name, proxy: Option<Name>, prods: seq<Name>, w: real, f: Scale, t1: Tally, t2: Tally)
    requires Shaped(g) && Fits(g, t) && Fits(g, t1) && x in g.voters && (proxy.Some? ==> proxy.value in g.voters)
    requires Withdraw(g, t, x, f) == Some(t1) && Entrust(g, t1, proxy, w, f) == Some(t2)
    ensures var d := BallotDeltas(Losing(g.voters[x], t.last[x]), t.last[x], Gaining(proxy, prods, w), w);
            Recount(g, t, x, proxy, prods, w, f) == Some(Set(ApplyDeltas(t2, d, true), x, w))
  {
    hide Shaped, ShapedVoter, Withdraw, Entrust, ApplyDeltas, BallotDeltas;
  }

  lemma FlagLeadsTo(s: State, x: Name, flag: bool, f: Scale, t: Tally)
    requires WellFormed(s) && x in s.roll.voters && flag != s.roll.voters[x].isProxy
    requires flag ==> s.roll.voters[x].proxy.None?
    requires Propagate(SetFlag(s.roll, x, flag), s.tally, x, f) == Some(t)
    ensures Exec(s, FlagProxy(x, flag, f)) == s.(roll := SetFlag(s.roll, x, flag), tally := t)
  {
    hide Shaped, ShapedVoter, Propagate, SetFlag;
  }

  lemma FirstStake(s: State, x: Name, staked: nat, flag: bool, f: Scale)
    requires WellFormed(s) && x !in s.roll.voters
    ensures Exec(s, ChangeStake(x, staked, f)) == AddVoter(s, x, staked, false)
    ensures Exec(s, FlagProxy(x, flag, f)) == AddVoter(s, x, 0, flag)
  {
    hide Shaped, ShapedVoter, AddVoter;
  }

  // ---------------------------------------------------------------- votes for producers

  /** A vote of somebody who followed no proxy, for no proxy. */
  lemma {:induction false} PlainVote(s: State, x: Name, prods: seq<Name>, f: Scale, w: real)
    requires WellFormed(s) && Registered(s.roll, s.tally) && x in s.roll.voters && s.roll.voters[x].proxy.None?
    requires w == WeightOf(s, x, f) && MayVote(s, x, None, prods, true, f)
    ensures var v, last := s.roll.voters[x], s.tally.last[x];
            var d := BallotDeltas(Losing(v, last), last, Gaining(None, prods, w), w);
            Exec(s, Vote(x, None, prods, f)) ==
              State(s.roll.(voters := s.roll.voters[x := v.(producers := prods)]), s.active,
                    Set(ApplyDeltas(s.tally, d, true), x, w),
                    s.activatedStake + if last <= 0.0 then v.staked else 0)
  {
    hide Exec, Shaped, MayVote, Registered, BallotDeltas, ApplyDeltas, CurrentWeight, Propagate, Recount;
    VoteLeadsTo(s, x, None, prods, f);
    RecountLeadsTo(s.roll, s.tally, x, None, prods, w, f, s.tally, s.tally);
  }

  /** Somebody who listed nobody lists `p`. */
  lemma {:induction false} Approves(s: State, x: Name, p: Name, f: Scale, w: real)
    requires WellFormed(s) && Registered(s.roll, s.tally) && x in s.roll.voters
    requires s.roll.voters[x].proxy.None? && s.roll.voters[x].producers == []
    requires w == WeightOf(s, x, f) >= 0.0 && p in s.active && s.active[p] && s.tally.votes[p] + w >= 0.0
    ensures Exec(s, Vote(x, None, [p], f)) ==
            State(s.roll.(voters := s.roll.voters[x := s.roll.voters[x].(producers := [p])]), s.active,
                  s.tally.(last := s.tally.last[x := w], votes := s.tally.votes[p := s.tally.votes[p] + w],
                           total := s.tally.total + w),
                  s.activatedStake + if s.tally.last[x] <= 0.0 then s.roll.voters[x].staked else 0)
  {
    hide Exec, Shaped, Registered, ApplyDeltas, CurrentWeight;
    PlainVote(s, x, [p], f, w);
    assert BallotDeltas([], s.tally.last[x], [p], w) == map[p := w];
    ApplyOne(s.tally, map[], p, w, true);
    NoDeltasNoChange(s.tally, map[], true);
  }

  /** Somebody who listed `p` lists nobody any more. */
  lemma {:induction false} Withdraws(s: State, x: Name, p: Name, f: Scale, w: real)
    requires WellFormed(s) && Registered(s.roll, s.tally) && x in s.roll.voters
    requires s.roll.voters[x].proxy.None? && s.roll.voters[x].producers == [p]
    requires w == WeightOf(s, x, f) && s.tally.last[x] > 0.0 && p in s.tally.votes
    ensures Exec(s, Vote(x, None, [], f)) ==
            State(s.roll.(voters := s.roll.voters[x := s.roll.voters[x].(producers := [])]), s.active,
                  s.tally.(last := s.tally.last[x := w],
                           votes := s.tally.votes[p := AddVotes(s.tally.votes[p], -s.tally.last[x], true)],
                           total := s.tally.total - s.tally.last[x]), s.activatedStake)
  {
    hide Exec, Shaped, Registered, ApplyDeltas, CurrentWeight;
    PlainVote(s, x, [], f, w);
    assert BallotDeltas([p], s.tally.last[x], [], w) == map[p := -s.tally.last[x]];
    ApplyOne(s.tally, map[], p, -s.tally.last[x], true);
    NoDeltasNoChange(s.tally, map[], true);
  }

  // ---------------------------------------------------------------- following a proxy

  /** A row that lists at most one producer tells it of a change, if that is more than one vote. */
  function Told(t: Tally, ps: seq<Name>, d: real): Tally
    requires |ps| <= 1 && forall p <- ps :: p in t.votes
  {
    if ps == [] || Abs(d) <= 1.0 then t else t.(votes := t.votes[ps[0] := t.votes[ps[0]] + d], total := t.total + d)
  }

  lemma {:induction false} SpreadToOne(t: Tally, ps: seq<Name>, d: real)
    requires |ps| <= 1 && AllRegistered(t, ps) && Abs(d) > 1.0
    ensures ApplyDeltas(t, SameDelta(ps, d), false) == Told(t, ps, d)
  {
    hide ApplyDeltas, RealSum;
    NoDeltasNoChange(t, map[], false);
    if ps == [] {
      assert SameDelta(ps, d) == map[];
    } else {
      assert SameDelta(ps, d) == map[][ps[0] := d];
      ApplyOne(t, map[], ps[0], d, false);
    }
  }

  /** A row takes its current weight, and tells whom it lists. */
  lemma {:induction false} TakesWeight(g: Roll, t: Tally, q: Name, f: Scale, u: real)
    requires Shaped(g) && Fits(g, t) && q in g.voters && u == CurrentWeight(g.voters[q], t.proxied[q], f)
    requires |g.voters[q].producers| <= 1 && AllRegistered(t, g.voters[q].producers)
    requires g.voters[q].proxy.None? || Abs(u - t.last[q]) <= 1.0
    ensures Propagate(g, t, q, f) == Some(Set(Told(t, g.voters[q].producers, u - t.last[q]), q, u))
  {
    hide Propagate, Dropped, Shaped, ApplyDeltas;
    if Abs(u - t.last[q]) <= 1.0 {
      PropagateQuiet(g, t, q, f);
    } else {
      PropagateSpread(g, t, q, f);
      SpreadToOne(t, g.voters[q].producers, u - t.last[q]);
    }
  }

  /** A vote that moves no producer's votes by its own deltas. */
  lemma {:induction false} BareVote(
    s: State, x: Name, proxy: Option<Name>, prods: seq<Name>, f: Scale, t1: Tally, t2: Tally)
    requires WellFormed(s) && MayVote(s, x, proxy, prods, true, f) && Registered(s.roll, s.tally)
    requires Withdraw(s.roll, s.tally, x, f) == Some(t1) && Entrust(s.roll, t1, proxy, WeightOf(s, x, f), f) == Some(t2)
    requires Losing(s.roll.voters[x], s.tally.last[x]) == [] == Gaining(proxy, prods, WeightOf(s, x, f))
    ensures Exec(s, Vote(x, proxy, prods, f)) ==
            State(StoreBallot(s.roll, x, proxy, prods, true), s.active, Set(t2, x, WeightOf(s, x, f)),
                  s.activatedStake + if s.tally.last[x] <= 0.0 then s.roll.voters[x].staked else 0)
  {
    assert x in s.roll.voters && (proxy.Some? ==> proxy.value in s.roll.voters);
    hide Withdraw, Entrust, Recount, Shaped, ShapedVoter, MayVote, StoreBallot, ApplyDeltas, WeightOf, Exec, Registered,
      Losing, Gaining;
    var w := WeightOf(s, x, f);
    VoteLeadsTo(s, x, proxy, prods, f);
    RecountLeadsTo(s.roll, s.tally, x, proxy, prods, w, f, t1, t2);
    assert BallotDeltas([], s.tally.last[x], [], w) == map[];
    NoDeltasNoChange(t2, map[], true);
  }

  /** `x`, which follows nobody and lists nobody, follows the proxy `q`. */
  lemma {:induction false} Follows(s: State, x: Name, q: Name, f: Scale, w: real, u: real)
    requires WellFormed(s) && Registered(s.roll, s.tally) && x != q && x in s.roll.voters && q in s.roll.voters
    requires s.roll.voters[x].proxy.None? && s.roll.voters[x].producers == [] && !s.roll.voters[x].isProxy
    requires s.roll.voters[q].isProxy && s.roll.voters[q].proxy.None? && |s.roll.voters[q].producers| <= 1
    requires w == f(s.roll.voters[x].staked) >= 0.0 && u == f(s.roll.voters[q].staked) + (s.tally.proxied[q] + w)
    ensures AllRegistered(s.tally, s.roll.voters[q].producers)
    ensures var t := Told(AddProxied(s.tally, q, w), s.roll.voters[q].producers, u - s.tally.last[q]);
            Exec(s, Vote(x, Some(q), [], f)) ==
            State(Roll(s.roll.voters[x := s.roll.voters[x].(proxy := Some(q))], Rerank(s.roll.rank, Some(q))), s.active,
                  Set(Set(t, q, u), x, w),
                  s.activatedStake + if s.tally.last[x] <= 0.0 then s.roll.voters[x].staked else 0)
  {
    hide Propagate, Shaped, Exec, Registered, Told;
    RegisteredRow(s.roll, s.tally, q);
    var t' := AddProxied(s.tally, q, w);
    TakesWeight(s.roll, t', q, f, u);
    BareVote(s, x, Some(q), [], f, s.tally, Set(Told(t', s.roll.voters[q].producers, u - s.tally.last[q]), q, u));
  }

  /** `x` leaves the proxy `q`. */
  lemma {:induction false} Leaves(s: State, x: Name, q: Name, f: Scale, w: real, u: real)
    requires WellFormed(s) && Registered(s.roll, s.tally) && x != q && x in s.roll.voters && q in s.roll.voters
    requires s.roll.voters[x].proxy == Some(q) && s.tally.last[x] > 0.0 && w == f(s.roll.voters[x].staked)
    requires u == CurrentWeight(s.roll.voters[q], s.tally.proxied[q] - s.tally.last[x], f)
    requires |s.roll.voters[q].producers| <= 1 && (s.roll.voters[q].proxy.None? || Abs(u - s.tally.last[q]) <= 1.0)
    ensures AllRegistered(s.tally, s.roll.voters[q].producers)
    ensures var t := Told(AddProxied(s.tally, q, -s.tally.last[x]), s.roll.voters[q].producers, u - s.tally.last[q]);
            Exec(s, Vote(x, None, [], f)) ==
            s.(roll := s.roll.(voters := s.roll.voters[x := s.roll.voters[x].(proxy := None, producers := [])]),
               tally := Set(Set(t, q, u), x, w))
  {
    hide Propagate, Exec, Shaped, CurrentWeight, Told, Withdraw, MayVote, Registered;
    RegisteredRow(s.roll, s.tally, q);
    LeavingIsAllowed(s, x, f);
    var t' := AddProxied(s.tally, q, -s.tally.last[x]);
    TakesWeight(s.roll, t', q, f, u);
    var t1 := Set(Told(t', s.roll.voters[q].producers, u - s.tally.last[q]), q, u);
    assert Gaining(None, [], WeightOf(s, x, f)) == [];
    BareVote(s, x, None, [], f, t1, t1);
  }

  /** The same, when the proxy lists nobody. */
  lemma {:induction false} FollowsIdle(s: State, x: Name, q: Name, f: Scale, w: real, u: real)
    requires WellFormed(s) && Registered(s.roll, s.tally) && x != q && x in s.roll.voters && q in s.roll.voters
    requires s.roll.voters[x].proxy.None? && s.roll.voters[x].producers == [] && !s.roll.voters[x].isProxy
    requires s.roll.voters[q].isProxy && s.roll.voters[q].proxy.None? && s.roll.voters[q].producers == []
    requires w == f(s.roll.voters[x].staked) >= 0.0 && u == f(s.roll.voters[q].staked) + (s.tally.proxied[q] + w)
    ensures Exec(s, Vote(x, Some(q), [], f)) ==
            State(Roll(s.roll.voters[x := s.roll.voters[x].(proxy := Some(q))], Rerank(s.roll.rank, Some(q))), s.active,
                  s.tally.(last := s.tally.last[q := u][x := w],
                           proxied := s.tally.proxied[q := s.tally.proxied[q] + w]),
                  s.activatedStake + if s.tally.last[x] <= 0.0 then s.roll.voters[x].staked else 0)
  {
    hide WellFormed, Registered, Exec, Rerank;
    Follows(s, x, q, f, w, u);
  }

  lemma {:induction false} LeavesIdle(s: State, x: Name, q: Name, f: Scale, w: real, u: real)
    requires WellFormed(s) && Registered(s.roll, s.tally) && x != q && x in s.roll.voters && q in s.roll.voters
    requires s.roll.voters[x].proxy == Some(q) && s.tally.last[x] > 0.0 && w == f(s.roll.voters[x].staked)
    requires u == CurrentWeight(s.roll.voters[q], s.tally.proxied[q] - s.tally.last[x], f)
    requires s.roll.voters[q].producers == [] && (s.roll.voters[q].proxy.None? || Abs(u - s.tally.last[q]) <= 1.0)
    ensures Exec(s, Vote(x, None, [], f)) ==
            s.(roll := s.roll.(voters := s.roll.voters[x := s.roll.voters[x].(proxy := None, producers := [])]),
               tally := s.tally.(last := s.tally.last[q := u][x := w],
                                 proxied := s.tally.proxied[q := s.tally.proxied[q] - s.tally.last[x]]))
  {
    hide WellFormed, Registered, Exec, CurrentWeight;
    Leaves(s, x, q, f, w, u);
  }

  lemma {:induction false} LeavingIsAllowed(s: State, x: Name, f: Scale)
    requires WellFormed(s) && x in s.roll.voters && s.roll.voters[x].proxy.Some?
    ensures s.roll.voters[x].proxy.value in s.roll.voters
    ensures MayVote(s, x, None, [], true, f) && WeightOf(s, x, f) == f(s.roll.voters[x].staked)
    ensures var q := s.roll.voters[x].proxy.value;
            s.tally.last[x] > 0.0 ==>
              Withdraw(s.roll, s.tally, x, f) == Propagate(s.roll, AddProxied(s.tally, q, -s.tally.last[x]), q, f)
  {
    hide Propagate, Withdraw, AddProxied;
    assert ShapedVoter(s.roll, x);
    hide Shaped, ShapedVoter;
    WithdrawsFrom(s.roll, s.tally, x, f);
  }

  lemma {:induction false} WithdrawsFrom(g: Roll, t: Tally, x: Name, f: Scale)
    requires Shaped(g) && Fits(g, t) && x in g.voters && g.voters[x].proxy.Some?
    ensures var q := g.voters[x].proxy.value;
            && q in g.voters
            && (t.last[x] > 0.0 ==> Withdraw(g, t, x, f) == Propagate(g, AddProxied(t, q, -t.last[x]), q, f))
  {
    hide Propagate, Shaped, ShapedVoter, AddProxied;
    ProxyHasRow(g, x);
  }

  // ---------------------------------------------------------------- stake changes

  /** Somebody who has no ballot stakes. */
  lemma {:induction false} Stakes(s: State, x: Name, n: nat, f: Scale)
    requires WellFormed(s) && x in s.roll.voters && s.roll.voters[x] == Voter(None, [], 0, s.roll.voters[x].isProxy)
    ensures Exec(s, ChangeStake(x, n, f)) ==
            s.(roll := s.roll.(voters := s.roll.voters[x := s.roll.voters[x].(staked := n)]))
  {
    hide Shaped, UpdateVotes;
  }

  /** Somebody who lists `p` changes its stake, and the ballot is cast again. */
  lemma {:induction false} Recasts(s: State, x: Name, p: Name, delta: int, f: Scale, w: real)
    requires WellFormed(s) && Registered(s.roll, s.tally) && x in s.roll.voters && s.roll.voters[x].staked + delta >= 0
    requires s.roll.voters[x].proxy.None? && s.roll.voters[x].producers == [p] && s.tally.last[x] > 0.0
    requires w == CurrentWeight(s.roll.voters[x].(staked := s.roll.voters[x].staked + delta), s.tally.proxied[x],
                                f) >= 0.0
    ensures p in s.tally.votes
    ensures Exec(s, ChangeStake(x, delta, f)) ==
            State(s.roll.(voters := s.roll.voters[x := s.roll.voters[x].(staked := s.roll.voters[x].staked + delta)]),
                  s.active,
                  s.tally.(last := s.tally.last[x := w],
                           votes := s.tally.votes[p := AddVotes(s.tally.votes[p], w - s.tally.last[x], true)],
                           total := s.tally.total + (w - s.tally.last[x])), s.activatedStake)
  {
    hide Exec, Shaped, Registered, ApplyDeltas, CurrentWeight, Recount, AddVotes, BallotDeltas, UpdateVotes;
    RegisteredRow(s.roll, s.tally, x);
    assert p in s.roll.voters[x].producers;
    var s' := s.(roll := SetStake(s.roll, x, s.roll.voters[x].staked + delta));
    RestakeCasts(s, x, delta, f);
    RecastLeadsTo(s', x, p, f, w);
    OneDelta(s.tally, p, s.tally.last[x], w);
  }

  lemma {:induction false} OneDelta(t: Tally, p: Name, last: real, w: real)
    requires p in t.votes
    ensures ApplyDeltas(t, BallotDeltas([p], last, [p], w), true) ==
            t.(votes := t.votes[p := AddVotes(t.votes[p], w - last, true)], total := t.total + (w - last))
  {
    hide ApplyDeltas;
    assert BallotDeltas([p], last, [p], w) == map[][p := w - last];
    ApplyOne(t, map[], p, w - last, true);
    NoDeltasNoChange(t, map[], true);
  }

  lemma {:induction false} RestakeCasts(s: State, x: Name, delta: int, f: Scale)
    requires WellFormed(s) && x in s.roll.voters && s.roll.voters[x].staked + delta >= 0
    requires s.roll.voters[x].producers != []
    ensures var v := s.roll.voters[x];
            var s' := s.(roll := SetStake(s.roll, x, v.staked + delta));
            var r := UpdateVotes(s', x, v.proxy, v.producers, false, f);
            r.Some? ==> Exec(s, ChangeStake(x, delta, f)) == r.value
  {
    hide Shaped, UpdateVotes;
  }

  lemma {:induction false} RecastLeadsTo(s: State, x: Name, p: Name, f: Scale, w: real)
    requires WellFormed(s) && x in s.roll.voters && p in s.tally.votes
    requires s.roll.voters[x].proxy.None? && s.roll.voters[x].producers == [p] && s.tally.last[x] > 0.0
    requires w == CurrentWeight(s.roll.voters[x], s.tally.proxied[x], f) >= 0.0
    ensures UpdateVotes(s, x, None, [p], false, f) ==
            Some(s.(tally := Set(ApplyDeltas(s.tally, BallotDeltas([p], s.tally.last[x], [p], w), true), x, w)))
  {
    hide Shaped, Recount, BallotDeltas, ApplyDeltas, CurrentWeight;
    RecountLeadsTo(s.roll, s.tally, x, None, [p], w, f, s.tally, s.tally);
    assert StoreBallot(s.roll, x, None, [p], false) == s.roll;
  }

  lemma {:induction false} RunPlus(s: State, run: seq<Action>, more: seq<Action>)
    requires WellFormed(s)
    ensures Run(s, run + more) == Run(Run(s, run), more)
    decreases |run|
  {
    hide Exec, WellFormed;
    if run == [] {
      assert run + more == more;
    } else {
      RunPlus(Exec(s, run[0]), run[1..], more);
      assert (run + more)[1..] == run[1..] + more;
    }
  }
}
