/** The voting actions as the system contract runs them: rows are rewritten one at a time, weight
    changes are pushed along proxy chains by recursion, and a failed check rolls everything back. */
module VotingContract {
  import opened Sums
  import opened Voting
  import opened VotingTallies

  lemma CreditNone(t: Tally, ps: seq<Name>, delta: real)
    ensures ApplyDeltas(t, SameDelta(ps[..0], delta), false) == t && AllRegistered(t, ps[..0])
  {
    hide ApplyDeltas;
    assert SameDelta(ps[..0], delta) == map[];
    NoDeltasNoChange(t, map[], false);
  }

  lemma CreditNext(t: Tally, ps: seq<Name>, delta: real, i: nat)
    requires StrictlySorted(ps) && i < |ps| && ps[i] in t.votes && AllRegistered(t, ps[..i])
    ensures var r := ApplyDeltas(t, SameDelta(ps[..i], delta), false);
            && r.votes.Keys == t.votes.Keys
            && ApplyDeltas(t, SameDelta(ps[..i + 1], delta), false) ==
               r.(votes := r.votes[ps[i] := r.votes[ps[i]] + delta], total := r.total + delta)
    ensures AllRegistered(t, ps[..i + 1])
  {
    assert ps[..i + 1] == ps[..i] + [ps[i]];
    assert SameDelta(ps[..i + 1], delta) == SameDelta(ps[..i], delta)[ps[i] := delta];
    assert ps[i] !in ps[..i];
    hide RealSum, ApplyDeltas, StrictlySorted;
    DeltasKeepKeys(t, SameDelta(ps[..i], delta), false);
    ApplyOne(t, SameDelta(ps[..i], delta), ps[i], delta, false);
  }

  lemma NotAllRegistered(t: Tally, ps: seq<Name>, p: Name)
    requires p in ps && p !in t.votes
    ensures !AllRegistered(t, ps)
  {
  }

  lemma DeltasKeepKeys(t: Tally, d: map<Name, real>, floor: bool)
    ensures ApplyDeltas(t, d, floor).votes.Keys == t.votes.Keys
  {
  }

  class SystemContract {
    var voters: map<Name, Voter>
    var lastWeight: map<Name, real>
    var proxiedWeight: map<Name, real>
    var active: map<Name, bool>
    var totalVotes: map<Name, real>
    var totalWeight: real
    var activatedStake: int
    ghost var rank: map<Name, nat>

    ghost function GetRoll(): Roll
      reads this
    {
      Roll(voters, rank)
    }

    ghost function GetTally(): Tally
      reads this
    {
      Tally(lastWeight, proxiedWeight, totalVotes, totalWeight)
    }

    ghost function View(): State
      reads this
    {
      State(GetRoll(), active, GetTally(), activatedStake)
    }

    ghost predicate Valid()
      reads this
    {
      WellFormed(View())
    }

    constructor ()
      ensures View() == EMPTY && Valid()
    {
      voters, lastWeight, proxiedWeight, active, totalVotes := map[], map[], map[], map[], map[];
      totalWeight, activatedStake, rank := 0.0, 0, map[];
    }

    /** Credits `delta` to each listed producer; false if one of them is not registered. */
    method CreditAll(ps: seq<Name>, delta: real) returns (ok: bool)
      requires StrictlySorted(ps)
      modifies this`totalVotes, this`totalWeight
      ensures ok <==> AllRegistered(old(GetTally()), ps)
      ensures ok ==> GetTally() == ApplyDeltas(old(GetTally()), SameDelta(ps, delta), false)
    {
      hide RealSum, ApplyDeltas, SameDelta, AllRegistered, StrictlySorted;
      ghost var t := GetTally();
      CreditNone(t, ps, delta);
      for i := 0 to |ps|
        invariant AllRegistered(t, ps[..i])
        invariant GetTally() == ApplyDeltas(t, SameDelta(ps[..i], delta), false)
      {
        DeltasKeepKeys(t, SameDelta(ps[..i], delta), false);
        var p := ps[i];
        if p !in totalVotes {
          NotAllRegistered(t, ps, p);
          return false;
        }
        CreditNext(t, ps, delta, i);
        totalVotes := totalVotes[p := totalVotes[p] + delta];
        totalWeight := totalWeight + delta;
      }
      assert ps[..|ps|] == ps;
      return true;
    }

    /** Moves the weight entrusted to `q` by `d`, then brings q's own chain up to date. */
    method PushToProxy(q: Name, d: real, f: Scale) returns (ok: bool)
      requires Shaped(GetRoll()) && Fits(GetRoll(), GetTally()) && q in voters
      modifies this`lastWeight, this`proxiedWeight, this`totalVotes, this`totalWeight
      ensures ok <==> Propagate(GetRoll(), AddProxied(old(GetTally()), q, d), q, f).Some?
      ensures ok ==> GetTally() == Propagate(GetRoll(), AddProxied(old(GetTally()), q, d), q, f).value
      ensures ok ==> Fits(GetRoll(), GetTally()) && totalVotes.Keys == old(totalVotes.Keys)
      decreases rank[q], 1
    {
      hide Propagate, ShapedVoter;
      proxiedWeight := proxiedWeight[q := proxiedWeight[q] + d];
      assert GetTally() == AddProxied(old(GetTally()), q, d);
      ok := PropagateWeightChange(q, f);
    }

    /** Recomputes one row's weight and pushes the change along its proxy chain. */
    method PropagateWeightChange(x: Name, f: Scale) returns (ok: bool)
      requires Shaped(GetRoll()) && Fits(GetRoll(), GetTally()) && x in voters
      modifies this`lastWeight, this`proxiedWeight, this`totalVotes, this`totalWeight
      ensures ok <==> Propagate(GetRoll(), old(GetTally()), x, f).Some?
      ensures ok ==> GetTally() == Propagate(GetRoll(), old(GetTally()), x, f).value
      decreases rank[x], 0
    {
      hide RealSum, ApplyDeltas, Propagate, Dropped, Shaped, ShapedVoter, StrictlySorted, AddProxied, SameDelta,
        AllRegistered;
      ghost var g, t := GetRoll(), GetTally();
      RowFacts(g, x);
      // an account registered as a proxy never uses a proxy
      assert voters[x].proxy.None? || !voters[x].isProxy;
      var newWeight := CurrentWeight(voters[x], proxiedWeight[x], f);
      assert newWeight - lastWeight[x] == Change(g, t, x, f) && t.last[x] + Change(g, t, x, f) == newWeight;
      hide Change, CurrentWeight;
      PropagateCases(g, t, x, f);
      if Abs(newWeight - lastWeight[x]) > 1.0 {
        if voters[x].proxy.Some? {
          var q := voters[x].proxy.value;
          // the proxy of a row always has a row
          assert q in voters;
          ok := PushToProxy(q, newWeight - lastWeight[x], f);
        } else {
          ok := CreditAll(voters[x].producers, newWeight - lastWeight[x]);
        }
        if !ok {
          return;
        }
      }
      lastWeight := lastWeight[x := newWeight];
      ok := true;
    }

    /** The checks of a ballot that need no table. */
    method CheckBallot(x: Name, proxy: Option<Name>, prods: seq<Name>) returns (ok: bool)
      ensures ok <==> ValidBallot(x, proxy, prods)
    {
      if proxy.Some? {
        return |prods| == 0 && x != proxy.value;
      }
      if |prods| > MAX_VOTES {
        return false;
      }
      var i := 1;
      while i < |prods|
        invariant 1 <= i && (i <= |prods| ==> StrictlySorted(prods[..i]))
        invariant i > |prods| ==> prods == []
      {
        if prods[i - 1] >= prods[i] {
          return false;
        }
        assert prods[..i + 1] == prods[..i] + [prods[i]];
        i := i + 1;
      }
      assert prods == [] || prods[..|prods|] == prods;
      return true;
    }

    /** Collects the per-producer changes of a ballot, losing approvals first. */
    method CollectDeltas(losing: seq<Name>, l: real, gaining: seq<Name>, g: real) returns (deltas: map<Name, real>)
      requires StrictlySorted(losing) && StrictlySorted(gaining)
      ensures deltas == BallotDeltas(losing, l, gaining, g)
    {
      hide BallotDeltas, StrictlySorted;
      deltas := map[];
      NoDeltas(l, g);
      for i := 0 to |losing|
        invariant deltas == BallotDeltas(losing[..i], l, [], g)
      {
        LoseNext(losing, l, g, i);
        deltas := deltas[losing[i] := (if losing[i] in deltas then deltas[losing[i]] else 0.0) - l];
      }
      assert losing[..|losing|] == losing;
      for i := 0 to |gaining|
        invariant deltas == BallotDeltas(losing, l, gaining[..i], g)
      {
        GainNext(losing, l, gaining, g, i);
        deltas := deltas[gaining[i] := (if gaining[i] in deltas then deltas[gaining[i]] else 0.0) + g];
      }
      assert gaining[..|gaining|] == gaining;
    }

    /** Applies the collected changes in any order; false if a newly approved producer is missing, or
        inactive while the voter is voting. */
    method ApplyAll(deltas: map<Name, real>, gaining: seq<Name>, voting: bool) returns (ok: bool)
      requires active.Keys == totalVotes.Keys
      requires forall p <- gaining :: p in deltas
      modifies this`totalVotes, this`totalWeight
      ensures ok <==> forall p <- gaining :: p in active && (!voting || active[p])
      ensures ok ==> GetTally() == ApplyDeltas(old(GetTally()), deltas, true)
    {
      hide RealSum, ApplyDeltas;
      ghost var t := GetTally();
      NoDeltasNoChange(t, map[], true);
      var todo := deltas.Keys;
      ghost var done: map<Name, real> := map[];
      while todo != {}
        invariant todo <= deltas.Keys
        invariant done == map p | p in deltas && p !in todo :: deltas[p]
        invariant GetTally() == ApplyDeltas(t, done, true)
        invariant forall p <- gaining :: p in todo || (p in active && (!voting || active[p]))
      {
        var p :| p in todo;
        DeltasKeepKeys(t, done, true);
        ApplyOne(t, done, p, deltas[p], true);
        if p in totalVotes {
          if voting && !active[p] && p in gaining {
            return false;
          }
          totalVotes := totalVotes[p := AddVotes(totalVotes[p], deltas[p], true)];
          totalWeight := totalWeight + deltas[p];
        } else if p in gaining {
          return false;
        }
        done := done[p := deltas[p]];
        todo := todo - {p};
      }
      assert done == deltas;
      return true;
    }

    /** Takes the old ballot's weight back from its proxy, if it has one and cast any weight. */
    method WithdrawBallot(x: Name, f: Scale) returns (ok: bool)
      requires Shaped(GetRoll()) && Fits(GetRoll(), GetTally()) && x in voters
      modifies this`lastWeight, this`proxiedWeight, this`totalVotes, this`totalWeight
      ensures ok <==> Withdraw(GetRoll(), old(GetTally()), x, f).Some?
      ensures ok ==> GetTally() == Withdraw(GetRoll(), old(GetTally()), x, f).value
    {
      hide Propagate, Shaped, ShapedVoter, AddProxied;
      RowFacts(GetRoll(), x);
      if lastWeight[x] > 0.0 && voters[x].proxy.Some? {
        // the old proxy always has a row
        assert voters[x].proxy.value in voters;
        ok := PushToProxy(voters[x].proxy.value, -lastWeight[x], f);
      } else {
        ok := true;
      }
    }

    /** Gives the new ballot's weight to its proxy, which while voting must be registered as one. */
    method EntrustBallot(proxy: Option<Name>, w: real, voting: bool, f: Scale) returns (ok: bool)
      requires Shaped(GetRoll()) && Fits(GetRoll(), GetTally())
      modifies this`lastWeight, this`proxiedWeight, this`totalVotes, this`totalWeight
      ensures ok <==> MayEntrust(voters, proxy, voting) && Entrust(GetRoll(), old(GetTally()), proxy, w, f).Some?
      ensures ok ==> GetTally() == Entrust(GetRoll(), old(GetTally()), proxy, w, f).value
    {
      hide Propagate, Shaped, ShapedVoter, AddProxied;
      if proxy.Some? {
        if proxy.value !in voters || (voting && !voters[proxy.value].isProxy) {
          return false;
        }
        if w >= 0.0 {
          ok := PushToProxy(proxy.value, w, f);
          return;
        }
      }
      ok := true;
    }

    /** Moves the producers' votes from the old ballot to the new one. */
    method MoveVotes(losing: seq<Name>, l: real, gaining: seq<Name>, g: real, voting: bool) returns (ok: bool)
      requires StrictlySorted(losing) && StrictlySorted(gaining) && active.Keys == totalVotes.Keys
      modifies this`totalVotes, this`totalWeight
      ensures ok <==> MayGain(active, gaining, voting)
      ensures ok ==> GetTally() == ApplyDeltas(old(GetTally()), BallotDeltas(losing, l, gaining, g), true)
    {
      hide ApplyDeltas, BallotDeltas, StrictlySorted;
      var deltas := CollectDeltas(losing, l, gaining, g);
      GainersHaveDeltas(losing, l, gaining, g);
      ok := ApplyAll(deltas, gaining, voting);
    }

    /** Moves every tally from the old ballot of `x` to the new one. When it fails, the tallies are
        left half moved; the caller rolls back. */
    method MoveTallies(
      x: Name, proxy: Option<Name>, prods: seq<Name>, w: real, voting: bool, f: Scale) returns (ok: bool)
      requires Shaped(GetRoll()) && Fits(GetRoll(), GetTally()) && active.Keys == totalVotes.Keys
      requires x in voters && ValidBallot(x, proxy, prods)
      modifies this`lastWeight, this`proxiedWeight, this`totalVotes, this`totalWeight
      ensures ok <==>
        && MayEntrust(voters, proxy, voting)
        && MayGain(active, Gaining(proxy, prods, w), voting)
        && Recount(GetRoll(), old(GetTally()), x, proxy, prods, w, f).Some?
      ensures ok ==> GetTally() == Recount(GetRoll(), old(GetTally()), x, proxy, prods, w, f).value
    {
      hide Shaped, ShapedVoter, ApplyDeltas, BallotDeltas, Withdraw, Entrust, MayGain, StrictlySorted;
      RowFacts(GetRoll(), x);
      SortedEmpty();
      var last := lastWeight[x];
      ok := WithdrawBallot(x, f);
      if !ok { return; }
      ok := EntrustBallot(proxy, w, voting, f);
      if !ok { return; }
      ok := MoveVotes(Losing(voters[x], last), last, Gaining(proxy, prods, w), w, voting);
      lastWeight := lastWeight[x := w];
    }

    method StoreRow(x: Name, proxy: Option<Name>, prods: seq<Name>, ghost voting: bool)
      requires x in voters
      modifies this`voters, this`rank
      ensures GetRoll() == StoreBallot(old(GetRoll()), x, proxy, prods, voting)
    {
      voters := voters[x := voters[x].(producers := prods, proxy := proxy)];
      rank := if voting then Rerank(rank, proxy) else rank;
    }

    /** Casts a ballot. On failure nothing has changed. */
    method UpdateVotes(x: Name, proxy: Option<Name>, prods: seq<Name>, voting: bool, f: Scale) returns (ok: bool)
      requires Valid()
      requires !voting && x in voters ==> proxy == voters[x].proxy
      modifies this
      ensures Voting.UpdateVotes(old(View()), x, proxy, prods, voting, f) == if ok then Some(View()) else None
      ensures !ok ==> View() == old(View())
      ensures Valid()
    {
      hide Shaped, ShapedVoter, Recount, ValidBallot, MayGain, MayEntrust, Gaining, StoreBallot, CurrentWeight,
        Voting.UpdateVotes;
      ghost var s := View();
      UpdateVotesCases(s, x, proxy, prods, voting, f);
      ok := CheckBallot(x, proxy, prods);
      if !ok { return; }
      if x !in voters || (proxy.Some? && voters[x].isProxy) {
        return false;
      }
      var savedLast, savedProxied, savedVotes, savedWeight := lastWeight, proxiedWeight, totalVotes, totalWeight;
      var w := CurrentWeight(voters[x], proxiedWeight[x], f);
      ok := MoveTallies(x, proxy, prods, w, voting, f);
      if !ok {
        lastWeight, proxiedWeight, totalVotes, totalWeight := savedLast, savedProxied, savedVotes, savedWeight;
        return;
      }
      if savedLast[x] <= 0.0 {
        activatedStake := activatedStake + voters[x].staked;
      }
      StoreRow(x, proxy, prods, voting);
    }

    /** `regproxy`. */
    method RegProxy(x: Name, flag: bool, f: Scale) returns (ok: bool)
      requires Valid()
      modifies this
      ensures Voting.RegProxy(old(View()), x, flag, f) == if ok then Some(View()) else None
      ensures !ok ==> View() == old(View())
      ensures Valid()
    {
      hide Propagate, ShapedVoter;
      if x !in voters {
        voters := voters[x := Voter(None, [], 0, flag)];
        lastWeight, proxiedWeight, rank := lastWeight[x := 0.0], proxiedWeight[x := 0.0], rank[x := 0];
        return true;
      }
      if flag == voters[x].isProxy || (flag && voters[x].proxy.Some?) {
        return false;
      }
      var savedVoters, savedLast, savedProxied, savedVotes, savedWeight := voters, lastWeight, proxiedWeight,
          totalVotes, totalWeight;
      voters := voters[x := voters[x].(isProxy := flag)];
      assert GetRoll() == SetFlag(old(GetRoll()), x, flag);
      ok := PropagateWeightChange(x, f);
      if !ok {
        voters, lastWeight, proxiedWeight, totalVotes, totalWeight := savedVoters, savedLast, savedProxied,
          savedVotes, savedWeight;
      }
    }

    /** The end of `changebw`: the stake moves, and a stored ballot is cast again. */
    method ChangeStake(x: Name, delta: int, f: Scale) returns (ok: bool)
      requires Valid()
      modifies this
      ensures Restake(old(View()), x, delta, f) == if ok then Some(View()) else None
      ensures !ok ==> View() == old(View())
      ensures Valid()
    {
      hide Voting.UpdateVotes, ShapedVoter;
      if x !in voters {
        if delta < 0 { return false; }
        voters := voters[x := Voter(None, [], delta, false)];
        lastWeight, proxiedWeight, rank := lastWeight[x := 0.0], proxiedWeight[x := 0.0], rank[x := 0];
        return true;
      }
      if voters[x].staked + delta < 0 { return false; }
      var saved := voters;
      voters := voters[x := voters[x].(staked := voters[x].staked + delta)];
      assert GetRoll() == SetStake(old(GetRoll()), x, voters[x].staked);
      ok := true;
      if voters[x].producers != [] || voters[x].proxy.Some? {
        ok := UpdateVotes(x, voters[x].proxy, voters[x].producers, false, f);
        if !ok { voters := saved; }
      }
    }

    method RegProducer(p: Name)
      requires Valid()
      modifies this
      ensures View() == Voting.RegProducer(old(View()), p)
      ensures Valid()
    {
      hide ShapedVoter;
      if p !in active {
        totalVotes := totalVotes[p := 0.0];
      }
      active := active[p := true];
    }

    /** `unregprod`, and `rmvproducer`. */
    method UnregProducer(p: Name) returns (ok: bool)
      requires Valid()
      modifies this
      ensures Deactivate(old(View()), p) == if ok then Some(View()) else None
      ensures !ok ==> View() == old(View())
      ensures Valid()
    {
      hide ShapedVoter;
      if p !in active { return false; }
      active := active[p := false];
      ok := true;
    }
  }

  lemma UpdateVotesCases(s: State, x: Name, proxy: Option<Name>, prods: seq<Name>, voting: bool, f: Scale)
    requires WellFormed(s)
    requires !voting && x in s.roll.voters ==> proxy == s.roll.voters[x].proxy
    ensures var r := Voting.UpdateVotes(s, x, proxy, prods, voting, f);
            if ValidBallot(x, proxy, prods) && x in s.roll.voters && !(proxy.Some? && s.roll.voters[x].isProxy) then
              var w := CurrentWeight(s.roll.voters[x], s.tally.proxied[x], f);
              if && MayEntrust(s.roll.voters, proxy, voting)
                 && MayGain(s.active, Gaining(proxy, prods, w), voting)
                 && Recount(s.roll, s.tally, x, proxy, prods, w, f).Some?
              then
                r == Some(State(StoreBallot(s.roll, x, proxy, prods, voting), s.active,
                                Recount(s.roll, s.tally, x, proxy, prods, w, f).value,
                                s.activatedStake + if s.tally.last[x] <= 0.0 then s.roll.voters[x].staked else 0))
              else r.None?
            else r.None?
  {
    hide ShapedVoter, Recount, ValidBallot, Gaining, Shaped, CurrentWeight, StoreBallot;
  }

  lemma SortedEmpty()
    ensures StrictlySorted([])
  {
  }

  lemma GainersHaveDeltas(losing: seq<Name>, l: real, gaining: seq<Name>, g: real)
    ensures forall p <- gaining :: p in BallotDeltas(losing, l, gaining, g)
  {
  }

  lemma NoDeltas(l: real, g: real)
    ensures BallotDeltas([], l, [], g) == map[]
  {
  }

  lemma LoseNext(losing: seq<Name>, l: real, g: real, i: nat)
    requires StrictlySorted(losing) && i < |losing|
    ensures var d := BallotDeltas(losing[..i], l, [], g);
            var p := losing[i];
            BallotDeltas(losing[..i + 1], l, [], g) == d[p := (if p in d then d[p] else 0.0) - l]
  {
    assert losing[..i + 1] == losing[..i] + [losing[i]];
  }

  lemma GainNext(losing: seq<Name>, l: real, gaining: seq<Name>, g: real, i: nat)
    requires StrictlySorted(gaining) && i < |gaining|
    ensures var d := BallotDeltas(losing, l, gaining[..i], g);
            var p := gaining[i];
            BallotDeltas(losing, l, gaining[..i + 1], g) == d[p := (if p in d then d[p] else 0.0) + g]
  {
    assert gaining[..i + 1] == gaining[..i] + [gaining[i]];
  }

  lemma PropagateCases(g: Roll, t: Tally, x: Name, f: Scale)
    requires Shaped(g) && Fits(g, t) && x in g.voters
    ensures var d := Change(g, t, x, f);
            var v := g.voters[x];
            var r := Propagate(g, t, x, f);
            if Abs(d) <= 1.0 then r == Some(Set(t, x, t.last[x] + d))
            else if v.proxy.Some? then
              && v.proxy.value in g.voters && g.rank[v.proxy.value] < g.rank[x]
              && var r' := Propagate(g, AddProxied(t, v.proxy.value, d), v.proxy.value, f);
              r == if r'.None? then None else Some(Set(r'.value, x, t.last[x] + d))
            else if AllRegistered(t, v.producers) then
              r == Some(Set(ApplyDeltas(t, SameDelta(v.producers, d), false), x, t.last[x] + d))
            else r.None?
  {
    hide RealSum, ApplyDeltas, Propagate, Dropped, Shaped, ShapedVoter, SameDelta, AllRegistered, Change;
    if Abs(Change(g, t, x, f)) <= 1.0 {
      PropagateQuiet(g, t, x, f);
    } else if g.voters[x].proxy.Some? {
      PropagatePush(g, t, x, f);
    } else {
      PropagateAborts(g, t, x, f);
      if AllRegistered(t, g.voters[x].producers) { PropagateSpread(g, t, x, f); }
    }
  }

  lemma RowFacts(g: Roll, x: Name)
    requires Shaped(g) && x in g.voters
    ensures x in g.rank && StrictlySorted(g.voters[x].producers)
    ensures g.voters[x].proxy.Some? ==> !g.voters[x].isProxy && g.voters[x].proxy.value in g.voters
  {
    assert ShapedVoter(g, x);
  }
}
