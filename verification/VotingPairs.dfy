/** A proxy that lists one producer, and its one follower: what their actions do to their own rows and that
    producer's, in any tables. */
module VotingPairs {
  import opened Sums
  import opened Voting
  import opened VotingTallies
  import opened VotingRuns
  import opened VotingRegistration
  import opened VotingSteps

  // ---------------------------------------------------------------- a proxy and its follower

  /** A proxy, its one follower, and the producer the proxy lists. */
  datatype Pair = Pair(proxy: Name, follower: Name, producer: Name)

  /** The rows of a pair, and the grand total. */
  datatype Rows = Rows(
    proxy: Voter, follower: Voter, proxyLast: real, followerLast: real, entrusted: real, votes: real, total: real)

  /** `s` is `s0`, but for the rows of the pair. */
  ghost predicate At(s0: State, s: State, n: Pair, r: Rows) {
    && n.proxy != n.follower && n.producer in s0.tally.votes
    && WellFormed(s) && Registered(s.roll, s.tally)
    && s.active == s0.active && s.activatedStake >= s0.activatedStake
    && s.roll.voters == s0.roll.voters[n.proxy := r.proxy][n.follower := r.follower]
    && s.tally.last == s0.tally.last[n.proxy := r.proxyLast][n.follower := r.followerLast]
    && s.tally.proxied == s0.tally.proxied[n.proxy := r.entrusted][n.follower := 0.0]
    && s.tally.votes == s0.tally.votes[n.producer := r.votes] && s.tally.total == r.total
  }

  lemma {:induction false} Seen(s0: State, s: State, n: Pair, r: Rows)
    requires At(s0, s, n, r)
    ensures n.proxy != n.follower && WellFormed(s) && Registered(s.roll, s.tally) && n.producer in s.tally.votes
    ensures n.proxy in s.roll.voters && s.roll.voters[n.proxy] == r.proxy && n.proxy in s.tally.last
            && n.proxy in s.tally.proxied
    ensures n.follower in s.roll.voters && s.roll.voters[n.follower] == r.follower && n.follower in s.tally.last
    ensures s.tally.last[n.proxy] == r.proxyLast && s.tally.last[n.follower] == r.followerLast
    ensures s.tally.proxied[n.proxy] == r.entrusted && s.tally.votes[n.producer] == r.votes && s.tally.total == r.total
    ensures s.active == s0.active && n.follower in s.tally.proxied && s.tally.proxied[n.follower] == 0.0
  {
    hide Shaped, Registered;
  }

  ghost predicate Touches<V>(m: map<Name, V>, m': map<Name, V>, x: Name, y: Name) {
    m'.Keys == m.Keys && forall z <- m :: z != x && z != y ==> m'[z] == m[z]
  }

  /** Whatever touches only the rows of the pair. */
  lemma {:induction false} Moved(s0: State, s: State, s': State, n: Pair, r: Rows, r': Rows)
    requires At(s0, s, n, r) && WellFormed(s') && Registered(s'.roll, s'.tally)
    requires s'.active == s.active && s'.activatedStake >= s.activatedStake
    requires Touches(s.roll.voters, s'.roll.voters, n.proxy, n.follower)
    requires Touches(s.tally.last, s'.tally.last, n.proxy, n.follower)
    requires Touches(s.tally.proxied, s'.tally.proxied, n.proxy, n.follower)
    requires Touches(s.tally.votes, s'.tally.votes, n.producer, n.producer)
    requires n.proxy in s'.roll.voters && n.follower in s'.roll.voters && n.producer in s'.tally.votes
    requires s'.roll.voters[n.proxy] == r'.proxy && s'.roll.voters[n.follower] == r'.follower
    requires s'.tally.last[n.proxy] == r'.proxyLast && s'.tally.last[n.follower] == r'.followerLast
    requires s'.tally.proxied[n.proxy] == r'.entrusted && s'.tally.proxied[n.follower] == 0.0
    requires s'.tally.votes[n.producer] == r'.votes && s'.tally.total == r'.total
    ensures At(s0, s', n, r')
  {
    hide WellFormed, Registered, Touches;
    Rewritten(s0.roll.voters, s.roll.voters, s'.roll.voters, n.proxy, n.follower, r.proxy, r.follower);
    Rewritten(s0.tally.last, s.tally.last, s'.tally.last, n.proxy, n.follower, r.proxyLast, r.followerLast);
    Rewritten(s0.tally.proxied, s.tally.proxied, s'.tally.proxied, n.proxy, n.follower, r.entrusted, 0.0);
    var p := n.producer;
    Rewritten(s0.tally.votes, s.tally.votes, s'.tally.votes, p, p, r.votes, r.votes);
    assert s0.tally.votes[p := r'.votes][p := r'.votes] == s0.tally.votes[p := r'.votes];
  }

  lemma {:induction false} Rewritten<V>(
    m0: map<Name, V>, m: map<Name, V>, m': map<Name, V>, x: Name, y: Name, a: V, b: V)
    requires m == m0[x := a][y := b] && Touches(m, m', x, y)
    ensures m' == m0[x := m'[x]][y := m'[y]]
  {
  }

  lemma {:induction false} StaysRegistered(s: State, a: Action)
    requires WellFormed(s) && Registered(s.roll, s.tally) && (a.Vote? ==> AllRegistered(s.tally, a.producers))
    ensures WellFormed(Exec(s, a)) && Registered(Exec(s, a).roll, Exec(s, a).tally)
  {
    hide Registered, Exec, Shaped, MayVote;
    ActionKeepsRegistered(s, a);
  }

  lemma {:induction false} ProxyEnters(s0: State, q: Name, st: nat, f: Scale)
    requires WellFormed(s0) && Registered(s0.roll, s0.tally) && q !in s0.roll.voters
    ensures var s := Run(s0, [FlagProxy(q, true, f)] + [ChangeStake(q, st, f)]);
            && Registered(s.roll, s.tally)
            && s == s0.(roll := Roll(s0.roll.voters[q := Voter(None, [], st, true)], s0.roll.rank[q := 0]),
                        tally := s0.tally.(last := s0.tally.last[q := 0.0], proxied := s0.tally.proxied[q := 0.0]))
  {
    hide Exec, Run, Registered, Shaped, AddRow;
    var a1, a2 := FlagProxy(q, true, f), ChangeStake(q, st, f);
    RunThen(s0, [], a1);
    assert [] + [a1] == [a1];
    RunThen(s0, [a1], a2);
    EmptyRun(s0);
    FirstStake(s0, q, 0, true, f);
    StaysRegistered(s0, a1);
    NewRow(s0, q, 0, true);
    Stakes(Exec(s0, a1), q, st, f);
    StaysRegistered(Exec(s0, a1), a2);
  }

  lemma {:induction false} Enters(s0: State, n: Pair, st: nat, u: nat, f: Scale)
    requires WellFormed(s0) && Registered(s0.roll, s0.tally) && n.producer in s0.tally.votes
    requires n.proxy != n.follower && n.proxy !in s0.roll.voters && n.follower !in s0.roll.voters
    ensures At(s0, Run(s0, [FlagProxy(n.proxy, true, f)] + [ChangeStake(n.proxy, st, f)]
                       + [ChangeStake(n.follower, u, f)]), n,
               Rows(Voter(None, [], st, true), Voter(None, [], u, false), 0.0, 0.0, 0.0, s0.tally.votes[n.producer],
                    s0.tally.total))
  {
    hide Exec, Run, Registered, WellFormed, AddRow;
    var run := [FlagProxy(n.proxy, true, f)] + [ChangeStake(n.proxy, st, f)];
    ProxyEnters(s0, n.proxy, st, f);
    var s := Run(s0, run);
    var a := ChangeStake(n.follower, u, f);
    RunThen(s0, run, a);
    FirstStake(s, n.follower, u, false, f);
    StaysRegistered(s, a);
    NewRow(s, n.follower, u, false);
    assert s0.tally.votes == s0.tally.votes[n.producer := s0.tally.votes[n.producer]];
  }

  lemma {:induction false} EmptyRun(s: State)
    requires WellFormed(s)
    ensures Run(s, []) == s
  {
  }

  lemma {:induction false} NewRow(s: State, x: Name, staked: nat, isProxy: bool)
    requires WellFormed(s) && x !in s.roll.voters
    ensures AddVoter(s, x, staked, isProxy) ==
            s.(roll := Roll(s.roll.voters[x := Voter(None, [], staked, isProxy)], s.roll.rank[x := 0]),
               tally := s.tally.(last := s.tally.last[x := 0.0], proxied := s.tally.proxied[x := 0.0]))
  {
    hide Shaped;
  }

  function Listing(r: Rows, n: Pair, w: real): Rows {
    r.(proxy := r.proxy.(producers := [n.producer]), proxyLast := w, votes := r.votes + w, total := r.total + w)
  }

  /** The proxy lists the producer. */
  lemma {:induction false} ListsStep(s0: State, s: State, n: Pair, r: Rows, f: Scale, w: real)
    requires At(s0, s, n, r) && s0.active.Keys == s0.tally.votes.Keys && s0.active[n.producer]
    requires r.proxy.proxy.None? && r.proxy.producers == [] && r.proxy.isProxy
    requires w == f(r.proxy.staked) + r.entrusted >= 0.0 && r.votes >= 0.0 && r.proxy.staked >= 0
    ensures At(s0, Exec(s, Vote(n.proxy, None, [n.producer], f)), n, Listing(r, n, w))
  {
    hide At, Exec, Registered, Shaped;
    Seen(s0, s, n, r);
    Approves(s, n.proxy, n.producer, f, w);
    StaysRegistered(s, Vote(n.proxy, None, [n.producer], f));
    Moved(s0, s, Exec(s, Vote(n.proxy, None, [n.producer], f)), n, r, Listing(r, n, w));
  }

  function Following(r: Rows, n: Pair, w: real, v: real): Rows {
    r.(follower := r.follower.(proxy := Some(n.proxy)), proxyLast := v, followerLast := w,
      entrusted := r.entrusted + w, votes := r.votes + (v - r.proxyLast), total := r.total + (v - r.proxyLast))
  }

  /** The follower follows; the proxy tells the producer. */
  lemma {:induction false} FollowStep(s0: State, s: State, n: Pair, r: Rows, f: Scale, w: real, v: real)
    requires At(s0, s, n, r) && r.proxy.proxy.None? && r.proxy.isProxy && r.proxy.producers == [n.producer]
    requires r.follower.proxy.None? && r.follower.producers == [] && !r.follower.isProxy && r.follower.staked >= 0
    requires w == f(r.follower.staked) >= 0.0 && v == f(r.proxy.staked) + (r.entrusted + w) && v - r.proxyLast > 1.0
    ensures At(s0, Exec(s, Vote(n.follower, Some(n.proxy), [], f)), n, Following(r, n, w, v))
  {
    hide At, Exec, Registered, Shaped, Rerank;
    Seen(s0, s, n, r);
    Follows(s, n.follower, n.proxy, f, w, v);
    StaysRegistered(s, Vote(n.follower, Some(n.proxy), [], f));
    Moved(s0, s, Exec(s, Vote(n.follower, Some(n.proxy), [], f)), n, r, Following(r, n, w, v));
  }

  /** What a row that lists a producer tells it of a change. */
  function Heard(d: real): real { if Abs(d) <= 1.0 then 0.0 else d }

  function Leaving(r: Rows, w: real, v: real): Rows {
    r.(follower := r.follower.(proxy := None), proxyLast := v, followerLast := w,
      entrusted := r.entrusted - r.followerLast, votes := r.votes + Heard(v - r.proxyLast),
      total := r.total + Heard(v - r.proxyLast))
  }

  /** The follower leaves; the proxy tells the producer, or not. */
  lemma {:induction false} LeaveStep(s0: State, s: State, n: Pair, r: Rows, f: Scale, w: real, v: real)
    requires At(s0, s, n, r) && r.proxy.proxy.None? && r.proxy.isProxy && r.proxy.producers == [n.producer]
    requires r.follower.proxy == Some(n.proxy) && r.follower.producers == [] && r.followerLast > 0.0
    requires w == f(r.follower.staked) && v == f(r.proxy.staked) + (r.entrusted - r.followerLast)
    ensures At(s0, Exec(s, Vote(n.follower, None, [], f)), n, Leaving(r, w, v))
  {
    hide At, Exec, Registered, Shaped;
    Seen(s0, s, n, r);
    Leaves(s, n.follower, n.proxy, f, w, v);
    StaysRegistered(s, Vote(n.follower, None, [], f));
    Moved(s0, s, Exec(s, Vote(n.follower, None, [], f)), n, r, Leaving(r, w, v));
  }

  function Withdrawing(r: Rows, w: real): Rows {
    r.(proxy := r.proxy.(producers := []), proxyLast := w, votes := AddVotes(r.votes, -r.proxyLast, true),
      total := r.total - r.proxyLast)
  }

  /** The proxy lists nobody any more. */
  lemma {:induction false} WithdrawStep(s0: State, s: State, n: Pair, r: Rows, f: Scale, w: real)
    requires At(s0, s, n, r) && r.proxy.proxy.None? && r.proxy.isProxy && r.proxy.producers == [n.producer]
    requires w == f(r.proxy.staked) + r.entrusted && r.proxyLast > 0.0
    ensures At(s0, Exec(s, Vote(n.proxy, None, [], f)), n, Withdrawing(r, w))
  {
    hide At, Exec, Registered, Shaped;
    Seen(s0, s, n, r);
    Withdraws(s, n.proxy, n.producer, f, w);
    StaysRegistered(s, Vote(n.proxy, None, [], f));
    Moved(s0, s, Exec(s, Vote(n.proxy, None, [], f)), n, r, Withdrawing(r, w));
  }

  function Unstaking(r: Rows): Rows {
    r.(proxy := r.proxy.(staked := 0), proxyLast := r.entrusted, votes := r.votes + (r.entrusted - r.proxyLast),
      total := r.total + (r.entrusted - r.proxyLast))
  }

  /** The proxy takes its own stake back. */
  lemma {:induction false} UnstakeStep(s0: State, s: State, n: Pair, r: Rows, f: Scale)
    requires At(s0, s, n, r) && r.proxy.proxy.None? && r.proxy.isProxy && r.proxy.producers == [n.producer]
    requires f(0) == 0.0 && r.entrusted >= 0.0 && r.proxyLast > 0.0 && r.votes + (r.entrusted - r.proxyLast) >= 0.0
    ensures At(s0, Exec(s, ChangeStake(n.proxy, -r.proxy.staked, f)), n, Unstaking(r))
  {
    hide At, Exec, Registered, Shaped;
    Seen(s0, s, n, r);
    Recasts(s, n.proxy, n.producer, -r.proxy.staked, f, r.entrusted);
    StaysRegistered(s, ChangeStake(n.proxy, -r.proxy.staked, f));
    Moved(s0, s, Exec(s, ChangeStake(n.proxy, -r.proxy.staked, f)), n, r, Unstaking(r));
  }

  // ---------------------------------------------------------------- runs of a pair

  /** The proxy lists the producer and is followed. */
  function Opening(n: Pair, st: nat, u: nat, f: Scale): seq<Action> {
    [FlagProxy(n.proxy, true, f)] + [ChangeStake(n.proxy, st, f)] + [ChangeStake(n.follower, u, f)]
    + [Vote(n.proxy, None, [n.producer], f)] + [Vote(n.follower, Some(n.proxy), [], f)]
  }

  /** The rows after the opening, when the stakes are worth `a` and `b`. */
  function Opened(n: Pair, st: nat, u: nat, a: real, b: real, votes: real, total: real): Rows {
    Rows(Voter(None, [n.producer], st, true), Voter(Some(n.proxy), [], u, false), a + b, b, b, votes + a + b,
         total + a + b)
  }

  lemma {:induction false} Opens(s0: State, n: Pair, st: nat, u: nat, f: Scale, a: real, b: real)
    requires WellFormed(s0) && Registered(s0.roll, s0.tally) && n.proxy != n.follower
    requires n.producer in s0.tally.votes && s0.active[n.producer] && s0.tally.votes[n.producer] >= 0.0
    requires n.proxy !in s0.roll.voters && n.follower !in s0.roll.voters && f(st) == a >= 0.0 && f(u) == b > 1.0
    ensures At(s0, Run(s0, Opening(n, st, u, f)), n,
               Opened(n, st, u, a, b, s0.tally.votes[n.producer], s0.tally.total))
  {
    hide At, Run, Exec, Registered, Shaped;
    var run := [FlagProxy(n.proxy, true, f)] + [ChangeStake(n.proxy, st, f)] + [ChangeStake(n.follower, u, f)];
    Enters(s0, n, st, u, f);
    var r := Rows(Voter(None, [], st, true), Voter(None, [], u, false), 0.0, 0.0, 0.0, s0.tally.votes[n.producer],
                  s0.tally.total);
    RunThen(s0, run, Vote(n.proxy, None, [n.producer], f));
    ListsStep(s0, Run(s0, run), n, r, f, a);
    run := run + [Vote(n.proxy, None, [n.producer], f)];
    RunThen(s0, run, Vote(n.follower, Some(n.proxy), [], f));
    FollowStep(s0, Run(s0, run), n, Listing(r, n, a), f, b, a + b);
  }

  /** The follower leaves and comes back, the proxy takes its stake out, and the follower leaves for good. */
  function Closing(n: Pair, st: nat, f: Scale): seq<Action> {
    [Vote(n.follower, None, [], f)] + [Vote(n.follower, Some(n.proxy), [], f)] + [ChangeStake(n.proxy, 0 - st, f)]
    + [Vote(n.follower, None, [], f)]
  }

  function Closed(n: Pair, u: nat, b: real, votes: real, total: real): Rows {
    Rows(Voter(None, [n.producer], 0, true), Voter(None, [], u, false), 0.0, b, 0.0, votes, total)
  }

  /** Nobody is left to vote for the producer. If the change that the first leave makes to the weight of the proxy
      is dropped, the producer keeps that much too many votes, or too few. */
  lemma {:induction false} Closes(
    s0: State, s: State, n: Pair, st: nat, u: nat, f: Scale, a: real, b: real, a': real, b': real, total: real)
    requires At(s0, s, n, Opened(n, st, u, a, b, 0.0, total)) && b > 0.0
    requires f(0) == 0.0 && f(st) == a' >= 0.0 && f(u) == b' > 1.0 && Abs(a' - (a + b)) <= 1.0
    ensures WellFormed(s) && At(s0, Run(s, Closing(n, st, f)), n, Closed(n, u, b', a + b - a', total + a + b - a'))
  {
    hide At, Run, Exec, Registered, Shaped;
    Seen(s0, s, n, Opened(n, st, u, a, b, 0.0, total));
    var leave, back, out := Vote(n.follower, None, [], f), Vote(n.follower, Some(n.proxy), [], f),
        ChangeStake(n.proxy, 0 - st, f);
    EmptyRun(s);
    RunThen(s, [], leave);
    assert [] + [leave] == [leave];
    var r := Opened(n, st, u, a, b, 0.0, total);
    LeaveStep(s0, s, n, r, f, b', a');
    var r1 := Leaving(r, b', a');
    RunThen(s, [leave], back);
    FollowStep(s0, Run(s, [leave]), n, r1, f, b', a' + b');
    var r2 := Following(r1, n, b', a' + b');
    RunThen(s, [leave] + [back], out);
    UnstakeStep(s0, Run(s, [leave] + [back]), n, r2, f);
    var r3 := Unstaking(r2);
    RunThen(s, [leave] + [back] + [out], leave);
    LeaveStep(s0, Run(s, [leave] + [back] + [out]), n, r3, f, b', 0.0);
    assert Leaving(r3, b', 0.0) == Closed(n, u, b', a + b - a', total + a + b - a');
  }
}
