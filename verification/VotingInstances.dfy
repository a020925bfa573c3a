/** Runs from the empty tables, at weights proportional to stake, in which a proxy drops a change of its own weight:
    the tallies become wrong, the floor at zero hides votes from the total, and votes fall below zero. */
module VotingInstances {
  import opened Sums
  import opened Voting
  import opened VotingTallies
  import opened VotingRuns
  import opened VotingRegistration
  import opened VotingSteps
  import opened VotingPairs
  import opened VotingGrid
  import opened VotingLinear

  /** A stake of `st` is worth more at `k'` than one of `st + u` at `k`, but by no more than one vote. */
  ghost predicate SlipsUp(k: real, k': real, st: nat, u: nat) {
    k > 1.0 && k' > 1.0 && u > 0 && 0.0 < Times(k', st) - (Times(k, st) + Times(k, u)) <= 1.0
  }

  /** ... or less, by no more than one vote. */
  ghost predicate SlipsDown(k: real, k': real, st: nat, u: nat) {
    k > 1.0 && k' > 1.0 && u > 0 && 0.0 < Times(k, st) + Times(k, u) - Times(k', st) <= 1.0
  }

  lemma {:induction false} TimesGrows(k: real, u: nat)
    requires k > 1.0 && u > 0
    ensures Times(k, u) > 1.0
  {
    assert k * (u as real) >= k * 1.0;
  }

  lemma {:induction false} TimesPositive(k: real, u: nat)
    requires k >= 0.0
    ensures Times(k, u) >= 0.0 && Times(k, 0) == 0.0 && Times(k, 1) == k
  {
  }

  lemma {:induction false} LinearWorth(f: Scale, k: real, st: nat, u: nat)
    requires Linear(f, k) && k > 1.0 && u > 0
    ensures f(0) == 0.0 && f(1) == k && f(st) == Times(k, st) >= 0.0 && f(u) == Times(k, u) > 1.0
  {
    hide Times;
    TimesPositive(k, st);
    TimesGrows(k, u);
  }

  // ---------------------------------------------------------------- two producers and two voters

  const MANY := 1500000000000

  const REGISTERED := State(Roll(map[], map[]), map[7 := true, 8 := true],
                            Tally(map[], map[], map[7 := 0.0, 8 := 0.0], 0.0), 0)

  lemma BothRegister()
    requires WellFormed(EMPTY)
    ensures Exec(Exec(EMPTY, Register(7)), Register(8)) == REGISTERED == RegProducer(RegProducer(EMPTY, 7), 8)
  {
  }

  lemma {:induction false} RegisteredIsReached()
    ensures WellFormed(EMPTY) && Run(EMPTY, [Register(7)] + [Register(8)]) == REGISTERED
    ensures Registered(REGISTERED.roll, REGISTERED.tally)
  {
    hide Exec, Run;
    EmptyKeepsInv();
    EmptyRun(EMPTY);
    assert [] + [Register(7)] == [Register(7)];
    RunThen(EMPTY, [], Register(7));
    RunThen(EMPTY, [Register(7)], Register(8));
    BothRegister();
  }

  /** Account 1 stakes one unit and lists 7; account 4 stakes enough to activate the chain and lists nobody. */
  function Base(k: real, m: real): State {
    State(Roll(map[1 := Voter(None, [7], 1, false), 4 := Voter(None, [], MANY, false)], map[1 := 0, 4 := 0]),
          map[7 := true, 8 := true],
          Tally(map[1 := k, 4 := m], map[1 := 0.0, 4 := 0.0], map[7 := k, 8 := 0.0], k), 1 + MANY)
  }

  const ENROLLED := State(
    Roll(map[1 := Voter(None, [], 1, false), 4 := Voter(None, [], MANY, false)], map[1 := 0, 4 := 0]),
    map[7 := true, 8 := true],
    Tally(map[1 := 0.0, 4 := 0.0], map[1 := 0.0, 4 := 0.0], map[7 := 0.0, 8 := 0.0], 0.0), 0)

  function ToBase(f: Scale): seq<Action> {
    [Register(7)] + [Register(8)] + [ChangeStake(1, 1, f)] + [ChangeStake(4, MANY, f)] + [Vote(1, None, [7], f)]
    + [Vote(4, None, [], f)]
  }

  lemma {:induction false} EnrolledIsNext(f: Scale)
    requires WellFormed(REGISTERED)
    ensures Exec(Exec(REGISTERED, ChangeStake(1, 1, f)), ChangeStake(4, MANY, f)) == ENROLLED
  {
    hide Exec, WellFormed, Shaped;
    FirstStake(REGISTERED, 1, 1, false, f);
    NewRow(REGISTERED, 1, 1, false);
    var s := Exec(REGISTERED, ChangeStake(1, 1, f));
    FirstStake(s, 4, MANY, false, f);
    NewRow(s, 4, MANY, false);
  }

  lemma {:induction false} BaseIsNext(f: Scale, k: real, m: real)
    requires f(1) == k > 0.0 && f(MANY) == m >= 0.0 && WellFormed(ENROLLED)
    ensures Exec(Exec(ENROLLED, Vote(1, None, [7], f)), Vote(4, None, [], f)) == Base(k, m)
  {
    hide Exec, WellFormed, Registered, Shaped;
    assert Registered(ENROLLED.roll, ENROLLED.tally) by { NobodyLists(); }
    Approves(ENROLLED, 1, 7, f, k);
    var s := Exec(ENROLLED, Vote(1, None, [7], f));
    assert 7 in ENROLLED.tally.votes;
    StaysRegistered(ENROLLED, Vote(1, None, [7], f));
    ListsNobody(s, 4, f, m);
  }

  lemma NobodyLists()
    ensures Registered(ENROLLED.roll, ENROLLED.tally)
  {
  }

  /** A ballot for nobody moves no tally, yet activates the stake behind it. */
  lemma {:induction false} ListsNobody(s: State, x: Name, f: Scale, w: real)
    requires WellFormed(s) && Registered(s.roll, s.tally) && x in s.roll.voters
    requires s.roll.voters[x].proxy.None? && s.roll.voters[x].producers == [] && w == WeightOf(s, x, f)
    ensures Exec(s, Vote(x, None, [], f)) ==
            s.(tally := Set(s.tally, x, w),
               activatedStake := s.activatedStake + if s.tally.last[x] <= 0.0 then s.roll.voters[x].staked else 0)
  {
    hide Exec, Registered, Shaped, CurrentWeight;
    assert s.roll.voters[x := s.roll.voters[x].(producers := [], proxy := None)] == s.roll.voters;
    BareVote(s, x, None, [], f, s.tally, s.tally);
  }

  lemma {:induction false} BaseIsReached(f: Scale, k: real)
    requires Linear(f, k) && k > 1.0
    ensures WellFormed(EMPTY) && Run(EMPTY, ToBase(f)) == Base(k, f(MANY))
    ensures var s := Base(k, f(MANY)); WellFormed(s) && Registered(s.roll, s.tally)
  {
    hide Run, Exec, WellFormed, Base, Linear, Registered;
    LinearWorth(f, k, MANY, 1);
    RegisteredIsReached();
    var run := [Register(7)] + [Register(8)];
    RunThen(EMPTY, run, ChangeStake(1, 1, f));
    run := run + [ChangeStake(1, 1, f)];
    RunThen(EMPTY, run, ChangeStake(4, MANY, f));
    EnrolledIsNext(f);
    run := run + [ChangeStake(4, MANY, f)];
    RunThen(EMPTY, run, Vote(1, None, [7], f));
    run := run + [Vote(1, None, [7], f)];
    RunThen(EMPTY, run, Vote(4, None, [], f));
    BaseIsNext(f, k, f(MANY));
    BaseLists(k, f(MANY));
  }

  lemma BaseLists(k: real, m: real)
    ensures Registered(Base(k, m).roll, Base(k, m).tally)
  {
  }

  // ---------------------------------------------------------------- wrong tallies

  const TWO_THREE := Pair(2, 3, 8)

  /** Before any change is dropped. */
  function ToVoted(f: Scale, st: nat, u: nat): seq<Action> { ToBase(f) + Opening(TWO_THREE, st, u, f) }

  lemma {:induction false} VotedIsLinear(f: Scale, k: real, st: nat, u: nat)
    requires Linear(f, k)
    ensures LinearActions(ToVoted(f, st, u), iset{k})
  {
    hide Linear;
  }

  /** All of that happens at one factor, so the tallies are exact. */
  lemma {:induction false} VotedIsReached(f: Scale, k: real, st: nat, u: nat)
    requires Linear(f, k) && k > 1.0 && u > 0
    ensures WellFormed(EMPTY)
    ensures var s := Run(EMPTY, ToVoted(f, st, u));
            && Inv(s)
            && At(Base(k, f(MANY)), s, TWO_THREE, Opened(TWO_THREE, st, u, Times(k, st), Times(k, u), 0.0, k))
  {
    hide Run, Linear, Inv, At, ToBase, Opening, Opened, LinearActions, Registered, Times;
    LinearWorth(f, k, st, u);
    BaseIsReached(f, k);
    RunPlus(EMPTY, ToBase(f), Opening(TWO_THREE, st, u, f));
    Opens(Base(k, f(MANY)), TWO_THREE, st, u, f, Times(k, st), Times(k, u));
    VotedIsLinear(f, k, st, u);
    OneFactorIsExact(ToVoted(f, st, u), k);
  }

  function ToClamped(f: Scale, f': Scale, st: nat, u: nat): seq<Action> {
    ToVoted(f, st, u) + [Vote(3, None, [], f')] + [Vote(2, None, [], f')]
  }

  /** The tables after the follower has left, and after the proxy has withdrawn its vote. */
  lemma {:induction false} ClampedIsReached(f: Scale, f': Scale, k: real, k': real, st: nat, u: nat)
    requires Linear(f, k) && Linear(f', k') && SlipsUp(k, k', st, u)
    ensures WellFormed(EMPTY)
    ensures var s := Run(EMPTY, ToVoted(f, st, u) + [Vote(3, None, [], f')]);
            At(Base(k, f(MANY)), s, TWO_THREE,
               Leaving(Opened(TWO_THREE, st, u, Times(k, st), Times(k, u), 0.0, k), Times(k', u), Times(k', st)))
    ensures var d := Times(k', st) - (Times(k, st) + Times(k, u));
            var s := Run(EMPTY, ToClamped(f, f', st, u));
            At(Base(k, f(MANY)), s, TWO_THREE,
               Rows(Voter(None, [], st, true), Voter(None, [], u, false), Times(k', st), Times(k', u), 0.0, 0.0, k - d))
  {
    hide Run, Exec, Linear, At, Inv, ToVoted, Times;
    LinearWorth(f, k, st, u);
    LinearWorth(f', k', st, u);
    VotedIsReached(f, k, st, u);
    var r := Opened(TWO_THREE, st, u, Times(k, st), Times(k, u), 0.0, k);
    RunThen(EMPTY, ToVoted(f, st, u), Vote(3, None, [], f'));
    LeaveStep(Base(k, f(MANY)), Run(EMPTY, ToVoted(f, st, u)), TWO_THREE, r, f', Times(k', u), Times(k', st));
    RunThen(EMPTY, ToVoted(f, st, u) + [Vote(3, None, [], f')], Vote(2, None, [], f'));
    WithdrawStep(Base(k, f(MANY)), Run(EMPTY, ToVoted(f, st, u) + [Vote(3, None, [], f')]), TWO_THREE,
                 Leaving(r, Times(k', u), Times(k', st)), f', Times(k', st));
  }

  /** Then the floor at zero raises what 8 is left with, but not the total, which ends below the votes of 7. */
  lemma {:induction false} FloorBreaksTotal(f: Scale, f': Scale, k: real, k': real, st: nat, u: nat)
    requires Linear(f, k) && Linear(f', k') && SlipsUp(k, k', st, u)
    ensures WellFormed(EMPTY)
    ensures var s := Run(EMPTY, ToClamped(f, f', st, u));
            && s.tally.votes == map[7 := k, 8 := 0.0]
            && s.tally.total == k - (Times(k', st) - (Times(k, st) + Times(k, u))) < s.tally.votes[7]
            && s.active == map[7 := true, 8 := true] && s.activatedStake >= MANY
  {
    hide Run, Linear, ToClamped, Times, WellFormed, Registered;
    ClampedIsReached(f, f', k, k', st, u);
  }

  /** A dropped change makes the tallies wrong: as the follower leaves, the proxy's own stake has gained a little more
      than the follower takes away, and what it has gained more is lost. */
  lemma {:induction false} DroppedChangeBreaksTallies(f: Scale, f': Scale, k: real, k': real, st: nat, u: nat)
    requires Linear(f, k) && Linear(f', k') && SlipsUp(k, k', st, u)
    ensures WellFormed(EMPTY) && Inv(Run(EMPTY, ToVoted(f, st, u)))
    ensures var s := Run(EMPTY, ToVoted(f, st, u) + [Vote(3, None, [], f')]);
            !Inv(s) && 8 in s.tally.votes && 2 in s.tally.last && s.tally.votes[8] < s.tally.last[2]
  {
    hide Run, Linear, ToVoted, Inv, At, Times;
    VotedIsReached(f, k, st, u);
    ClampedIsReached(f, f', k, k', st, u);
    var s := Run(EMPTY, ToVoted(f, st, u) + [Vote(3, None, [], f')]);
    var r := Leaving(Opened(TWO_THREE, st, u, Times(k, st), Times(k, u), 0.0, k), Times(k', u), Times(k', st));
    Seen(Base(k, f(MANY)), s, TWO_THREE, r);
    if Inv(s) {
      PlainVoteKeepsInv(s, 2, [], f');
      RunThen(EMPTY, ToVoted(f, st, u) + [Vote(3, None, [], f')], Vote(2, None, [], f'));
      FloorBreaksTotal(f, f', k, k', st, u);
      TotalIsSum(Run(EMPTY, ToClamped(f, f', st, u)), k);
    }
  }

  lemma {:induction false} TotalIsSum(s: State, k: real)
    requires Inv(s) && s.tally.votes == map[7 := k, 8 := 0.0]
    ensures s.tally.total == k
  {
    hide Cast, VotesFor, EntrustedTo, NonNegative, Registered, Shaped, RealSum;
    var m: map<Name, real> := map[];
    EmptySum();
    RealSumUpdate(m, 7, k);
    RealSumUpdate(m[7 := k], 8, 0.0);
    assert s.tally.votes == m[7 := k][8 := 0.0];
  }

  lemma EmptySum()
    ensures var m: map<Name, real> := map[]; RealSum(m) == 0.0
  {
  }

  /** Who follows no proxy keeps the tallies exact. */
  lemma {:induction false} PlainVoteKeepsInv(s: State, x: Name, prods: seq<Name>, f: Scale)
    requires Inv(s) && x in s.roll.voters && s.roll.voters[x].proxy.None? && MayVote(s, x, None, prods, true, f)
    ensures Inv(Exec(s, Vote(x, None, prods, f)))
  {
    hide Inv, MayVote, UpdateVotes, LosslessRecount;
    InvIsWellFormed(s);
    UpdateVotesKeepsInv(s, x, None, prods, true, f);
    NoProxyNoLoss(s.roll, s.tally, x, WeightOf(s, x, f), f);
  }

  lemma InvIsWellFormed(s: State)
    requires Inv(s)
    ensures WellFormed(s) && Registered(s.roll, s.tally)
  {
  }

  // ---------------------------------------------------------------- votes below zero

  const FIVE_SIX := Pair(5, 6, 7)

  /** Two pairs open in one week and close in another; then 8 is deactivated. */
  function ToNegative(f: Scale, f': Scale, st: nat, u: nat, st': nat, u': nat): seq<Action> {
    [Register(7)] + [Register(8)] + Opening(TWO_THREE, st, u, f) + Opening(FIVE_SIX, st', u', f)
    + Closing(TWO_THREE, st, f') + Closing(FIVE_SIX, st', f') + [Unregister(8)]
  }

  /** What one pair does leaves the rows of the other alone. */
  lemma {:induction false} StillThere(s0: State, s1: State, s2: State, n: Pair, n': Pair, r: Rows, r': Rows)
    requires At(s0, s1, n, r) && At(s1, s2, n', r') && n.producer != n'.producer
    requires {n.proxy, n.follower} !! {n'.proxy, n'.follower}
    ensures At(s2, s2, n, r.(total := s2.tally.total))
  {
    hide WellFormed, Registered;
    assert n.proxy in {n.proxy, n.follower} && n.follower in {n.proxy, n.follower};
    assert n'.proxy in {n'.proxy, n'.follower} && n'.follower in {n'.proxy, n'.follower};
    Rewrite(s0.roll.voters, s1.roll.voters, s2.roll.voters, n, n', r.proxy, r.follower, r'.proxy, r'.follower);
    Rewrite(s0.tally.last, s1.tally.last, s2.tally.last, n, n', r.proxyLast, r.followerLast, r'.proxyLast,
            r'.followerLast);
    Rewrite(s0.tally.proxied, s1.tally.proxied, s2.tally.proxied, n, n', r.entrusted, 0.0, r'.entrusted, 0.0);
    assert s2.tally.votes == s2.tally.votes[n.producer := r.votes];
  }

  lemma {:induction false} Rewrite<V>(
    m0: map<Name, V>, m1: map<Name, V>, m2: map<Name, V>, n: Pair, n': Pair, a: V, b: V, a': V, b': V)
    requires m1 == m0[n.proxy := a][n.follower := b] && m2 == m1[n'.proxy := a'][n'.follower := b']
    requires n.proxy != n.follower && n.proxy != n'.proxy && n.proxy != n'.follower
    requires n.follower != n'.proxy && n.follower != n'.follower
    ensures m2 == m2[n.proxy := a][n.follower := b]
  {
  }

  /** Both pairs open, one after the other. */
  lemma {:induction false} BothOpen(
    s0: State, n: Pair, n': Pair, f: Scale, k: real, st: nat, u: nat, st': nat, u': nat)
    returns (s1: State)
    requires WellFormed(s0) && Registered(s0.roll, s0.tally) && n.proxy != n.follower && n'.proxy != n'.follower
    requires n.producer != n'.producer && {n.proxy, n.follower} !! {n'.proxy, n'.follower}
    requires {n.proxy, n.follower, n'.proxy, n'.follower} !! s0.roll.voters.Keys
    requires n.producer in s0.active && s0.active[n.producer] && s0.tally.votes[n.producer] == 0.0
    requires n'.producer in s0.active && s0.active[n'.producer] && s0.tally.votes[n'.producer] == 0.0
    requires Linear(f, k) && k > 1.0 && u > 0 && u' > 0
    ensures At(s0, s1, n, Opened(n, st, u, Times(k, st), Times(k, u), 0.0, s0.tally.total))
    ensures At(s1, Run(s0, Opening(n, st, u, f) + Opening(n', st', u', f)), n',
               Opened(n', st', u', Times(k, st'), Times(k, u'), 0.0, s1.tally.total))
  {
    hide Run, Linear, At, Times, Registered, Shaped, Opening;
    LinearWorth(f, k, st, u);
    LinearWorth(f, k, st', u');
    Opens(s0, n, st, u, f, Times(k, st), Times(k, u));
    s1 := Run(s0, Opening(n, st, u, f));
    AtRows(s0, s1, n, Opened(n, st, u, Times(k, st), Times(k, u), 0.0, s0.tally.total));
    RunPlus(s0, Opening(n, st, u, f), Opening(n', st', u', f));
    Opens(s1, n', st', u', f, Times(k, st'), Times(k, u'));
  }

  /** A pair closes, whatever else is going on. */
  lemma {:induction false} OneCloses(
    s: State, n: Pair, f: Scale, k: real, k': real, st: nat, u: nat, total: real)
    requires At(s, s, n, Opened(n, st, u, Times(k, st), Times(k, u), 0.0, total).(total := s.tally.total))
    requires Linear(f, k') && (SlipsUp(k, k', st, u) || SlipsDown(k, k', st, u))
    ensures var v := Times(k, st) + Times(k, u) - Times(k', st);
            && WellFormed(s)
            && At(s, Run(s, Closing(n, st, f)), n, Closed(n, u, Times(k', u), v, s.tally.total - Times(k', st)))
  {
    hide Run, Linear, At, Times, Registered, Shaped, Closing;
    LinearWorth(f, k', st, u);
    TimesGrows(k, u);
    var t := s.tally.total - Times(k, st) - Times(k, u);
    Closes(s, s, n, st, u, f, Times(k, st), Times(k, u), Times(k', st), Times(k', u), t);
  }

  /** Both pairs close, one after the other. */
  lemma {:induction false} BothClose(
    s1: State, s2: State, n: Pair, n': Pair, f: Scale, k: real, k': real, st: nat, u: nat, st': nat, u': nat,
    total: real, total': real)
    requires n.producer != n'.producer && {n.proxy, n.follower} !! {n'.proxy, n'.follower}
    requires At(s2, s2, n, Opened(n, st, u, Times(k, st), Times(k, u), 0.0, total).(total := s2.tally.total))
    requires At(s1, s2, n', Opened(n', st', u', Times(k, st'), Times(k, u'), 0.0, total'))
    requires Linear(f, k') && SlipsUp(k, k', st, u) && SlipsDown(k, k', st', u')
    ensures WellFormed(s2)
    ensures var s := Run(s2, Closing(n, st, f) + Closing(n', st', f));
            && s.active == s2.active
            && s.tally.votes == s2.tally.votes[n.producer := Times(k, st) + Times(k, u) - Times(k', st)]
                                              [n'.producer := Times(k, st') + Times(k, u') - Times(k', st')]
  {
    hide Run, Linear, At, Times, WellFormed, Registered, Closing, Opened, SlipsUp, SlipsDown;
    OneCloses(s2, n, f, k, k', st, u, total);
    var s3 := Run(s2, Closing(n, st, f));
    var r3 := Closed(n, u, Times(k', u), Times(k, st) + Times(k, u) - Times(k', st), s2.tally.total - Times(k', st));
    AtRows(s2, s3, n, r3);
    StillThere(s1, s2, s3, n', n, Opened(n', st', u', Times(k, st'), Times(k, u'), 0.0, total'), r3);
    RunPlus(s2, Closing(n, st, f), Closing(n', st', f));
    OneCloses(s3, n', f, k, k', st', u', total');
    var v' := Times(k, st') + Times(k, u') - Times(k', st');
    AtRows(s3, Run(s3, Closing(n', st', f)), n', Closed(n', u', Times(k', u'), v', s3.tally.total - Times(k', st')));
  }

  lemma {:induction false} PairsClose(
    s0: State, n: Pair, n': Pair, f: Scale, f': Scale, k: real, k': real, st: nat, u: nat, st': nat, u': nat)
    requires WellFormed(s0) && Registered(s0.roll, s0.tally) && n.proxy != n.follower && n'.proxy != n'.follower
    requires n.producer != n'.producer && {n.proxy, n.follower} !! {n'.proxy, n'.follower}
    requires {n.proxy, n.follower, n'.proxy, n'.follower} !! s0.roll.voters.Keys
    requires n.producer in s0.active && s0.active[n.producer] && s0.tally.votes[n.producer] == 0.0
    requires n'.producer in s0.active && s0.active[n'.producer] && s0.tally.votes[n'.producer] == 0.0
    requires Linear(f, k) && Linear(f', k') && SlipsUp(k, k', st, u) && SlipsDown(k, k', st', u')
    ensures var s := Run(s0, Opening(n, st, u, f) + Opening(n', st', u', f)
                         + (Closing(n, st, f') + Closing(n', st', f')));
            && s.active == s0.active
            && s.tally.votes == s0.tally.votes[n.producer := Times(k, st) + Times(k, u) - Times(k', st)]
                                              [n'.producer := Times(k, st') + Times(k, u') - Times(k', st')]
  {
    hide Run, Linear, At, Times, Shaped, Registered, Opening, Closing, Opened;
    var s1 := BothOpen(s0, n, n', f, k, st, u, st', u');
    var run := Opening(n, st, u, f) + Opening(n', st', u', f);
    var s2 := Run(s0, run);
    var r := Opened(n, st, u, Times(k, st), Times(k, u), 0.0, s0.tally.total);
    var r' := Opened(n', st', u', Times(k, st'), Times(k, u'), 0.0, s1.tally.total);
    AtRows(s0, s1, n, r);
    AtRows(s1, s2, n', r');
    StillThere(s0, s1, s2, n, n', r, r');
    RunPlus(s0, run, Closing(n, st, f') + Closing(n', st', f'));
    BothClose(s1, s2, n, n', f', k, k', st, u, st', u', s0.tally.total, s1.tally.total);
    OverwrittenLast(s0.tally.votes, n.producer, n'.producer, r.votes, r'.votes,
                    Times(k, st) + Times(k, u) - Times(k', st),
                    Times(k, st') + Times(k, u') - Times(k', st'));
  }

  lemma {:induction false} OverwrittenLast(m: map<Name, real>, p: Name, q: Name, a: real, b: real, c: real, d: real)
    requires p != q
    ensures m[p := a][q := b][p := c][q := d] == m[p := c][q := d]
  {
  }

  lemma {:induction false} AtRows(s0: State, s: State, n: Pair, r: Rows)
    requires At(s0, s, n, r)
    ensures WellFormed(s) && Registered(s.roll, s.tally) && s.active == s0.active && s.tally.total == r.total
    ensures s.tally.votes == s0.tally.votes[n.producer := r.votes]
    ensures s.roll.voters.Keys == s0.roll.voters.Keys + {n.proxy, n.follower}
  {
    hide WellFormed, Registered;
  }

  /** A run after which nobody votes for anybody: 8 is left with fewer votes than none, inactive, and 7 with some,
      active. */
  lemma {:induction false} NegativeVotesAreReached(
    f: Scale, f': Scale, k: real, k': real, st: nat, u: nat, st': nat, u': nat)
    requires Linear(f, k) && Linear(f', k') && SlipsUp(k, k', st, u) && SlipsDown(k, k', st', u')
    ensures WellFormed(EMPTY)
    ensures var s := Run(EMPTY, ToNegative(f, f', st, u, st', u'));
            && s.active == map[7 := true, 8 := false]
            && s.tally.votes == map[7 := Times(k, st') + Times(k, u') - Times(k', st'),
                                    8 := Times(k, st) + Times(k, u) - Times(k', st)]
  {
    hide Run, Linear, Times, Registered, Opening, Closing;
    RegisteredIsReached();
    PairsClose(REGISTERED, TWO_THREE, FIVE_SIX, f, f', k, k', st, u, st', u');
    hide WellFormed;
    var run := Opening(TWO_THREE, st, u, f) + Opening(FIVE_SIX, st', u', f)
               + (Closing(TWO_THREE, st, f') + Closing(FIVE_SIX, st', f'));
    RunPlus(EMPTY, [Register(7)] + [Register(8)], run);
    RunThen(EMPTY, [Register(7)] + [Register(8)] + run, Unregister(8));
    assert ToNegative(f, f', st, u, st', u') == [Register(7)] + [Register(8)] + run + [Unregister(8)];
    Deactivates(Run(REGISTERED, run), 8);
  }

  lemma {:induction false} Deactivates(s: State, p: Name)
    requires WellFormed(s) && p in s.active
    ensures Exec(s, Unregister(p)) == s.(active := s.active[p := false])
  {
    hide Shaped;
  }
}
