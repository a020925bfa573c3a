/** The factors of `stake2vote`: a unit of stake is worth twice as many votes every 52 weeks, in weekly steps
    counted from the year 2000. */
module VotingClock {
  import opened Sums
  import opened Voting
  import opened VotingTallies
  import opened VotingRuns
  import opened VotingRegistration
  import opened VotingDrift
  import opened VotingGrid
  import opened VotingLinear
  import opened VotingSteepness
  import opened VotingInstances

  function RPow(r: real, n: nat): real { if n == 0 then 1.0 else r * RPow(r, n - 1) }

  /** What a week multiplies a weight by: 2 to the power of 1/52. */
  ghost predicate WeekRoot(r: real) { r >= 0.0 && RPow(r, 52) == 2.0 }

  /** The factors of all weeks from `n` on. */
  ghost function FactorsFrom(r: real, n: nat): Factors { iset w: nat | w >= n :: RPow(r, w) }

  // ---------------------------------------------------------------- powers

  lemma {:induction false} PowAdd(r: real, a: nat, b: nat)
    ensures RPow(r, a + b) == RPow(r, a) * RPow(r, b)
    decreases a
  {
    if a > 0 { PowAdd(r, a - 1, b); }
  }

  lemma {:induction false} PowOne(r: real)
    ensures RPow(r, 1) == r
  {
    assert RPow(r, 0) == 1.0;
  }

  lemma {:induction false} PowMonotone(q: real, r: real, n: nat)
    requires 0.0 <= q <= r
    ensures 0.0 <= RPow(q, n) <= RPow(r, n)
    decreases n
  {
    if n > 0 {
      PowMonotone(q, r, n - 1);
      MultiplyBoth(q, r, RPow(q, n - 1), RPow(r, n - 1));
    }
  }

  lemma MultiplyBoth(a: real, a': real, b: real, b': real)
    requires 0.0 <= a <= a' && 0.0 <= b <= b'
    ensures 0.0 <= a * b <= a' * b'
  {
  }

  lemma {:induction false} PowAtLeastOne(r: real, n: nat)
    requires r >= 1.0
    ensures RPow(r, n) >= 1.0 && (n > 0 ==> RPow(r, n) >= r)
    decreases n
  {
    if n > 0 {
      PowAtLeastOne(r, n - 1);
      MultiplyBoth(1.0, RPow(r, n - 1), r, r);
    }
  }

  lemma {:induction false} NoMore(r: real, a: nat, b: nat, x: real, y: real, z: real)
    requires r >= 0.0 && RPow(r, a) <= x && RPow(r, b) <= y && x * y <= z
    ensures RPow(r, a + b) <= z
  {
    hide RPow;
    PowAdd(r, a, b);
    PowMonotone(r, r, a);
    PowMonotone(r, r, b);
    MultiplyBoth(RPow(r, a), x, RPow(r, b), y);
  }

  lemma {:induction false} NoLess(r: real, a: nat, b: nat, x: real, y: real, z: real)
    requires 0.0 <= x <= RPow(r, a) && 0.0 <= y <= RPow(r, b) && x * y >= z
    ensures RPow(r, a + b) >= z
  {
    hide RPow;
    PowAdd(r, a, b);
    MultiplyBoth(x, RPow(r, a), y, RPow(r, b));
  }

  /** Every 52 weeks the factor doubles. */
  lemma {:induction false} Years(r: real, y: nat, w: nat)
    requires WeekRoot(r)
    ensures RPow(r, 52 * y + w) == RPow(2.0, y) * RPow(r, w)
    decreases y
  {
    if y > 0 {
      YearBefore(r, y, w);
      Years(r, y - 1, w);
    }
  }

  lemma {:induction false} YearBefore(r: real, y: nat, w: nat)
    requires WeekRoot(r) && y > 0
    ensures RPow(r, 52 * y + w) == 2.0 * RPow(r, 52 * (y - 1) + w)
  {
    hide RPow;
    assert 52 * y + w == 52 + (52 * (y - 1) + w);
    PowAdd(r, 52, 52 * (y - 1) + w);
  }

  // ---------------------------------------------------------------- how much a week is

  lemma {:induction false} LowRoot()
    ensures RPow(1.0134, 52) < 2.0
  {
    hide RPow;
    PowOne(1.0134);
    NoMore(1.0134, 1, 1, 1.0134, 1.0134, 1.02697956);
    NoMore(1.0134, 2, 2, 1.02697956, 1.02697956, 1.05468702);
    NoMore(1.0134, 4, 4, 1.05468702, 1.05468702, 1.11236472);
    NoMore(1.0134, 8, 8, 1.11236472, 1.11236472, 1.23735528);
    NoMore(1.0134, 16, 16, 1.23735528, 1.23735528, 1.53104809);
    NoMore(1.0134, 32, 16, 1.53104809, 1.23735528, 1.89445044);
    NoMore(1.0134, 48, 4, 1.89445044, 1.05468702, 1.99805229);
  }

  lemma {:induction false} HighRoot()
    ensures RPow(1.01342, 52) > 2.0
  {
    hide RPow;
    PowOne(1.01342);
    NoLess(1.01342, 1, 1, 1.01342, 1.01342, 1.02702009);
    NoLess(1.01342, 2, 2, 1.02702009, 1.02702009, 1.05477026);
    NoLess(1.01342, 4, 4, 1.05477026, 1.05477026, 1.11254030);
    NoLess(1.01342, 8, 8, 1.11254030, 1.11254030, 1.23774591);
    NoLess(1.01342, 16, 16, 1.23774591, 1.23774591, 1.53201493);
    NoLess(1.01342, 32, 16, 1.53201493, 1.23774591, 1.89624521);
    NoLess(1.01342, 48, 4, 1.89624521, 1.05477026, 2.00010305);
  }

  lemma {:induction false} TwelveWeeks()
    ensures RPow(1.0134, 12) >= 1.17319657
  {
    hide RPow;
    PowOne(1.0134);
    NoLess(1.0134, 1, 1, 1.0134, 1.0134, 1.02697956);
    NoLess(1.0134, 2, 2, 1.02697956, 1.02697956, 1.05468701);
    NoLess(1.0134, 4, 4, 1.05468701, 1.05468701, 1.11236468);
    NoLess(1.0134, 8, 4, 1.11236468, 1.05468701, 1.17319657);
  }

  lemma {:induction false} ElevenWeeks()
    ensures RPow(1.01342, 11) <= 1.15793504
  {
    hide RPow;
    PowOne(1.01342);
    NoMore(1.01342, 1, 1, 1.01342, 1.01342, 1.02702010);
    NoMore(1.01342, 2, 2, 1.02702010, 1.02702010, 1.05477029);
    NoMore(1.01342, 4, 4, 1.05477029, 1.05477029, 1.11254037);
    NoMore(1.01342, 8, 2, 1.11254037, 1.02702010, 1.14260133);
    NoMore(1.01342, 10, 1, 1.14260133, 1.01342, 1.15793504);
  }

  lemma {:induction false} CloseLowRoot()
    ensures RPow(1.0134189906987003, 52) < 2.0
  {
    hide RPow;
    PowOne(1.0134189906987003);
    NoMore(1.0134189906987003, 1, 1, 1.0134189906987003, 1.0134189906987003, 1.0270180507087724051656);
    NoMore(1.0134189906987003, 2, 2, 1.0270180507087724051656, 1.0270180507087724051656, 1.0547660764816466073964);
    NoMore(1.0134189906987003, 4, 4, 1.0547660764816466073964, 1.0547660764816466073964, 1.1125314760964867804365);
    NoMore(1.0134189906987003, 8, 8, 1.1125314760964867804365, 1.1125314760964867804365, 1.2377262853054277365164);
    NoMore(1.0134189906987003, 16, 16, 1.2377262853054277365164, 1.2377262853054277365164, 1.5319663573359731004021);
    NoMore(1.0134189906987003, 32, 16, 1.5319663573359731004021, 1.2377262853054277365164, 1.8961550286783414993611);
    NoMore(1.0134189906987003, 48, 4, 1.8961550286783414993611, 1.0547660764816466073964, 1.9999999999999983661297);
  }

  lemma {:induction false} CloseHighRoot()
    ensures RPow(1.0134189906987004, 52) > 2.0
  {
    hide RPow;
    PowOne(1.0134189906987004);
    NoLess(1.0134189906987004, 1, 1, 1.0134189906987004, 1.0134189906987004, 1.0270180507087726078493);
    NoLess(1.0134189906987004, 2, 2, 1.0270180507087726078493, 1.0270180507087726078493, 1.0547660764816470237159);
    NoLess(1.0134189906987004, 4, 4, 1.0547660764816470237159, 1.0547660764816470237159, 1.1125314760964876586757);
    NoLess(1.0134189906987004, 8, 8, 1.1125314760964876586757, 1.1125314760964876586757, 1.2377262853054296906538);
    NoLess(1.0134189906987004, 16, 16, 1.2377262853054296906538, 1.2377262853054296906538, 1.5319663573359779377765);
    NoLess(1.0134189906987004, 32, 16, 1.5319663573359779377765, 1.2377262853054296906538, 1.8961550286783504803792);
    NoLess(1.0134189906987004, 48, 4, 1.8961550286783504803792, 1.0547660764816470237159, 2.0000000000000086284091);
  }

  lemma {:induction false} LowTwentyNine()
    ensures RPow(1.0134189906987003, 29) >= 1.4719129037
  {
    hide RPow;
    PowOne(1.0134189906987003);
    NoLess(1.0134189906987003, 1, 1, 1.0134189906987003, 1.0134189906987003, 1.0270180507);
    NoLess(1.0134189906987003, 2, 2, 1.0270180507, 1.0270180507, 1.0547660764);
    NoLess(1.0134189906987003, 4, 4, 1.0547660764, 1.0547660764, 1.1125314759);
    NoLess(1.0134189906987003, 8, 8, 1.1125314759, 1.1125314759, 1.2377262848);
    NoLess(1.0134189906987003, 16, 8, 1.2377262848, 1.1125314759, 1.3770094503);
    NoLess(1.0134189906987003, 24, 4, 1.3770094503, 1.0547660764, 1.4524228550);
    NoLess(1.0134189906987003, 28, 1, 1.4524228550, 1.0134189906987003, 1.4719129037);
  }

  lemma {:induction false} HighTwentyNine()
    ensures RPow(1.0134189906987004, 29) <= 1.4719129075
  {
    hide RPow;
    PowOne(1.0134189906987004);
    NoMore(1.0134189906987004, 1, 1, 1.0134189906987004, 1.0134189906987004, 1.0270180508);
    NoMore(1.0134189906987004, 2, 2, 1.0270180508, 1.0270180508, 1.0547660767);
    NoMore(1.0134189906987004, 4, 4, 1.0547660767, 1.0547660767, 1.1125314766);
    NoMore(1.0134189906987004, 8, 8, 1.1125314766, 1.1125314766, 1.2377262865);
    NoMore(1.0134189906987004, 16, 8, 1.2377262865, 1.1125314766, 1.3770094532);
    NoMore(1.0134189906987004, 24, 4, 1.3770094532, 1.0547660767, 1.4524228586);
    NoMore(1.0134189906987004, 28, 1, 1.4524228586, 1.0134189906987004, 1.4719129075);
  }

  lemma {:induction false} RootAbove(r: real, q: real)
    requires WeekRoot(r) && q >= 0.0 && RPow(q, 52) < 2.0
    ensures r > q
  {
    hide RPow;
    if r <= q { PowMonotone(r, q, 52); }
  }

  lemma {:induction false} RootBelow(r: real, q: real)
    requires WeekRoot(r) && q >= 0.0 && RPow(q, 52) > 2.0
    ensures r < q
  {
    hide RPow;
    if r >= q { PowMonotone(q, r, 52); }
  }

  /** From week 324 on a week adds more than one vote to a unit of stake, and in the week before it does not. */
  lemma {:induction false} WeekAfter(r: real)
    requires WeekRoot(r)
    ensures r > 1.0134 && RPow(r, 324) * (r - 1.0) > 1.0
    ensures RPow(r, 324) - RPow(r, 323) <= 1.0
  {
    hide RPow;
    LowRoot();
    RootAbove(r, 1.0134);
    HighRoot();
    RootBelow(r, 1.01342);
    SixYears(r);
    TwelveWeeks();
    PowMonotone(1.0134, r, 12);
    MultiplyBoth(64.0 * 1.17319657, RPow(r, 324), 0.0134, r - 1.0);
    ElevenWeeks();
    PowMonotone(r, 1.01342, 11);
    PowOne(r);
    PowAdd(r, 1, 323);
    MultiplyBoth(r - 1.0, 0.01342, RPow(r, 323), 64.0 * 1.15793504);
  }

  lemma {:induction false} SixYears(r: real)
    requires WeekRoot(r)
    ensures RPow(r, 324) == 64.0 * RPow(r, 12) && RPow(r, 323) == 64.0 * RPow(r, 11)
  {
    hide RPow, WeekRoot;
    Years(r, 6, 12);
    Years(r, 6, 11);
    PowersOfTwo();
  }

  lemma {:induction false} PowersOfTwo()
    ensures RPow(2.0, 6) == 64.0 && RPow(2.0, 18) == 262144.0
  {
    assert RPow(2.0, 6) == 64.0;
    hide RPow;
    PowAdd(2.0, 6, 6);
    PowAdd(2.0, 12, 6);
  }

  lemma {:induction false} WeeksApart(r: real, n: nat, w: nat, w': nat)
    requires r >= 1.0 && RPow(r, n) * (r - 1.0) > 1.0 && n <= w < w'
    ensures RPow(r, w') - RPow(r, w) > 1.0
  {
    hide RPow;
    PowAdd(r, n, w - n);
    PowAdd(r, w, w' - w);
    PowAtLeastOne(r, w - n);
    PowAtLeastOne(r, w' - w);
    PowAtLeastOne(r, n);
    MultiplyBoth(RPow(r, n), RPow(r, n), 1.0, RPow(r, w - n));
    MultiplyBoth(RPow(r, n), RPow(r, w), r - 1.0, RPow(r, w' - w) - 1.0);
  }

  /** The factors of the weeks from `n` on are steep if and only if `n` is at least 324, in March 2006. */
  lemma {:induction false} ClockIsSteep(r: real, n: nat)
    requires WeekRoot(r)
    ensures Steep(FactorsFrom(r, n)) <==> n >= 324
  {
    hide RPow, WeekRoot;
    WeekAfter(r);
    var K := FactorsFrom(r, n);
    if n >= 324 {
      forall k | k in K ensures k >= 0.0 {
        var w: nat :| w >= n && k == RPow(r, w);
        PowAtLeastOne(r, w);
      }
      forall k, k' | k in K && k' in K && k != k' ensures Abs(k' - k) > 1.0 {
        var w: nat :| w >= n && k == RPow(r, w);
        var w': nat :| w' >= n && k' == RPow(r, w');
        if w < w' { WeeksApart(r, 324, w, w'); } else { WeeksApart(r, 324, w', w); }
      }
    } else {
      PowAdd(r, 1, 323);
      PowOne(r);
      PowAtLeastOne(r, 323);
      MultiplyBoth(1.0, RPow(r, 323), r - 1.0, r - 1.0);
      assert RPow(r, 323) in K && RPow(r, 324) in K;
      assert !(Abs(RPow(r, 324) - RPow(r, 323)) > 1.0);
    }
  }

  // ---------------------------------------------------------------- runs on the clock

  lemma {:induction false} FactorsAreLarge(r: real, n: nat)
    requires WeekRoot(r)
    ensures forall k :: k in FactorsFrom(r, n) ==> k >= 1.0
  {
    hide RPow;
    WeekAfter(r);
    forall k | k in FactorsFrom(r, n) ensures k >= 1.0 {
      var w: nat :| w >= n && k == RPow(r, w);
      PowAtLeastOne(r, w);
    }
  }

  /** In all runs that begin with empty tables in week `n` or later, whatever they drop, no weight goes below zero
      and no vote that passes its checks aborts, if and only if `n` is at least 324. */
  lemma {:induction false} ClockDecides(r: real, n: nat)
    requires WeekRoot(r)
    ensures AlwaysPositive(FactorsFrom(r, n)) <==> n >= 324
    ensures NeverStuck(FactorsFrom(r, n)) <==> n >= 324
  {
    hide *;
    ClockIsSteep(r, n);
    FactorsAreLarge(r, n);
    SteepnessDecides(FactorsFrom(r, n));
    SteepnessDecidesAborts(FactorsFrom(r, n));
  }

  /** From March 2006 on, whatever is dropped: every proxy holds exactly what its followers cast, every listed
      producer is registered, and no producer's votes are off by more than the number of dropped changes. */
  lemma {:induction false} ClockRuns(run: seq<Action>, r: real)
    requires WeekRoot(r) && LinearActions(run, FactorsFrom(r, 324))
    ensures WellFormed(EMPTY) && Steady(Run(EMPTY, run), FactorsFrom(r, 324))
    ensures Within(Run(EMPTY, run), AllDropped(EMPTY, run) as real)
  {
    hide *;
    ClockIsSteep(r, 324);
    EmptyIsSteady(FactorsFrom(r, 324));
    RunKeepsSteady(EMPTY, run, FactorsFrom(r, 324));
    LinearDriftIsBounded(run, FactorsFrom(r, 324));
  }

  /** Within one week of any year from 2000 on, the first aside, every tally is exact. */
  lemma {:induction false} WeekIsExact(run: seq<Action>, r: real, w: nat)
    requires WeekRoot(r) && w > 0 && LinearActions(run, iset{RPow(r, w)})
    ensures Inv(Run(EMPTY, run))
  {
    hide RPow, WeekRoot, LinearActions, Run, Inv;
    WeekAfter(r);
    PowAtLeastOne(r, w);
    OneFactorIsExact(run, RPow(r, w));
  }

  // ---------------------------------------------------------------- two weeks in July 2018

  /** The factors of weeks 965 and 966, closely enough for what follows. */
  lemma {:induction false} JulyFactors(r: real)
    requires WeekRoot(r)
    ensures 1.0134189906987003 < r < 1.0134189906987004
    ensures RPow(r, 966) == r * RPow(r, 965) && 385853.1 <= RPow(r, 965) <= 385853.2
  {
    hide RPow;
    CloseLowRoot();
    RootAbove(r, 1.0134189906987003);
    CloseHighRoot();
    RootBelow(r, 1.0134189906987004);
    PowOne(r);
    PowAdd(r, 1, 965);
    EighteenYears(r);
    LowTwentyNine();
    HighTwentyNine();
    PowMonotone(1.0134189906987003, r, 29);
    PowMonotone(r, 1.0134189906987004, 29);
  }

  lemma {:induction false} EighteenYears(r: real)
    requires WeekRoot(r)
    ensures RPow(r, 965) == 262144.0 * RPow(r, 29)
  {
    hide RPow, WeekRoot;
    Years(r, 18, 29);
    PowersOfTwo();
  }

  /** A stake of 1172890 gains 0.23 votes more in that week than a stake of 15739 is worth, one of 1206201
      gains 0.09 less than one of 16186 is worth. */
  lemma {:induction false} JulyChanges(r: real)
    requires WeekRoot(r)
    ensures var k, k' := RPow(r, 965), RPow(r, 966);
            && 0.2 < 1172890.0 * k' - (1172890.0 + 15739.0) * k < 0.3
            && -0.1 < 1206201.0 * k' - (1206201.0 + 16186.0) * k < 0.0
            && k > 1.0 && k' > k
  {
    hide RPow, WeekRoot;
    JulyFactors(r);
    var k := RPow(r, 965);
    Spread(k, r, 1172890.0, 15739.0);
    Spread(k, r, 1206201.0, 16186.0);
    var d, e := 1172890.0 * (r - 1.0) - 15739.0, 16186.0 - 1206201.0 * (r - 1.0);
    assert 0.00000059 < d < 0.0000006 && 0.00000023 < e < 0.00000024;
    MultiplyBoth(385853.1, k, 0.00000059, d);
    MultiplyBoth(k, 385853.2, d, 0.0000006);
    MultiplyBoth(385853.1, k, 0.00000023, e);
    MultiplyBoth(k, 385853.2, e, 0.00000024);
    MultiplyBoth(1.0, k, 0.01, r - 1.0);
  }

  lemma Spread(k: real, r: real, s: real, u: real)
    ensures s * (r * k) - (s + u) * k == k * (s * (r - 1.0) - u)
  {
  }

  /** So in that week a proxy with 1172890 units drops 0.23 votes as a follower with 15739 units leaves. */
  lemma {:induction false} JulySlips(r: real)
    requires WeekRoot(r)
    ensures var k, k' := RPow(r, 965), RPow(r, 966);
            && SlipsUp(k, k', 1172890, 15739) && SlipsDown(k, k', 1206201, 16186) && k < 400000.0
            && Times(k', 1172890) - (Times(k, 1172890) + Times(k, 15739)) > 0.2
            && Times(k, 1206201) + Times(k, 16186) - Times(k', 1206201) < 0.1
  {
    hide RPow, WeekRoot;
    JulyChanges(r);
    JulyFactors(r);
  }
}
