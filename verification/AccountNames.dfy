/** Account names: a 64 bit number read as twelve characters of five bits and a last one of four, the first in the
    highest bits. Zero is a dot; shorter names end in dots. */
module AccountNames {

  /** The weight of character `i` of the first twelve: four bits, and five for each character after it. */
  function Place(i: nat): nat
    requires i < 12
    decreases 12 - i
  {
    if i == 11 then 16 else 32 * Place(i + 1)
  }

  lemma {:induction false} PlacePositive(i: nat)
    requires i < 12
    ensures Place(i) > 0
    decreases 12 - i
  {
    if i < 11 { PlacePositive(i + 1); }
  }

  function Char(n: nat, i: nat): nat
    requires i < 13
  {
    if i == 12 then n % 16 else
      PlacePositive(i);
      n / Place(i) % 32
  }

  type Chars = c: seq<nat> | |c| == 13 witness seq(13, i => 0)

  function CharsOf(n: nat): Chars { seq(13, i requires 0 <= i < 13 => Char(n, i)) }

  const LIMIT := 0x1_0000_0000_0000_0000

  lemma {:induction false} DivideTwice(n: nat, p: nat)
    requires p > 0
    ensures n / (32 * p) == n / p / 32
  {
    var q, r := n / p, n % p;
    var h, s := q / 32, q % 32;
    Regroup(p, h, s, r);
    QuotientIs(n, 32 * p, h, s * p + r);
  }

  lemma Regroup(p: nat, h: nat, s: nat, r: nat)
    requires s < 32 && r < p
    ensures (32 * h + s) * p + r == h * (32 * p) + (s * p + r) && 0 <= s * p + r < 32 * p
  {
    assert s * p <= 31 * p;
  }

  lemma QuotientIs(n: nat, d: nat, h: nat, r: nat)
    requires d > 0 && n == h * d + r && r < d
    ensures n / d == h
  {
    var e := n / d - h;
    assert e * d == r - n % d;
    assert e >= 1 ==> e * d >= d;
    assert e <= -1 ==> e * d + d <= 0;
  }

  /** The first `i + 1` characters determine the number above their place. */
  lemma {:induction false} SamePrefix(a: nat, b: nat, i: nat)
    requires i < 12 && a < LIMIT && b < LIMIT && CharsOf(a) == CharsOf(b)
    ensures Place(i) > 0 && a / Place(i) == b / Place(i)
    decreases i
  {
    PlacePositive(i);
    assert CharsOf(a)[i] == CharsOf(b)[i];
    if i == 0 {
      FirstPlace();
    } else {
      SamePrefix(a, b, i - 1);
      assert Place(i - 1) == 32 * Place(i);
      DivideTwice(a, Place(i));
      DivideTwice(b, Place(i));
    }
  }

  lemma FirstPlace()
    ensures Place(0) == 0x800_0000_0000_0000
  {
    assert Place(8) == 0x8_0000;
    assert Place(4) == 0x80_0000_0000;
  }

  /** A name is determined by its characters. */
  lemma {:induction false} SameCharsSameName(a: nat, b: nat)
    requires a < LIMIT && b < LIMIT && CharsOf(a) == CharsOf(b)
    ensures a == b
  {
    SamePrefix(a, b, 11);
    assert CharsOf(a)[12] == CharsOf(b)[12];
  }

  function Dots(k: nat): seq<nat> { seq(k, i => 0) }

  // ---------------------------------------------------------------- name_suffix

  /** The loop over the first twelve characters: `dot` and `last` are where the characters after the last dot seen
      start, and after the last dot that another character follows; zero if there is none. */
  function Scan(c: Chars, i: nat, dot: nat, last: nat): (nat, nat)
    requires i <= 12
    decreases 12 - i
  {
    if i == 12 then (dot, last) else if c[i] == 0 then Scan(c, i + 1, i + 1, last) else Scan(c, i + 1, dot, dot)
  }

  lemma {:induction false} ScanBound(c: Chars, i: nat, dot: nat, last: nat)
    requires i <= 12 && dot <= i && last <= i
    ensures Scan(c, i, dot, last).0 <= 12 && Scan(c, i, dot, last).1 <= 12
    decreases 12 - i
  {
    if i < 12 {
      if c[i] == 0 { ScanBound(c, i + 1, i + 1, last); } else { ScanBound(c, i + 1, dot, dot); }
    }
  }

  /** Where the characters after the last dot start that stands before another character; zero without one. */
  function Start(c: Chars): (s: nat)
    ensures s <= 12
  {
    ScanBound(c, 0, 0, 0);
    if c[12] != 0 then Scan(c, 0, 0, 0).0 else Scan(c, 0, 0, 0).1
  }

  /** `name_suffix`: those characters, moved to the front. */
  function Suffix(c: Chars): Chars {
    if Start(c) == 0 then c else c[Start(c)..] + Dots(Start(c))
  }

  method NameSuffix(c: Chars) returns (s: Chars)
    ensures s == Suffix(c)
  {
    var dot, last, i := 0, 0, 0;
    while i < 12
      invariant i <= 12 && Scan(c, i, dot, last) == Scan(c, 0, 0, 0)
    {
      if c[i] == 0 {
        dot := i + 1;
      } else {
        last := dot;
      }
      i := i + 1;
    }
    if c[12] != 0 {
      last := dot;
    }
    assert last == Start(c);
    s := if last == 0 then c else c[last..] + Dots(last);
  }

  // ---------------------------------------------------------------- what is biddable

  /** No dot stands before another character. */
  predicate Whole(c: Chars) { forall i, j :: 0 <= i < j < 13 && c[i] == 0 ==> c[j] == 0 }

  /** The scan finds no dot before another character if and only if there is none. */
  lemma {:induction false} ScanLaw(c: Chars, i: nat, dot: nat, last: nat)
    requires i <= 12 && (dot == 0 <==> forall k :: 0 <= k < i ==> c[k] != 0)
    requires last == 0 <==> forall k, j :: 0 <= k < j < i && c[k] == 0 ==> c[j] == 0
    ensures var (d, l) := Scan(c, i, dot, last);
            && (d == 0 <==> forall k :: 0 <= k < 12 ==> c[k] != 0)
            && (l == 0 <==> forall k, j :: 0 <= k < j < 12 && c[k] == 0 ==> c[j] == 0)
    decreases 12 - i
  {
    if i < 12 {
      if c[i] == 0 {
        assert !(forall k :: 0 <= k < i + 1 ==> c[k] != 0);
        ScanLaw(c, i + 1, i + 1, last);
      } else {
        if dot != 0 {
          var k :| 0 <= k < i && c[k] == 0;
          assert c[k] == 0 && c[i] != 0;
        }
        ScanLaw(c, i + 1, dot, dot);
      }
    }
  }

  lemma {:induction false} StartLaw(c: Chars)
    ensures Start(c) == 0 <==> Whole(c)
  {
    ScanLaw(c, 0, 0, 0);
    hide Scan;
    if c[12] != 0 {
      assert Whole(c) ==> forall k :: 0 <= k < 12 && c[k] == 0 ==> c[12] == 0;
    } else {
      assert Whole(c) <==> forall k, j :: 0 <= k < j < 12 && c[k] == 0 ==> c[j] == 0;
    }
  }

  /** Character `i` is a dot with another character behind it. */
  predicate Inner(c: Chars, i: nat) { i < 13 && c[i] == 0 && exists j :: i < j < 13 && c[j] != 0 }

  /** `k` is where the characters after the last dot among the first `i` start. */
  predicate AfterDot(c: Chars, i: nat, k: nat)
    requires i <= 12
  {
    k <= i && (k > 0 ==> c[k - 1] == 0) && forall m :: k <= m < i ==> c[m] != 0
  }

  /** `k` is where the characters after the last dot among the first `i` start that another of them follows. */
  predicate AfterInner(c: Chars, i: nat, k: nat)
    requires i <= 12
  {
    && k <= i && (k > 0 ==> c[k - 1] == 0 && exists m :: k <= m < i && c[m] != 0)
    && forall m, j :: k <= m < j < i && c[m] == 0 ==> c[j] == 0
  }

  lemma {:induction false} ScanFinds(c: Chars, i: nat, dot: nat, last: nat)
    requires i <= 12 && AfterDot(c, i, dot) && AfterInner(c, i, last)
    ensures AfterDot(c, 12, Scan(c, i, dot, last).0) && AfterInner(c, 12, Scan(c, i, dot, last).1)
    decreases 12 - i
  {
    if i < 12 {
      if c[i] == 0 {
        assert AfterInner(c, i + 1, last);
        ScanFinds(c, i + 1, i + 1, last);
      } else {
        ScanFinds(c, i + 1, dot, dot);
      }
    }
  }

  /** The suffix of a name is what stands behind its last dot with another character behind it. */
  lemma {:induction false} SuffixLaw(c: Chars, d: nat)
    requires Inner(c, d) && forall i :: d < i < 13 ==> !Inner(c, i)
    ensures Suffix(c) == c[d + 1..] + Dots(d + 1)
  {
    ScanFinds(c, 0, 0, 0);
    hide Scan;
    var s := Start(c);
    var j :| d < j < 13 && c[j] != 0;
    assert s == d + 1 by {
      if s > 0 { assert Inner(c, s - 1); }
    }
  }

  /** A name that is not empty is its own suffix if and only if no dot stands before another of its characters. */
  lemma {:induction false} SuffixIsWhole(c: Chars, j: nat)
    requires j < 13 && c[j] != 0
    ensures Suffix(c) == c <==> Whole(c)
  {
    hide Start;
    StartLaw(c);
    var s := Start(c);
    if s > 0 && Suffix(c) == c { NoPeriod(c, s, j); }
  }

  /** Moved to the front by `s`, a name that is not empty is another one: a character would recur for ever. */
  lemma {:induction false} NoPeriod(c: Chars, s: nat, j: nat)
    requires 0 < s <= 12 && j < 13 && c[j] != 0
    ensures c[s..] + Dots(s) != c
    decreases 13 - j
  {
    var m := c[s..] + Dots(s);
    if j + s < 13 {
      assert m[j] == c[j + s];
      if m == c { NoPeriod(c, s, j + s); }
    } else {
      assert m[j] == 0;
    }
  }

  /** The checks `bidname` makes on the characters of a name. */
  predicate Biddable(c: Chars) { Suffix(c) == c && c != Dots(13) && c[12] == 0 && c[11] == 0 }

  /** Some letters without a dot between them, at least one and at most eleven. */
  ghost predicate Short(c: Chars) {
    exists n: nat :: 1 <= n <= 11 && IsWord(c, n)
  }

  predicate IsWord(c: Chars, n: nat) { forall i :: 0 <= i < 13 ==> (c[i] != 0 <==> i < n) }

  /** Those are exactly the names one can bid on. */
  lemma {:induction false} BiddableMeans(c: Chars)
    ensures Biddable(c) <==> Short(c)
  {
    hide Suffix;
    if Biddable(c) {
      var j :| 0 <= j < 13 && c[j] != Dots(13)[j];
      SuffixIsWhole(c, j);
      var n := FirstDot(c, 0);
      assert IsWord(c, n);
    }
    if Short(c) {
      var n: nat :| 1 <= n <= 11 && IsWord(c, n);
      assert c[0] != 0 && Dots(13)[0] == 0;
      SuffixIsWhole(c, 0);
    }
  }

  lemma {:induction false} FirstDot(c: Chars, i: nat) returns (n: nat)
    requires i <= 11 && c[11] == 0 && forall k :: 0 <= k < i ==> c[k] != 0
    ensures n <= 11 && c[n] == 0 && forall k :: 0 <= k < n ==> c[k] != 0
    decreases 11 - i
  {
    if c[i] == 0 { n := i; } else { n := FirstDot(c, i + 1); }
  }
}
