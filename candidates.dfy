/** Shared vocabulary of the factor-candidate finders: the shapes of their
    arguments and results, the accumulator they push into, and the sets of
    candidates they are meant to return.

    Integers are Dafny's unbounded `int`. The finders only ever take `n % d`
    with d >= 2 and compare the remainder with zero; JavaScript's truncating
    `%` and Dafny's Euclidean `%` agree on that test for every integer n, so
    no precondition on n is needed. */
module Candidates {

  datatype Option<T> = None | Some(value: T)

  /** A value, or the message of the `Error` the source throws. */
  datatype Result<T> = Success(value: T) | Failure(error: string)

  const BadArgs: string := "Bad Args!"

  /** The exclusion argument as callers pass it: null or omitted, an array, or a Set. */
  datatype Exclusion = Absent | FromArray(items: seq<int>) | FromSet(members: set<int>)

  /** `exclude instanceof Set ? exclude : new Set(exclude)`, where `new Set(null)`
      and `new Set(undefined)` are empty. */
  function ExcludeSet(e: Exclusion): (r: set<int>)
    ensures forall x :: x in r <==> (e.FromArray? && x in e.items) || (e.FromSet? && x in e.members)
  {
    match e
    case Absent => {}
    case FromArray(items) => SetOf(items)
    case FromSet(members) => members
  }

  /** What a finder returns: an Array (when `options.asArray` is truthy) or a Set. */
  datatype Collection = ArrayResult(items: seq<int>) | SetResult(members: set<int>)
  {
    function Elements(): set<int>
    {
      match this
      case ArrayResult(items) => SetOf(items)
      case SetResult(members) => members
    }
  }

  /** The Set an array's elements make, as `new Set(array)` builds it. */
  function SetOf(s: seq<int>): set<int>
  {
    set x | x in s
  }

  predicate StrictlyAscending(s: seq<int>)
  {
    forall i, j :: 0 <= i < j < |s| ==> s[i] < s[j]
  }

  /** Odd divisors of n in [3, bound) that are not excluded. */
  function OddCandidatesBelow(n: int, excl: set<int>, bound: int): set<int>
  {
    set i | 3 <= i < bound && i % 2 == 1 && n % i == 0 && i !in excl
  }

  /** What the strict-bound finders (helper1-3, findFactors1/2,
      findPrimeFactorCandidates1, findNewFactors) collect: 2 when n is even and
      2 is not excluded, and the odd divisors 3 <= i < n not excluded. */
  function StrictCandidates(n: int, excl: set<int>): set<int>
  {
    (if n % 2 == 0 && 2 !in excl then {2} else {}) + OddCandidatesBelow(n, excl, n)
  }

  /** What findPrimeFactorCandidates2 collects: 2 whenever n is even, whatever
      the exclusion says, and the odd divisors 3 <= i <= n not excluded. */
  function FinalCandidates(n: int, excl: set<int>): set<int>
  {
    (if n % 2 == 0 then {2} else {}) + OddCandidatesBelow(n, excl, n + 1)
  }

  /** c holds exactly the numbers in expected, in the shape asArray selects,
      and ascending when it is an Array: what every finder promises, with
      expected one of the two candidate sets above. */
  predicate IsResultFor(c: Collection, expected: set<int>, asArray: bool)
  {
    c.ArrayResult? == asArray &&
    c.Elements() == expected &&
    (c.ArrayResult? ==> StrictlyAscending(c.items))
  }

  /** The accumulator the finders fill: an Array or a Set, chosen once when it
      is created, filled through `addFactor`, which skips excluded numbers. */
  class FactorList {
    const asArray: bool
    var items: seq<int>
    var members: set<int>

    constructor (asArray: bool)
      ensures this.asArray == asArray && items == [] && members == {}
    {
      this.asArray := asArray;
      items := [];
      members := {};
    }

    function Contents(): Collection
      reads this
    {
      if asArray then ArrayResult(items) else SetResult(members)
    }

    /** Skips numToAdd when exclSet has it; otherwise pushes it onto the Array
        or adds it to the Set. */
    method AddFactor(numToAdd: int, exclSet: set<int>)
      modifies this
      ensures numToAdd in exclSet ==> items == old(items) && members == old(members)
      ensures numToAdd !in exclSet && asArray ==> items == old(items) + [numToAdd] && members == old(members)
      ensures numToAdd !in exclSet && !asArray ==> members == old(members) + {numToAdd} && items == old(items)
    {
      if numToAdd in exclSet {
        return;
      }
      if asArray {
        items := items + [numToAdd];
      } else {
        members := members + {numToAdd};
      }
    }
  }

  // ---------------------------------------------------------------------
  // Lemmas the loops use

  /** One step of the odd scan: moving the bound from i to i + 2 adds i when it qualifies. */
  lemma OddCandidatesStep(n: int, excl: set<int>, i: int)
    requires 3 <= i && i % 2 == 1
    ensures OddCandidatesBelow(n, excl, i + 2) ==
            OddCandidatesBelow(n, excl, i) + (if n % i == 0 && i !in excl then {i} else {})
  {
    var lhs := OddCandidatesBelow(n, excl, i + 2);
    var rhs := OddCandidatesBelow(n, excl, i) + (if n % i == 0 && i !in excl then {i} else {});
    forall x | x in lhs ensures x in rhs {
      assert x != i + 1;
    }
  }

  /** A scan that stopped at the first odd i >= bound has seen every odd number below bound. */
  lemma OddCandidatesAtExit(n: int, excl: set<int>, i: int, bound: int)
    requires 3 <= i && i % 2 == 1 && i >= bound
    requires i == 3 || i <= bound + 1
    ensures OddCandidatesBelow(n, excl, i) == OddCandidatesBelow(n, excl, bound)
  {
    var lhs := OddCandidatesBelow(n, excl, i);
    forall x | x in lhs ensures x < bound {
      assert x != bound;
    }
  }

  /** Two strictly ascending sequences holding the same numbers are the same sequence. */
  lemma {:induction false} AscendingUnique(a: seq<int>, b: seq<int>)
    requires StrictlyAscending(a) && StrictlyAscending(b)
    requires forall x :: x in a <==> x in b
    ensures a == b
  {
    if a == [] {
      if b != [] {
        HasMember(b);
      }
    } else {
      HasMember(a);
      HasMember(b);
      HeadIsLeast(a, b[0]);
      HeadIsLeast(b, a[0]);
      TailMembers(a, b);
      TailMembers(b, a);
      AscendingUnique(a[1..], b[1..]);
      assert a == [a[0]] + a[1..];
      assert b == [b[0]] + b[1..];
    }
  }

  /** The head of a strictly ascending sequence is below every other element. */
  lemma HeadIsLeast(a: seq<int>, x: int)
    requires StrictlyAscending(a) && a != [] && x in a
    ensures a[0] <= x
  {
  }

  /** After dropping equal heads, what one tail holds the other holds too. */
  lemma TailMembers(a: seq<int>, b: seq<int>)
    requires StrictlyAscending(a) && StrictlyAscending(b) && a != [] && b != [] && a[0] == b[0]
    requires forall x :: x in a ==> x in b
    ensures forall x :: x in a[1..] ==> x in b[1..]
  {
    forall x | x in a[1..] ensures x in b[1..] {
      var k :| 1 <= k < |a| && a[k] == x;
      assert x in a;
      var m :| 0 <= m < |b| && b[m] == x;
      assert m != 0;
      assert b[1..][m - 1] == x;
    }
  }

  /** Names the head as a member, so that callers can use it without indexing. */
  lemma HasMember(s: seq<int>)
    requires s != []
    ensures s[0] in s
  {
  }

  /** Sequences with the same set of elements hold the same numbers. */
  lemma SameElements(a: seq<int>, b: seq<int>)
    requires SetOf(a) == SetOf(b)
    ensures forall x :: x in a <==> x in b
  {
    forall x ensures x in a <==> x in b {
      assert x in a <==> x in SetOf(a);
      assert x in b <==> x in SetOf(b);
    }
  }

  /** Two answers that both meet a finder's contract for the same inputs are
      equal: the contract fixes the result, shape and order included. */
  lemma ResultUnique(x: Collection, y: Collection, expected: set<int>, asArray: bool)
    requires IsResultFor(x, expected, asArray) && IsResultFor(y, expected, asArray)
    ensures x == y
  {
    if asArray {
      SameElements(x.items, y.items);
      AscendingUnique(x.items, y.items);
    }
  }

  // ---------------------------------------------------------------------
  // What the source's comments and docs promise of the candidate sets

  /** No finder returns 1 or an even number other than 2. */
  lemma NeverOneNorOtherEven(n: int, excl: set<int>)
    ensures forall x :: x in StrictCandidates(n, excl) ==> x != 1 && (x % 2 == 0 ==> x == 2)
    ensures forall x :: x in FinalCandidates(n, excl) ==> x != 1 && (x % 2 == 0 ==> x == 2)
  {
  }

  /** Every candidate divides n. */
  lemma CandidatesDivide(n: int, excl: set<int>)
    ensures forall x :: x in StrictCandidates(n, excl) ==> x >= 2 && n % x == 0
    ensures forall x :: x in FinalCandidates(n, excl) ==> x >= 2 && n % x == 0
  {
  }

  /** n == 1 has no candidates in either version. */
  lemma OneHasNoCandidates(excl: set<int>)
    ensures StrictCandidates(1, excl) == {}
    ensures FinalCandidates(1, excl) == {}
  {
    assert OddCandidatesBelow(1, excl, 1) == {};
    forall x | x in OddCandidatesBelow(1, excl, 2) ensures false {
    }
  }

  /** The strict versions never return an excluded number, 2 included. */
  lemma StrictAvoidsExcluded(n: int, excl: set<int>)
    ensures forall x :: x in StrictCandidates(n, excl) ==> x !in excl
  {
  }

  /** The strict versions never return n itself, except n == 2, which the even branch adds. */
  lemma StrictOmitsSelf(n: int, excl: set<int>)
    ensures n != 2 ==> n !in StrictCandidates(n, excl)
    ensures 2 !in excl ==> 2 in StrictCandidates(2, excl)
  {
  }

  /** findPrimeFactorCandidates2 adds 2 for every even n, even when 2 is excluded,
      and applies the exclusion to every odd candidate. */
  lemma FinalTwoIgnoresExclusion(n: int, excl: set<int>)
    ensures 2 in FinalCandidates(n, excl) <==> n % 2 == 0
    ensures forall x :: x in FinalCandidates(n, excl) && x != 2 ==> x !in excl
  {
  }

  /** The inclusive bound: an odd n >= 3 that is not excluded is its own candidate. */
  lemma FinalIncludesOddSelf(n: int, excl: set<int>)
    requires n >= 3 && n % 2 == 1 && n !in excl
    ensures n in FinalCandidates(n, excl)
  {
    assert n % n == 0;
  }

  /** With 2 not excluded, the inclusive bound adds exactly n, and only when n is
      odd, at least 3 and not excluded. */
  lemma FinalExtendsStrict(n: int, excl: set<int>)
    requires 2 !in excl
    ensures FinalCandidates(n, excl) ==
            StrictCandidates(n, excl) + (if n % 2 == 1 && n >= 3 && n !in excl then {n} else {})
  {
    var lhs := OddCandidatesBelow(n, excl, n + 1);
    var rhs := OddCandidatesBelow(n, excl, n) + (if n % 2 == 1 && n >= 3 && n !in excl then {n} else {});
    assert n >= 3 ==> n % n == 0;
    forall x | x in lhs ensures x in rhs {
    }
    assert lhs == rhs;
  }

  /** The same difference for the Array form: the inclusive version's array is the
      strict version's array with n appended exactly when n qualifies. */
  lemma FinalArrayExtendsStrict(n: int, excl: set<int>, strict: seq<int>, final: seq<int>)
    requires 2 !in excl
    requires StrictlyAscending(strict) && SetOf(strict) == StrictCandidates(n, excl)
    requires StrictlyAscending(final) && SetOf(final) == FinalCandidates(n, excl)
    ensures final == if n % 2 == 1 && n >= 3 && n !in excl then strict + [n] else strict
  {
    FinalExtendsStrict(n, excl);
    if n % 2 == 1 && n >= 3 && n !in excl {
      var ext := strict + [n];
      forall k | 0 <= k < |strict| ensures strict[k] < n {
        assert strict[k] in StrictCandidates(n, excl);
      }
      assert StrictlyAscending(ext);
      assert SetOf(ext) == SetOf(strict) + {n};
      SameElements(final, ext);
      AscendingUnique(final, ext);
    } else {
      SameElements(final, strict);
      AscendingUnique(final, strict);
    }
  }

  /** The prime 7 shows the off-by-one: the strict bound finds nothing ... */
  lemma StrictMissesPrimeSeven()
    ensures StrictCandidates(7, {}) == {}
  {
    assert OddCandidatesBelow(7, {}, 7) == {};
  }

  /** ... and the inclusive bound finds 7 itself. */
  lemma FinalFindsPrimeSeven()
    ensures FinalCandidates(7, {}) == {7}
  {
    forall x | x in OddCandidatesBelow(7, {}, 8) ensures x == 7 {
      assert x == 3 || x == 5 || x == 7;
    }
    assert 7 in OddCandidatesBelow(7, {}, 8);
  }

  /** Excluding numbers removes exactly those numbers from the odd candidates. */
  lemma OddCandidatesExclude(n: int, excl: set<int>, bound: int)
    ensures OddCandidatesBelow(n, excl, bound) == OddCandidatesBelow(n, {}, bound) - excl
  {
  }

  /** The odd divisors of 100 below 100 are 5 and 25. */
  lemma OddDivisorsOfHundred()
    ensures OddCandidatesBelow(100, {}, 100) == {5, 25}
  {
    forall x | 3 <= x < 100 && x % 2 == 1 && 100 % x == 0 ensures x == 5 || x == 25 {
      var q := 100 / x;
      assert 100 == x * q;
      assert q % 4 == 0;
      var m := q / 4;
      assert 25 == x * m;
      assert 1 <= m <= 8;
      assert m == 1 || m == 5;
    }
    assert 5 in OddCandidatesBelow(100, {}, 100);
    assert 25 in OddCandidatesBelow(100, {}, 100);
  }

  /** The strict candidates of 100 with no exclusion, with 25 excluded, and with 5 excluded. */
  lemma HundredCandidates()
    ensures StrictCandidates(100, {}) == {2, 5, 25}
    ensures StrictCandidates(100, {25}) == {2, 5}
    ensures StrictCandidates(100, {5}) == {2, 25}
  {
    OddDivisorsOfHundred();
    OddCandidatesExclude(100, {25}, 100);
    OddCandidatesExclude(100, {5}, 100);
  }

  /** The odd divisors of 234 (2 * 3 * 3 * 13) up to 234 are 3, 9, 13, 39 and 117. */
  lemma OddDivisorsOf234()
    ensures OddCandidatesBelow(234, {}, 235) == {3, 9, 13, 39, 117}
    ensures OddCandidatesBelow(234, {}, 234) == {3, 9, 13, 39, 117}
  {
    forall x | 3 <= x < 235 && x % 2 == 1 && 234 % x == 0 ensures x in {3, 9, 13, 39, 117} {
      var q := 234 / x;
      assert 234 == x * q;
      assert q % 2 == 0;
      var m := q / 2;
      assert 117 == x * m;
      assert 1 <= m <= 39 && m % 2 == 1;
      assert m == 1 || m == 3 || m == 5 || m == 7 || m == 9 || m == 11 || m == 13 || m == 15 || m == 17 || m == 19 ||
             m == 21 || m == 23 || m == 25 || m == 27 || m == 29 || m == 31 || m == 33 || m == 35 || m == 37 || m == 39;
    }
    assert 3 in OddCandidatesBelow(234, {}, 235);
    assert 9 in OddCandidatesBelow(234, {}, 235);
    assert 13 in OddCandidatesBelow(234, {}, 235);
    assert 39 in OddCandidatesBelow(234, {}, 235);
    assert 117 in OddCandidatesBelow(234, {}, 235);
    OddCandidatesAtExit(234, {}, 235, 234);
  }

  /** The calls 50-footguns.js shows for 234: the strict versions with 13 excluded
      and with nothing excluded, and the final version with 9 and 15 excluded. */
  lemma Candidates234()
    ensures StrictCandidates(234, {13}) == {2, 3, 9, 39, 117}
    ensures StrictCandidates(234, {}) == {2, 3, 9, 13, 39, 117}
    ensures FinalCandidates(234, {9, 15}) == {2, 3, 13, 39, 117}
  {
    OddDivisorsOf234();
    OddCandidatesExclude(234, {13}, 234);
    OddCandidatesExclude(234, {9, 15}, 235);
  }
}
