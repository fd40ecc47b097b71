# Factor-candidate finder

The JSTuts teaching snippets include one small algorithm that the authors
refactor step by step: the "factor candidate" finder. Given an integer `n`, an
exclusion collection and an `asArray` option, it:

- adds 2 when `n` is even;
- scans the odd numbers from 3 upward, in steps of 2, and keeps those that
  divide `n` and are not excluded;
- returns what it collected as an Array in ascending discovery order, or as a
  Set.

The versions differ in two ways. The early versions (`helper1`, `helper2`,
`helper3`, `findFactors1`, `findFactors2`, `findPrimeFactorCandidates1`, and
`findNewFactors` in the functions chapter) stop the scan at `i < n` and pass 2
through the exclusion filter. The final version, `findPrimeFactorCandidates2`,
scans up to and including `n` and always adds 2 for an even `n`.

This project models every version as an imperative Dafny method. `helper3`,
`findFactors1`, `findPrimeFactorCandidates2` and `findNewFactors` each have a
loop that mirrors the source; `helper1` and `helper2` check their arguments and
then run `helper3`, and `findFactors2` and `findPrimeFactorCandidates1`, whose
code is the same as `findFactors1`'s, run `findFactors1`. Each method is proved
against one of two specification sets built by set comprehension:

- `StrictCandidates(n, excl)`: 2 when `n` is even and 2 is not excluded, plus
  the odd divisors `3 <= i < n` that are not excluded.
- `FinalCandidates(n, excl)`: 2 when `n` is even, plus the odd divisors
  `3 <= i <= n` that are not excluded.

Every method guarantees three things: its result has the shape `asArray` asks
for, its elements are exactly the specification set, and in Array form it is
strictly ascending. A separate lemma, `AscendingUnique`, shows that these three
facts fix the result completely, so results can be compared across versions.

Files:

- `candidates.dfy` (module `Candidates`) holds the data model, the
  specification sets and the lemmas about them. The data model covers the
  exclusion argument, the result shapes and `FactorList`, the accumulator that
  `addFactor` fills.
- `footguns.dfy` (module `Footguns`) holds the seven versions in
  50-footguns.js.
- `new_factors.dfy` (module `NewFactors`) holds `findNewFactors` from
  06-functions.js.
- `variants.dfy` (module `Variants`) relates the versions to each other and
  proves what the concrete calls written in the source return.

Modelling decisions:

- `n` is an unbounded `int` with no precondition. The source only tests
  `n % d === 0` for `d >= 2`. JavaScript's truncating `%` and Dafny's
  Euclidean `%` agree on that test for every integer, so a zero or negative `n`
  behaves the same in both: the scan finds nothing, and the result is `{2}`
  when `n` is even (and, for the strict versions, 2 is not excluded), empty
  otherwise.
- The exclusion argument is `Exclusion = Absent | FromArray(seq) | FromSet(set)`.
  `ExcludeSet` normalises it the way `exclude instanceof Set ? exclude : new Set(exclude)`
  does, so `null` and `undefined` become the empty set.
- `options.asArray` is a `bool`. An absent options object or an absent flag is
  `false`.
- `helper1` and `helper2` throw `Error('Bad Args!')` when their first argument
  (`data`) or their second (`data2`) is falsy; the options argument is not
  checked. A falsy `data` or `data2` is modelled as `None`, and the throw as
  `Failure("Bad Args!")`.
  The target number and the `why` exclusion are passed as values.

Two consequences of the code worth stating:

- `Candidates234` proves that `findPrimeFactorCandidates2(234, [9, 15])` returns
  `{2, 3, 13, 39, 117}`.
- No version rejects `n <= 0`; such an `n` gets the result described above.

The comment at 50-footguns.js:290 says the early versions never include the
number itself. That is false for `n == 2`, because the even branch adds 2.
`StrictOmitsSelf` states the exception.

## Model

| member | source | states |
|---|---|---|
| `Candidates.FactorList.AddFactor` | 50-footguns.js:198-207 | an excluded number leaves the accumulator unchanged; otherwise it is pushed onto the Array or added to the Set, whichever the accumulator is, and the other form is untouched |
| `Footguns.Helper1` | 50-footguns.js:23-63 | fails with "Bad Args!" exactly when the data or the exclusion wrapper is missing; otherwise returns the strict candidates of the target, in the requested shape, ascending when an Array |
| `Footguns.Helper2` | 50-footguns.js:92-130 | the guard-clause version: the same failure condition and message, and the same successful result as helper1 |
| `Footguns.Helper3` | 50-footguns.js:144-180 | the result is in the shape `asArray` asks for; its elements are exactly 2 (if n is even and 2 is not excluded) and the odd divisors 3 <= i < n that are not excluded; an Array result is strictly ascending |
| `Footguns.FindFactors1` | 50-footguns.js:192-218 | the same contract as helper3, reached through `addFactor` on one accumulator |
| `Footguns.FindFactors2` | 50-footguns.js:234-267 | the same contract as findFactors1 |
| `Footguns.FindPrimeFactorCandidates1` | 50-footguns.js:311-344 | the same contract as findFactors1: strict bound, and 2 filtered by the known composites |
| `Footguns.FindPrimeFactorCandidates2` | 50-footguns.js:380-400 | the result is in the shape `asArray` asks for; its elements are exactly 2 (whenever n is even) and the odd divisors 3 <= i <= n that are not known composites; an Array result is strictly ascending |
| `NewFactors.FindNewFactors` | 06-functions.js:166-197 | elements are exactly 2 (if num is even and 2 is not excluded) and the odd divisors 3 <= i < num that are not excluded; Array when asArray holds, strictly ascending, otherwise a Set |
| `Candidates.AscendingUnique` | 50-footguns.js:392-396 | two strictly ascending arrays holding the same numbers are equal, so the Array form is fixed by its elements |
| `Candidates.ResultUnique` | 50-footguns.js:17-19 | any two results that hold exactly the same candidate set, in the same shape and ascending when Arrays, are equal; so the strict versions' contract, and the final version's, each fix one result |
| `Candidates.ExcludeSet` | 50-footguns.js:196 | `exclude instanceof Set ? exclude : new Set(exclude)` (also 50-footguns.js:147-149, 238, 315, 383 and 06-functions.js:170): a number is excluded exactly when it is an element of the array or Set passed; a null or absent exclusion excludes nothing |
| `Candidates.NeverOneNorOtherEven` | 50-footguns.js:288-291 | no version returns 1, and the only even number any version returns is 2 |
| `Candidates.CandidatesDivide` | 50-footguns.js:300-309 | every candidate of either version is at least 2 and divides n |
| `Candidates.OneHasNoCandidates` | 50-footguns.js:335-341 | for n == 1 both versions return nothing |
| `Candidates.StrictAvoidsExcluded` | 50-footguns.js:198-207 | the strict versions never return an excluded number, 2 included |
| `Candidates.StrictOmitsSelf` | 50-footguns.js:288-291 | the strict versions never return n itself unless n == 2, which they do return when 2 is not excluded |
| `Candidates.FinalTwoIgnoresExclusion` | 50-footguns.js:387-393 | 2 is a final candidate exactly when n is even, excluded or not; every other final candidate is not excluded |
| `Candidates.FinalIncludesOddSelf` | 50-footguns.js:355-358 | with the inclusive bound, an odd n >= 3 that is not excluded is its own candidate |
| `Candidates.FinalExtendsStrict` | 50-footguns.js:392 | when 2 is not excluded, the final candidates are the strict ones plus n exactly when n is odd, at least 3 and not excluded |
| `Candidates.FinalArrayExtendsStrict` | 50-footguns.js:385-396 | the same difference for the Array forms: the final array is the strict array with n appended exactly in that case, and is otherwise equal |
| `Candidates.StrictMissesPrimeSeven` | 50-footguns.js:338 | the strict bound finds no candidate for the prime 7 |
| `Candidates.FinalFindsPrimeSeven` | 50-footguns.js:355-358 | the inclusive bound finds exactly 7 for the prime 7 |
| `Candidates.HundredCandidates` | 06-functions.js:199-201 | the strict candidates of 100 are {2, 5, 25}; with 25 excluded {2, 5}; with 5 excluded {2, 25} |
| `Candidates.Candidates234` | 50-footguns.js:349-353 | the strict candidates of 234 are {2, 3, 9, 13, 39, 117}, or {2, 3, 9, 39, 117} with 13 excluded; the final ones with 9 and 15 excluded are {2, 3, 13, 39, 117} |
| `Variants.StrictVariantsAgree` | 50-footguns.js:17-19 | helper3, findFactors1, findFactors2, findPrimeFactorCandidates1 and findNewFactors return equal results on equal inputs |
| `Variants.GuardedHelpersAgree` | 50-footguns.js:92-130 | with both arguments present, helper1 and helper2 succeed with exactly helper3's result |
| `Variants.FinalShapesAgree` | 50-footguns.js:398 | findPrimeFactorCandidates2's Set result is the Set of the elements of its Array result |
| `Variants.NewFactorsShapesAgree` | 06-functions.js:181-185 | findNewFactors' Set result is the Set of the elements of its Array result |
| `Variants.BoundFixAppendsSelf` | 50-footguns.js:338 | moving from findPrimeFactorCandidates1 to findPrimeFactorCandidates2 (with 2 not a known composite) appends n to the array exactly when n is odd, at least 3 and not excluded, and changes nothing else |
| `Variants.PrimeSevenExample` | 50-footguns.js:355-358 | for 7 with nothing excluded, findPrimeFactorCandidates1 returns [] and findPrimeFactorCandidates2 returns [7] |
| `Variants.HundredExamples` | 06-functions.js:199-201 | findNewFactors(100, null), (100, Set {25}) and (100, [5]) with asArray return [2, 5, 25], [2, 5] and [2, 25] |
| `Variants.Examples234` | 50-footguns.js:402 | helper1 on the sample objects returns the Set {2, 3, 9, 39, 117}; findPrimeFactorCandidates1(234, []) returns {2, 3, 9, 13, 39, 117}; findPrimeFactorCandidates2(234, [9, 15]) returns {2, 3, 13, 39, 117} |
| `Variants.ExclusionFormsAgree` | 06-functions.js:170 | findNewFactors returns the same with a null exclusion as with an empty Set, and the same with an array of exclusions as with the Set of its elements, in either shape |
| `Variants.FinalIdempotent` | 50-footguns.js:380-400 | two calls of findPrimeFactorCandidates2 with the same arguments return equal results |

## Left out

- JavaScript `Number` semantics are not modelled. `n` is an exact integer here; non-integers, NaN and Infinity are left out.
- Beyond 2^53 a JavaScript `n` may not be the integer written in the source.
- From 2^54 on, `i + 2` rounds back to `i`. The scans at 50-footguns.js:54, 124, 174, 212, 338 and 392 and at 06-functions.js:191 then never end when `n` is that large; the model's loops always end.
- Type errors are not modelled. A data object without `myData` or `myData[0]` makes helper1 and helper2 throw a `TypeError`.
- A data object whose `myData[0]` has no `targ` reads it as `undefined`. Then `undefined % 2 === 0` and `3 < undefined` are both false, so helper1 and helper2 return an empty Set or `[]`. The model has no `undefined` number.
- An exclusion that is not iterable (such as a number) makes the source throw a `TypeError`. Exclusion elements that are not numbers are not modelled either.
- Set results are `set<int>`. A JavaScript Set also iterates in insertion order, which here is ascending, as in the Array; the model does not keep that order.
- Runtime type dispatch (`instanceof Set`) is replaced by the `Exclusion` datatype and its normalisation, `ExcludeSet`. Aliasing of a Set passed in is not modelled; no version mutates that Set.
- Truthiness is reduced to two cases. `data` and `data2` in helper1 and helper2 are `Option` values (`None` is falsy), and `options.asArray` is a `bool`.
- Footguns.Helper1: the source repeats the scan inline. The model calls `Helper3` after the guards, because the loop text is the same.
- Footguns.Helper2: calls `Helper3` after the guard, for the same reason as Helper1.
- Footguns.FindFactors2: calls `FindFactors1`, because the two bodies differ only in comments.
- Footguns.FindPrimeFactorCandidates1: calls `FindFactors1`, because the two bodies differ only in comments and names.
- helper3 swaps both the accumulator and its filling closure when `asArray` holds. The model keeps one array and one set, and branches on `asArray` where the closure is called.
- The rest of the repository is not part of this model. It consists of the truthy/falsy, coercion, object, primitive, variable and casting demonstrations, the asynchronous-execution narrative (timers, `fetch`, busy-waiting on the clock), and the one-line arithmetic and string helpers. It holds no logic to verify beyond `console.log` demonstrations, and its I/O and floating point are out of scope.

## Findings

| source | as written | input that shows it | evidently intended | confidence | as-written member | corrected member |
|---|---|---|---|---|---|---|
| 50-footguns.js:338 | `for (let i = 3; i < baseNum; i += 2)`, which never tests `baseNum` itself | baseNum = 7, knownComposites = []: the result is empty, although 7 is a prime factor of 7, as the comment at 50-footguns.js:355-358 says | `i <= baseNum`, as in findPrimeFactorCandidates2 at 50-footguns.js:392 | high: the source's own comment names the bug; not executed | `Candidates.StrictMissesPrimeSeven` | `Candidates.FinalIncludesOddSelf` |
