/**
 * The number selection of the 3D betting page: a list of three-digit strings
 * built up by `chooseNumber`, `addPermutation` and `addDigits`, trimmed by
 * `removeSpecificDigit`, cleared by `removeNumber`, and turned into one bet line
 * per number by `goToConfirm`.
 */
module ThreeDPage {
  import opened JsRuntime

  predicate AllThreeDigit(numbers: seq<string>) {
    forall i :: 0 <= i < |numbers| ==> IsThreeDigitNumber(numbers[i])
  }

  /** What `chooseNumber` reports: the number it added, or the toast it shows instead. */
  datatype ChooseOutcome = Chosen(number: string) | EmptyInput | NotThreeDigits | AlreadySelected

  /**
   * The checks of `chooseNumber`, in the order the page makes them: blank input,
   * then the three-digit pattern on the trimmed input, then membership.
   */
  function CheckChoice(selected: seq<string>, input: string): (o: ChooseOutcome)
    ensures o == EmptyInput <==> AllWhitespace(input)
    ensures o == NotThreeDigits <==> !AllWhitespace(input) && !IsThreeDigitNumber(Trim(input))
    ensures o == AlreadySelected <==> IsThreeDigitNumber(Trim(input)) && Trim(input) in selected
    ensures o.Chosen? <==> IsThreeDigitNumber(Trim(input)) && Trim(input) !in selected
    ensures o.Chosen? ==> o.number == Trim(input)
  {
    TrimEmptyIffAllWhitespace(input);
    var digit := Trim(input);
    if |digit| == 0 then EmptyInput
    else if !IsThreeDigitNumber(digit) then NotThreeDigits
    else if digit in selected then AlreadySelected
    else Chosen(digit)
  }

  /** All three indices are positions of an `n`-character string and no two are equal. */
  predicate DistinctIndices(n: nat, i: nat, j: nat, k: nat) {
    i < n && j < n && k < n && i != j && i != k && j != k
  }

  /** `digits[i] + digits[j] + digits[k]`. */
  function Arrange(num: string, i: nat, j: nat, k: nat): string
    requires i < |num| && j < |num| && k < |num|
  {
    [num[i], num[j], num[k]]
  }

  /** `p` takes three different positions of `num`, in some order. */
  ghost predicate IsArrangementOf(p: string, num: string) {
    exists i: nat, j: nat, k: nat :: DistinctIndices(|num|, i, j, k) && p == Arrange(num, i, j, k)
  }

  /** The six orders of a three-character string. */
  function SixOrders(num: string): set<string>
    requires |num| == 3
  {
    {Arrange(num, 0, 1, 2), Arrange(num, 0, 2, 1), Arrange(num, 1, 0, 2),
     Arrange(num, 1, 2, 0), Arrange(num, 2, 0, 1), Arrange(num, 2, 1, 0)}
  }

  /** For a three-character number, an arrangement is one of its six orders. */
  lemma ArrangementOfThree(p: string, num: string)
    requires |num| == 3 && IsArrangementOf(p, num)
    ensures p in SixOrders(num)
  {
    var i: nat, j: nat, k: nat :| DistinctIndices(|num|, i, j, k) && p == Arrange(num, i, j, k);
  }

  /** Arranging the digits of a three-digit number gives a three-digit number. */
  lemma ArrangementIsThreeDigit(p: string, num: string)
    requires IsThreeDigitNumber(num) && IsArrangementOf(p, num)
    ensures IsThreeDigitNumber(p)
  {
  }

  /** A set of strings inside the six orders has at most six elements. */
  lemma AtMostSixOrders(s: set<string>, num: string)
    requires |num| == 3 && s <= SixOrders(num)
    ensures |s| <= 6
  {
    var a, b, c := Arrange(num, 0, 1, 2), Arrange(num, 0, 2, 1), Arrange(num, 1, 0, 2);
    var d, e, f := Arrange(num, 1, 2, 0), Arrange(num, 2, 0, 1), Arrange(num, 2, 1, 0);
    assert |{a}| <= 1;
    assert |{a, b}| <= 2;
    assert |{a, b, c}| <= 3;
    assert |{a, b, c, d}| <= 4;
    assert |{a, b, c, d, e}| <= 5;
    assert |SixOrders(num)| <= 6;
    SubsetCardinality(s, SixOrders(num));
  }

  lemma {:induction false} SubsetCardinality<T>(a: set<T>, b: set<T>)
    requires a <= b
    ensures |a| <= |b|
    decreases |b|
  {
    if b != {} {
      var x :| x in b;
      SubsetCardinality(a - {x}, b - {x});
    }
  }

  /** The list after the innermost loop body at `(i, j, k)`: the arrangement is kept unless present. */
  function Kept(perms: seq<string>, num: string, i: nat, j: nat, k: nat): seq<string>
    requires i < |num| && j < |num| && k < |num|
  {
    if DistinctIndices(|num|, i, j, k) && Arrange(num, i, j, k) !in perms then perms + [Arrange(num, i, j, k)]
    else perms
  }

  /**
   * The three loops of `generatePermutations` run from positions `(i, j, k)`
   * on, with the list `perms` built so far: the list they finish with.
   */
  function Run(perms: seq<string>, num: string, i: nat, j: nat, k: nat): seq<string>
    decreases |num| - i, |num| - j, |num| - k
  {
    if i >= |num| then perms
    else if j >= |num| then Run(perms, num, i + 1, 0, 0)
    else if k >= |num| then Run(perms, num, i, j + 1, 0)
    else Run(Kept(perms, num, i, j, k), num, i, j, k + 1)
  }

  /** The list `generatePermutations(num)` returns. */
  function Permutations(num: string): seq<string> {
    Run([], num, 0, 0, 0)
  }

  /** `(a, b, c)` comes at or after `(i, j, k)` in the order the loops run. */
  predicate NotBefore(a: nat, b: nat, c: nat, i: nat, j: nat, k: nat) {
    a > i || (a == i && (b > j || (b == j && c >= k)))
  }

  /** One body of the innermost loop adds at most the arrangement at `(i, j, k)`, and never a repeat. */
  lemma KeptContents(perms: seq<string>, num: string, i: nat, j: nat, k: nat)
    requires i < |num| && j < |num| && k < |num|
    ensures forall x :: x in Kept(perms, num, i, j, k) <==>
      x in perms || (DistinctIndices(|num|, i, j, k) && x == Arrange(num, i, j, k))
    ensures NoDuplicates(perms) ==> NoDuplicates(Kept(perms, num, i, j, k))
  {
  }

  /** The loops never drop a number from the list built so far. */
  lemma {:induction false} RunKeeps(perms: seq<string>, num: string, i: nat, j: nat, k: nat)
    ensures forall p :: p in perms ==> p in Run(perms, num, i, j, k)
    decreases |num| - i, |num| - j, |num| - k
  {
    if i >= |num| {
    } else if j >= |num| {
      RunKeeps(perms, num, i + 1, 0, 0);
    } else if k >= |num| {
      RunKeeps(perms, num, i, j + 1, 0);
    } else {
      RunKeeps(Kept(perms, num, i, j, k), num, i, j, k + 1);
      KeptContents(perms, num, i, j, k);
    }
  }

  /** The loops add only arrangements of three different positions, and no repeat. */
  lemma {:induction false} RunSound(perms: seq<string>, num: string, i: nat, j: nat, k: nat)
    ensures forall p :: p in Run(perms, num, i, j, k) ==> p in perms || IsArrangementOf(p, num)
    ensures NoDuplicates(perms) ==> NoDuplicates(Run(perms, num, i, j, k))
    decreases |num| - i, |num| - j, |num| - k
  {
    if i >= |num| {
    } else if j >= |num| {
      RunSound(perms, num, i + 1, 0, 0);
    } else if k >= |num| {
      RunSound(perms, num, i, j + 1, 0);
    } else {
      RunSound(Kept(perms, num, i, j, k), num, i, j, k + 1);
      KeptContents(perms, num, i, j, k);
      if DistinctIndices(|num|, i, j, k) {
        assert IsArrangementOf(Arrange(num, i, j, k), num);
      }
    }
  }

  /** From `(i, j, k)` on, the loops add every arrangement whose positions they have not yet passed. */
  lemma {:induction false} RunComplete(perms: seq<string>, num: string, i: nat, j: nat, k: nat)
    ensures forall a: nat, b: nat, c: nat ::
      DistinctIndices(|num|, a, b, c) && NotBefore(a, b, c, i, j, k) ==> Arrange(num, a, b, c) in Run(perms, num, i, j, k)
    decreases |num| - i, |num| - j, |num| - k
  {
    if i >= |num| {
    } else if j >= |num| {
      RunComplete(perms, num, i + 1, 0, 0);
    } else if k >= |num| {
      RunComplete(perms, num, i, j + 1, 0);
    } else {
      var next := Kept(perms, num, i, j, k);
      RunComplete(next, num, i, j, k + 1);
      forall a: nat, b: nat, c: nat | DistinctIndices(|num|, a, b, c) && NotBefore(a, b, c, i, j, k)
        ensures Arrange(num, a, b, c) in Run(perms, num, i, j, k)
      {
        if a == i && b == j && c == k {
          KeptContents(perms, num, i, j, k);
          RunKeeps(next, num, i, j, k + 1);
        } else {
          assert NotBefore(a, b, c, i, j, k + 1);
        }
      }
    }
  }

  /**
   * What `generatePermutations(num)` returns holds no number twice, holds only
   * arrangements of three different positions of `num` and every one of them;
   * for a three-character `num` that is `num` itself and at most six numbers.
   */
  lemma PermutationsProperties(num: string)
    ensures NoDuplicates(Permutations(num))
    ensures forall p :: p in Permutations(num) ==> IsArrangementOf(p, num)
    ensures forall i: nat, j: nat, k: nat :: DistinctIndices(|num|, i, j, k) ==> Arrange(num, i, j, k) in Permutations(num)
    ensures |num| == 3 ==>
      num in Permutations(num) && (set p | p in Permutations(num)) == SixOrders(num) && |Permutations(num)| <= 6
  {
    var perms := Permutations(num);
    RunSound([], num, 0, 0, 0);
    RunComplete([], num, 0, 0, 0);
    if |num| == 3 {
      assert num == Arrange(num, 0, 1, 2);
      forall p | p in perms
        ensures p in SixOrders(num)
      {
        ArrangementOfThree(p, num);
      }
      NoDuplicatesCardinality(perms);
      AtMostSixOrders((set p | p in perms), num);
    }
  }

  /**
   * `generatePermutations`: three nested loops over the positions of `num`,
   * keeping `digits[i] + digits[j] + digits[k]` for pairwise different
   * positions unless it is already in the list. The result is the loop order
   * with repeats dropped, so it holds exactly the arrangements of three
   * different positions, each once; for a three-digit number that is its own
   * rearrangements, at most six, itself included.
   */
  method GeneratePermutations(num: string) returns (perms: seq<string>)
    ensures perms == Permutations(num)
    ensures NoDuplicates(perms)
    ensures forall p :: p in perms ==> IsArrangementOf(p, num)
    ensures forall i: nat, j: nat, k: nat :: DistinctIndices(|num|, i, j, k) ==> Arrange(num, i, j, k) in perms
    ensures |num| == 3 ==> num in perms && (set p | p in perms) == SixOrders(num) && |perms| <= 6
  {
    var n := |num|;
    perms := [];
    for i := 0 to n
      invariant Run(perms, num, i, 0, 0) == Permutations(num)
    {
      for j := 0 to n
        invariant Run(perms, num, i, j, 0) == Permutations(num)
      {
        for k := 0 to n
          invariant Run(perms, num, i, j, k) == Permutations(num)
        {
          if i != j && i != k && j != k {
            var perm := Arrange(num, i, j, k);
            if perm !in perms {
              perms := perms + [perm];
            }
          }
        }
      }
    }
    PermutationsProperties(num);
  }

  /**
   * The list `addDigits` builds: `selected` followed by each number of
   * `digits`, in order, that is not already in the list by then.
   */
  function AppendMissing(selected: seq<string>, digits: seq<string>): (r: seq<string>)
    ensures |r| <= |selected| + |digits|
    decreases |digits|
  {
    if digits == [] then selected
    else AppendMissing(if digits[0] in selected then selected else selected + [digits[0]], digits[1..])
  }

  /** Adding a list that starts with `d` is keeping `d` unless present, then adding the rest. */
  lemma AppendMissingFront(selected: seq<string>, d: string, rest: seq<string>)
    ensures AppendMissing(selected, [d] + rest)
      == AppendMissing(if d in selected then selected else selected + [d], rest)
  {
    assert ([d] + rest)[1..] == rest;
  }

  /** `addDigits` keeps the existing selection, in its order, at the front. */
  lemma {:induction false} AppendMissingKeepsPrefix(selected: seq<string>, digits: seq<string>)
    ensures |selected| <= |AppendMissing(selected, digits)|
    ensures AppendMissing(selected, digits)[..|selected|] == selected
    decreases |digits|
  {
    if digits != [] {
      var next := if digits[0] in selected then selected else selected + [digits[0]];
      AppendMissingKeepsPrefix(next, digits[1..]);
      var r := AppendMissing(selected, digits);
      assert r[..|selected|] == r[..|next|][..|selected|];
    }
  }

  /** After `addDigits` the selection holds exactly the old numbers and the added ones. */
  lemma {:induction false} AppendMissingContents(selected: seq<string>, digits: seq<string>)
    ensures forall x :: x in AppendMissing(selected, digits) <==> x in selected || x in digits
    decreases |digits|
  {
    if digits != [] {
      var next := if digits[0] in selected then selected else selected + [digits[0]];
      AppendMissingContents(next, digits[1..]);
      assert digits == [digits[0]] + digits[1..];
    }
  }

  /** `addDigits` never creates a duplicate, even when `digits` repeats a number. */
  lemma {:induction false} AppendMissingNoDuplicates(selected: seq<string>, digits: seq<string>)
    requires NoDuplicates(selected)
    ensures NoDuplicates(AppendMissing(selected, digits))
    decreases |digits|
  {
    if digits != [] {
      var next := if digits[0] in selected then selected else selected + [digits[0]];
      assert NoDuplicates(next) by {
        if digits[0] !in selected {
          forall i, j | 0 <= i < j < |next|
            ensures next[i] != next[j]
          {
            if j == |selected| {
              assert next[i] == selected[i];
            }
          }
        }
      }
      AppendMissingNoDuplicates(next, digits[1..]);
    }
  }

  /** Adding numbers that are all present already changes nothing. */
  lemma {:induction false} AppendMissingAllPresent(selected: seq<string>, digits: seq<string>)
    requires forall x :: x in digits ==> x in selected
    ensures AppendMissing(selected, digits) == selected
    decreases |digits|
  {
    if digits != [] {
      assert digits[0] in digits;
      assert forall x :: x in digits[1..] ==> x in digits;
      AppendMissingAllPresent(selected, digits[1..]);
    }
  }

  /** Applying `addDigits` twice with the same list is applying it once. */
  lemma AppendMissingIdempotent(selected: seq<string>, digits: seq<string>)
    ensures AppendMissing(AppendMissing(selected, digits), digits) == AppendMissing(selected, digits)
  {
    AppendMissingContents(selected, digits);
    AppendMissingAllPresent(AppendMissing(selected, digits), digits);
  }
  /**
   * The list `addPermutation` builds: `list` followed, number by number of
   * `numbers`, by the permutations of that number not in the list by then.
   */
  function WithPermutations(list: seq<string>, numbers: seq<string>): seq<string>
    decreases |numbers|
  {
    if numbers == [] then list
    else WithPermutations(AppendMissing(list, Permutations(numbers[0])), numbers[1..])
  }

  /** `addPermutation` keeps the existing selection, in its order, at the front. */
  lemma {:induction false} WithPermutationsKeepsPrefix(list: seq<string>, numbers: seq<string>)
    ensures |list| <= |WithPermutations(list, numbers)|
    ensures WithPermutations(list, numbers)[..|list|] == list
    decreases |numbers|
  {
    if numbers != [] {
      var next := AppendMissing(list, Permutations(numbers[0]));
      AppendMissingKeepsPrefix(list, Permutations(numbers[0]));
      WithPermutationsKeepsPrefix(next, numbers[1..]);
      var r := WithPermutations(list, numbers);
      assert r[..|list|] == r[..|next|][..|list|];
    }
  }

  /** `addPermutation` never creates a duplicate. */
  lemma {:induction false} WithPermutationsNoDuplicates(list: seq<string>, numbers: seq<string>)
    requires NoDuplicates(list)
    ensures NoDuplicates(WithPermutations(list, numbers))
    decreases |numbers|
  {
    if numbers != [] {
      AppendMissingNoDuplicates(list, Permutations(numbers[0]));
      WithPermutationsNoDuplicates(AppendMissing(list, Permutations(numbers[0])), numbers[1..]);
    }
  }

  /** `addPermutation` adds only arrangements of the numbers it goes through. */
  lemma {:induction false} WithPermutationsSound(list: seq<string>, numbers: seq<string>)
    ensures forall x :: x in WithPermutations(list, numbers) ==>
      x in list || exists t :: 0 <= t < |numbers| && IsArrangementOf(x, numbers[t])
    decreases |numbers|
  {
    if numbers != [] {
      var next := AppendMissing(list, Permutations(numbers[0]));
      WithPermutationsSound(next, numbers[1..]);
      AppendMissingContents(list, Permutations(numbers[0]));
      PermutationsProperties(numbers[0]);
      forall x | x in WithPermutations(list, numbers) && x !in list
        ensures exists t :: 0 <= t < |numbers| && IsArrangementOf(x, numbers[t])
      {
        if x in next {
          assert IsArrangementOf(x, numbers[0]);
        } else {
          var t :| 0 <= t < |numbers[1..]| && IsArrangementOf(x, numbers[1..][t]);
          assert numbers[1..][t] == numbers[t + 1];
        }
      }
    }
  }

  /** `addPermutation` adds every arrangement of every number it goes through. */
  lemma {:induction false} WithPermutationsComplete(list: seq<string>, numbers: seq<string>)
    ensures forall t, i: nat, j: nat, k: nat ::
      0 <= t < |numbers| && DistinctIndices(|numbers[t]|, i, j, k) ==>
        Arrange(numbers[t], i, j, k) in WithPermutations(list, numbers)
    decreases |numbers|
  {
    if numbers != [] {
      var next := AppendMissing(list, Permutations(numbers[0]));
      WithPermutationsComplete(next, numbers[1..]);
      WithPermutationsKeepsPrefix(next, numbers[1..]);
      AppendMissingContents(list, Permutations(numbers[0]));
      PermutationsProperties(numbers[0]);
      var r := WithPermutations(list, numbers);
      forall t, i: nat, j: nat, k: nat | 0 <= t < |numbers| && DistinctIndices(|numbers[t]|, i, j, k)
        ensures Arrange(numbers[t], i, j, k) in r
      {
        if t == 0 {
          assert Arrange(numbers[0], i, j, k) in r[..|next|];
        } else {
          assert numbers[1..][t - 1] == numbers[t];
        }
      }
    }
  }

  /**
   * What `addPermutation` leaves behind when the selection holds no number
   * twice: the old selection at the front, no number twice, after it only
   * arrangements of selected numbers, every arrangement of every selected
   * number, and three-digit numbers only if the selection had only those.
   */
  lemma WithPermutationsProperties(selected: seq<string>)
    requires NoDuplicates(selected)
    ensures |selected| <= |WithPermutations(selected, selected)|
    ensures WithPermutations(selected, selected)[..|selected|] == selected
    ensures NoDuplicates(WithPermutations(selected, selected))
    ensures forall x :: x in WithPermutations(selected, selected)[|selected|..] ==>
      exists t :: 0 <= t < |selected| && IsArrangementOf(x, selected[t])
    ensures forall t, i: nat, j: nat, k: nat ::
      0 <= t < |selected| && DistinctIndices(|selected[t]|, i, j, k) ==>
        Arrange(selected[t], i, j, k) in WithPermutations(selected, selected)
    ensures AllThreeDigit(selected) ==> AllThreeDigit(WithPermutations(selected, selected))
  {
    var r := WithPermutations(selected, selected);
    WithPermutationsKeepsPrefix(selected, selected);
    WithPermutationsNoDuplicates(selected, selected);
    WithPermutationsSound(selected, selected);
    WithPermutationsComplete(selected, selected);
    forall m | |selected| <= m < |r|
      ensures exists t :: 0 <= t < |selected| && IsArrangementOf(r[m], selected[t])
    {
      assert r[m] !in r[..|selected|];
    }
    forall x | x in r[|selected|..]
      ensures exists t :: 0 <= t < |selected| && IsArrangementOf(x, selected[t])
    {
      var m :| |selected| <= m < |r| && r[m] == x;
    }
    if AllThreeDigit(selected) {
      forall m | 0 <= m < |r|
        ensures IsThreeDigitNumber(r[m])
      {
        if m < |selected| {
          assert r[m] == selected[m];
        } else {
          var t :| 0 <= t < |selected| && IsArrangementOf(r[m], selected[t]);
          ArrangementIsThreeDigit(r[m], selected[t]);
        }
      }
    }
  }


  /** `numbers.filter(n => n !== digit)`: every occurrence of `digit` goes, the rest stay. */
  function Without(numbers: seq<string>, digit: string): (r: seq<string>)
    ensures multiset(r) == multiset(numbers)[digit := 0]
    ensures digit !in r
  {
    if numbers == [] then []
    else
      var rest := Without(numbers[1..], digit);
      assert numbers == [numbers[0]] + numbers[1..];
      if numbers[0] == digit then rest else [numbers[0]] + rest
  }

  /** `small` is `big` with some entries left out, the rest in their order. */
  predicate IsSubsequence<T(==)>(small: seq<T>, big: seq<T>)
    decreases |big|
  {
    if small == [] then true
    else if big == [] then false
    else if small[0] == big[0] then IsSubsequence(small[1..], big[1..])
    else IsSubsequence(small, big[1..])
  }

  /** `removeSpecificDigit` keeps the relative order of the numbers it does not remove. */
  lemma {:induction false} WithoutKeepsOrder(numbers: seq<string>, digit: string)
    ensures IsSubsequence(Without(numbers, digit), numbers)
  {
    if numbers != [] {
      WithoutKeepsOrder(numbers[1..], digit);
      if numbers[0] != digit {
        var r := Without(numbers, digit);
        assert r[0] == numbers[0] && r[1..] == Without(numbers[1..], digit);
      }
    }
  }

  /** Removing a number from a duplicate-free selection keeps it duplicate-free and one shorter at most. */
  lemma WithoutShrinks(numbers: seq<string>, digit: string)
    requires NoDuplicates(numbers)
    ensures NoDuplicates(Without(numbers, digit))
    ensures |Without(numbers, digit)| == if digit in numbers then |numbers| - 1 else |numbers|
  {
    var r := Without(numbers, digit);
    MultisetOfDuplicateFree(numbers);
    forall x | x in multiset(r)
      ensures multiset(r)[x] <= 1
    {
    }
    DuplicateFreeFromMultiset(r);
    assert |multiset(r)| == |r|;
    if digit in numbers {
      assert multiset(numbers)[digit] == 1;
      assert multiset(numbers) == multiset(r) + multiset{digit};
    } else {
      assert multiset(numbers)[digit] == 0;
      assert multiset(numbers) == multiset(r);
    }
  }

  lemma {:induction false} MultisetOfDuplicateFree(s: seq<string>)
    requires NoDuplicates(s)
    ensures forall x :: multiset(s)[x] <= 1
  {
    if s != [] {
      MultisetOfDuplicateFree(s[1..]);
      assert s == [s[0]] + s[1..];
      assert s[0] !in s[1..];
    }
  }

  lemma {:induction false} DuplicateFreeFromMultiset(s: seq<string>)
    requires forall x :: multiset(s)[x] <= 1
    ensures NoDuplicates(s)
  {
    if s != [] {
      assert s == [s[0]] + s[1..];
      assert forall x :: multiset(s[1..])[x] <= multiset(s)[x];
      DuplicateFreeFromMultiset(s[1..]);
      assert s[0] !in multiset(s[1..]);
    }
  }

  /**
   * What `parseFloat(amount)` gives: a finite number, an infinity (for
   * "Infinity", "-Infinity" or a literal too large for a double), or NaN.
   */
  datatype ParsedAmount = Number(value: real) | PositiveInfinity | NegativeInfinity | NotANumber

  /** One entry of `amounts`: `{ num, amount: parseFloat(amount) }`. */
  datatype BetEntry = BetEntry(num: string, amount: ParsedAmount)

  datatype ConfirmOutcome = NoNumbersSelected | InvalidAmount | Confirmed(amounts: seq<BetEntry>)

  /**
   * `!amount || parseFloat(amount) <= 0`. A comparison with NaN is false, so an
   * amount that does not parse gets through this check, and so does "Infinity";
   * "-Infinity" is refused.
   */
  predicate AmountRejected(amount: string, parsed: ParsedAmount) {
    amount == "" || (parsed.Number? && parsed.value <= 0.0) || parsed.NegativeInfinity?
  }

  /**
   * `goToConfirm`: an empty selection is refused first, then a rejected amount;
   * otherwise every selected number, in order, becomes one bet entry carrying
   * the parsed amount.
   */
  function GoToConfirm(selected: seq<string>, amount: string, parsed: ParsedAmount): (o: ConfirmOutcome)
    ensures o == NoNumbersSelected <==> selected == []
    ensures o == InvalidAmount <==> selected != [] && AmountRejected(amount, parsed)
    ensures o.Confirmed? <==> selected != [] && !AmountRejected(amount, parsed)
    ensures selected != [] && amount != "" && (parsed.NotANumber? || parsed.PositiveInfinity?) ==> o.Confirmed?
    ensures o.Confirmed? ==>
      && |o.amounts| == |selected|
      && forall i :: 0 <= i < |selected| ==> o.amounts[i].num == selected[i] && o.amounts[i].amount == parsed
  {
    if |selected| == 0 then NoNumbersSelected
    else if AmountRejected(amount, parsed) then InvalidAmount
    else Confirmed(seq(|selected|, i requires 0 <= i < |selected| => BetEntry(selected[i], parsed)))
  }

  /** What `addPermutation` reports: nothing selected, or how many numbers it added. */
  datatype PermutationOutcome = NothingSelected | PermutationsAdded(count: nat)

  /** The page's selection state. */
  class SelectionPage {
    var selectedDigits: seq<string>
    var digitInput: string
    var amount: string
    var permutationAmount: string

    /** The selection never holds a number twice. */
    ghost predicate Valid()
      reads this
    {
      NoDuplicates(selectedDigits)
    }

    constructor ()
      ensures Valid()
      ensures selectedDigits == [] && digitInput == "" && amount == "" && permutationAmount == ""
    {
      selectedDigits := [];
      digitInput := "";
      amount := "";
      permutationAmount := "";
    }

    /**
     * `chooseNumber`: a blank input, an input that is not three digits after
     * trimming, or a number already selected is refused with nothing changed;
     * otherwise the trimmed number goes at the end and the input is cleared.
     */
    method ChooseNumber() returns (outcome: ChooseOutcome)
      requires Valid()
      modifies this`selectedDigits, this`digitInput
      ensures Valid()
      ensures outcome == CheckChoice(old(selectedDigits), old(digitInput))
      ensures outcome.Chosen? ==> selectedDigits == old(selectedDigits) + [outcome.number] && digitInput == ""
      ensures !outcome.Chosen? ==> selectedDigits == old(selectedDigits) && digitInput == old(digitInput)
      ensures AllThreeDigit(old(selectedDigits)) ==> AllThreeDigit(selectedDigits)
    {
      outcome := CheckChoice(selectedDigits, digitInput);
      if outcome.Chosen? {
        selectedDigits := selectedDigits + [outcome.number];
        digitInput := "";
      }
    }

    /** `removeNumber`: the selection and both amount fields are cleared. */
    method RemoveNumber()
      modifies this`selectedDigits, this`amount, this`permutationAmount
      ensures Valid()
      ensures selectedDigits == [] && amount == "" && permutationAmount == ""
    {
      selectedDigits := [];
      amount := "";
      permutationAmount := "";
    }

    /** `removeSpecificDigit`: every occurrence of `digit` leaves the selection. */
    method RemoveSpecificDigit(digit: string)
      requires Valid()
      modifies this`selectedDigits
      ensures Valid()
      ensures selectedDigits == Without(old(selectedDigits), digit)
      ensures |selectedDigits| <= |old(selectedDigits)|
    {
      WithoutShrinks(selectedDigits, digit);
      selectedDigits := Without(selectedDigits, digit);
    }

    /**
     * `addDigits`: each number of `digits` not yet in the list is pushed onto a
     * copy of the selection, which then replaces it. Returns the count the
     * toast announces, which is the length of `digits`, not the number added.
     */
    method AddDigits(digits: seq<string>) returns (announced: nat)
      requires Valid()
      modifies this`selectedDigits
      ensures Valid()
      ensures selectedDigits == AppendMissing(old(selectedDigits), digits)
      ensures announced == |digits|
    {
      var selected := selectedDigits;
      var newDigits := selected;
      for i := 0 to |digits|
        invariant AppendMissing(selected, digits) == AppendMissing(newDigits, digits[i..])
      {
        assert digits[i..] == [digits[i]] + digits[i + 1..];
        AppendMissingFront(newDigits, digits[i], digits[i + 1..]);
        if digits[i] !in newDigits {
          newDigits := newDigits + [digits[i]];
        }
      }
      assert digits[|digits|..] == [];
      AppendMissingNoDuplicates(selected, digits);
      selectedDigits := newDigits;
      announced := |digits|;
    }

    /**
     * `addPermutation`: with nothing selected it only complains. Otherwise, for
     * each selected number, each of its arrangements not yet in the list is
     * pushed onto a copy of the selection. The old selection stays the prefix,
     * every added number is an arrangement of a selected one, every
     * arrangement of a selected number ends up in the list, and no number
     * appears twice.
     */
    method AddPermutation() returns (outcome: PermutationOutcome)
      requires Valid()
      modifies this`selectedDigits
      ensures Valid()
      ensures selectedDigits == WithPermutations(old(selectedDigits), old(selectedDigits))
      ensures |old(selectedDigits)| <= |selectedDigits|
      ensures old(selectedDigits) == [] ==> outcome == NothingSelected
      ensures old(selectedDigits) != [] ==> outcome == PermutationsAdded(|selectedDigits| - |old(selectedDigits)|)
    {
      var selected := selectedDigits;
      if |selected| == 0 {
        return NothingSelected;
      }
      var newDigits := selected;
      for t := 0 to |selected|
        invariant WithPermutations(newDigits, selected[t..]) == WithPermutations(selected, selected)
      {
        var perms := GeneratePermutations(selected[t]);
        ghost var before := newDigits;
        for v := 0 to |perms|
          invariant AppendMissing(before, perms) == AppendMissing(newDigits, perms[v..])
        {
          assert perms[v..] == [perms[v]] + perms[v + 1..];
          AppendMissingFront(newDigits, perms[v], perms[v + 1..]);
          if perms[v] !in newDigits {
            newDigits := newDigits + [perms[v]];
          }
        }
        assert perms[|perms|..] == [];
        assert selected[t..][1..] == selected[t + 1..];
      }
      assert selected[|selected|..] == [];
      WithPermutationsProperties(selected);
      selectedDigits := newDigits;
      outcome := PermutationsAdded(|newDigits| - |selected|);
    }
  }
}
