/**
 * The quick-select panel of the 3D page: the 28 "break" groups of 000..999 by
 * digit sum, built by a loop, the constant tables of ready-made number lists,
 * and the hand-over of a chosen list to the page.
 */
module ThreeDChooseOption {
  import opened JsRuntime

  /** `{ name, numbers }`: a labelled list of three-digit numbers. */
  datatype NumberGroup = NumberGroup(name: string, numbers: seq<string>)

  /** `parseInt` of a three-digit string. */
  function NumberValue(s: string): (v: nat)
    requires IsThreeDigitNumber(s)
    ensures v < 1000
  {
    100 * DigitValue(s[0]) + 10 * DigitValue(s[1]) + DigitValue(s[2])
  }

  /** Two three-digit strings with the same value are the same string. */
  lemma NumberValueInjective(x: string, y: string)
    requires IsThreeDigitNumber(x) && IsThreeDigitNumber(y) && NumberValue(x) == NumberValue(y)
    ensures x == y
  {
    assert x[0] == y[0] && x[1] == y[1] && x[2] == y[2];
    assert x == [x[0], x[1], x[2]] && y == [y[0], y[1], y[2]];
  }

  /** The three digit characters of `n`, hundreds first. */
  function ThreeDigits(n: nat): string
    requires n < 1000
  {
    [DigitChar(n / 100), DigitChar(n / 10 % 10), DigitChar(n % 10)]
  }

  /** Hundreds, tens and units put back together give the number. */
  lemma DigitsRecombine(n: nat)
    requires n < 1000
    ensures 100 * (n / 100) + 10 * (n / 10 % 10) + n % 10 == n
  {
    var q := n / 10;
    assert n == 10 * q + n % 10;
    assert q / 10 == n / 100;
    assert q == 10 * (q / 10) + q % 10;
  }

  /** Three digits read as a number split back into the same digits. */
  lemma DigitsSplit(a: nat, b: nat, c: nat)
    requires a < 10 && b < 10 && c < 10
    ensures (100 * a + 10 * b + c) / 100 == a
    ensures (100 * a + 10 * b + c) / 10 % 10 == b
    ensures (100 * a + 10 * b + c) % 10 == c
  {
    var n := 100 * a + 10 * b + c;
    assert n / 10 == 10 * a + b;
  }

  /** `n.toString().padStart(3, '0')` is the three digit characters of `n`. */
  lemma PaddedDecimal(n: nat)
    requires n < 1000
    ensures PadStart(ToDecimal(n), 3, '0') == ThreeDigits(n)
  {
    if n < 10 {
      assert ToDecimal(n) == [DigitChar(n)];
      assert DigitChar(0) == '0';
    } else if n < 100 {
      assert ToDecimal(n / 10) == [DigitChar(n / 10)];
      assert DigitChar(0) == '0';
    } else {
      assert n / 10 / 10 == n / 100;
      assert ToDecimal(n / 10) == [DigitChar(n / 100), DigitChar(n / 10 % 10)];
    }
  }

  /** `i.toString().padStart(3, '0')` for `0 <= i <= 999`: the three-digit label of `i`. */
  function Pad3(n: nat): (s: string)
    requires n < 1000
    ensures s == ThreeDigits(n)
    ensures IsThreeDigitNumber(s) && NumberValue(s) == n
  {
    PaddedDecimal(n);
    DigitsRecombine(n);
    PadStart(ToDecimal(n), 3, '0')
  }

  /** Every three-digit string is the label of its own value. */
  lemma Pad3OfValue(x: string)
    requires IsThreeDigitNumber(x)
    ensures Pad3(NumberValue(x)) == x
  {
    NumberValueInjective(Pad3(NumberValue(x)), x);
  }

  /** `num.split('').reduce((acc, digit) => acc + parseInt(digit), 0)`. */
  function SumOfDigits(s: string): (r: int)
    ensures (forall i :: 0 <= i < |s| ==> IsDigit(s[i])) ==> 0 <= r <= 9 * |s|
  {
    if s == [] then 0
    else
      assert forall i :: 0 <= i < |s| - 1 ==> s[..|s| - 1][i] == s[i];
      SumOfDigits(s[..|s| - 1]) + DigitValue(s[|s| - 1])
  }

  /** The digit sum of `n`, written arithmetically. */
  function DigitSum(n: nat): (r: nat)
    requires n < 1000
    ensures r <= 27
  {
    n / 100 + n / 10 % 10 + n % 10
  }

  /** The reduce over a three-digit string adds its three digits. */
  lemma SumOfThreeDigits(x: string)
    requires IsThreeDigitNumber(x)
    ensures SumOfDigits(x) == DigitValue(x[0]) + DigitValue(x[1]) + DigitValue(x[2])
    ensures SumOfDigits(x) == DigitSum(NumberValue(x))
  {
    var a, b, c := x[0], x[1], x[2];
    assert [a][..0] == [];
    assert SumOfDigits([a]) == DigitValue(a);
    assert [a, b][..1] == [a];
    assert SumOfDigits([a, b]) == DigitValue(a) + DigitValue(b);
    assert x[..2] == [a, b];
    assert SumOfDigits(x) == SumOfDigits([a, b]) + DigitValue(c);
    DigitsSplit(DigitValue(a), DigitValue(b), DigitValue(c));
  }

  /** Counting up by one raises the digit sum by one at most. */
  lemma DigitSumStep(n: nat)
    requires 0 < n < 1000
    ensures DigitSum(n) <= DigitSum(n - 1) + 1
  {
    var m := n - 1;
    var a, b, c := m / 100, m / 10 % 10, m % 10;
    DigitsRecombine(m);
    DigitsSplit(a, b, c);
    if c < 9 {
      DigitsSplit(a, b, c + 1);
    } else if b < 9 {
      DigitsSplit(a, b + 1, 0);
    } else {
      DigitsSplit(a + 1, 0, 0);
    }
  }

  /** The template `Break ${sum}`. */
  function BreakName(sum: nat): (name: string)
    ensures |name| > 6 && name[..6] == "Break "
  {
    "Break " + ToDecimal(sum)
  }

  lemma BreakNameInjective(a: nat, b: nat)
    requires BreakName(a) == BreakName(b)
    ensures a == b
  {
    assert BreakName(a)[6..] == ToDecimal(a);
    assert BreakName(b)[6..] == ToDecimal(b);
    ToDecimalInjective(a, b);
  }

  /** The decimal number after `Break ` reads back as the sum it was built from. */
  lemma BreakNameSuffix(name: string)
    ensures forall sum: nat :: name == BreakName(sum) ==> |name| >= 6 && ParseDecimal(name[6..]) == sum
  {
    forall sum: nat | name == BreakName(sum)
      ensures |name| >= 6 && ParseDecimal(name[6..]) == sum
    {
      assert name[6..] == ToDecimal(sum);
      ParseDecimalOfToDecimal(sum);
    }
  }

  /**
   * The sort key `parseInt(name.split(' ')[1])` for a name made of one word, one
   * space and a decimal number, which is the only kind this component builds:
   * the key of `Break ${sum}` is `sum`.
   */
  function BreakNumber(name: string): (n: nat)
    ensures forall sum: nat :: name == BreakName(sum) ==> n == sum
  {
    BreakNameSuffix(name);
    if |name| >= 6 then ParseDecimal(name[6..]) else 0
  }

  /**
   * `groups.find(g => g.name === name)`: the first group with that name, if any.
   */
  method FindGroup(groups: seq<NumberGroup>, name: string) returns (found: Option<nat>)
    ensures found.Some? ==>
      && found.value < |groups|
      && groups[found.value].name == name
      && forall k :: 0 <= k < found.value ==> groups[k].name != name
    ensures found.None? ==> forall k :: 0 <= k < |groups| ==> groups[k].name != name
  {
    for k := 0 to |groups|
      invariant forall m :: 0 <= m < k ==> groups[m].name != name
    {
      if groups[k].name == name {
        return Some(k);
      }
    }
    return None;
  }

  /**
   * The labels of the numbers below `bound` whose digits add up to `sum`, in
   * counting order: what the group of `sum` holds once the loop has passed
   * `bound`.
   */
  function NumbersWithSum(sum: nat, bound: nat): (r: seq<string>)
    requires bound <= 1000
    ensures forall i :: 0 <= i < |r| ==> IsThreeDigitNumber(r[i]) && NumberValue(r[i]) < bound
    ensures forall i, j :: 0 <= i < j < |r| ==> NumberValue(r[i]) < NumberValue(r[j])
  {
    if bound == 0 then []
    else
      var prior := NumbersWithSum(sum, bound - 1);
      if DigitSum(bound - 1) == sum then prior + [Pad3(bound - 1)] else prior
  }

  /** The 28 groups `Break 0` .. `Break 27`, each with its numbers in counting order. */
  function BreakTable(): (t: seq<NumberGroup>)
    ensures |t| == 28
  {
    seq(28, sum requires 0 <= sum < 28 => NumberGroup(BreakName(sum), NumbersWithSum(sum, 1000)))
  }

  /** Every group's sort key is larger than the one before. */
  predicate StrictlyAscending(groups: seq<NumberGroup>) {
    forall i, j :: 0 <= i < j < |groups| ==> BreakNumber(groups[i].name) < BreakNumber(groups[j].name)
  }

  /** What the comparator `aNum - bNum` asks of a sorted result. */
  predicate Ascending(groups: seq<NumberGroup>) {
    forall i, j :: 0 <= i < j < |groups| ==> BreakNumber(groups[i].name) <= BreakNumber(groups[j].name)
  }

  /**
   * `generateBreakGroups`. For each `i` from 0 to 999 the label and its digit
   * sum are computed, the group of that sum is looked up by name and created
   * at the end when missing, and the label is pushed onto it. Sums first occur
   * in increasing order, so the groups come out as `Break 0` .. `Break 27` and
   * the closing sort by break number finds them already in order (see
   * `SortedArrangementUnique`).
   */
  method GenerateBreakGroups() returns (groups: seq<NumberGroup>)
    ensures groups == BreakTable()
    ensures StrictlyAscending(groups)
  {
    groups := [];
    for i := 0 to 1000
      invariant GroupsBuiltBelow(groups, i)
    {
      ghost var before := groups;
      var num := Pad3(i);
      var sum := SumOfDigits(num);
      SumOfThreeDigits(num);
      NextSumAtMostGroupCount(groups, i);
      var name := BreakName(sum);
      var found := FindGroup(groups, name);
      match found
      case None =>
        forall k | 0 <= k < |groups|
          ensures BreakName(k) != name
        {
          assert groups[k].name == BreakName(k);
        }
        // the new group is created empty and `num` is pushed onto it at once
        groups := groups + [NumberGroup(name, [num])];
        StartGroup(before, i);
      case Some(index) =>
        BreakNameInjective(index, sum);
        groups := groups[index := groups[index].(numbers := groups[index].numbers + [num])];
        ExtendGroup(before, i);
    }
    BreakGroupsComplete(groups);
  }

  /** The loop invariant: the groups of the sums seen below `bound`, in order of sum. */
  ghost predicate GroupsBuiltBelow(groups: seq<NumberGroup>, bound: nat)
    requires bound <= 1000
  {
    && |groups| <= 28
    && (forall s :: 0 <= s < |groups| ==> groups[s] == NumberGroup(BreakName(s), NumbersWithSum(s, bound)))
    && (forall n :: 0 <= n < bound ==> DigitSum(n) < |groups|)
  }

  /** The next number's sum is one that has a group already, or the next one. */
  lemma NextSumAtMostGroupCount(groups: seq<NumberGroup>, i: nat)
    requires i < 1000 && GroupsBuiltBelow(groups, i)
    ensures DigitSum(i) <= |groups|
  {
    if i > 0 {
      DigitSumStep(i);
      assert DigitSum(i - 1) < |groups|;
    }
  }

  /** After the last number the groups are `Break 0` .. `Break 27`, in order. */
  lemma BreakGroupsComplete(groups: seq<NumberGroup>)
    requires GroupsBuiltBelow(groups, 1000)
    ensures groups == BreakTable()
    ensures StrictlyAscending(groups)
  {
    assert DigitSum(999) < |groups|;
    forall s | 0 <= s < 28
      ensures groups[s] == BreakTable()[s]
    {
    }
    forall i, j | 0 <= i < j < |groups|
      ensures BreakNumber(groups[i].name) < BreakNumber(groups[j].name)
    {
      assert groups[i].name == BreakName(i) && groups[j].name == BreakName(j);
    }
  }

  /** A number whose sum already has a group is pushed onto that group. */
  lemma ExtendGroup(groups: seq<NumberGroup>, i: nat)
    requires i < 1000 && GroupsBuiltBelow(groups, i) && DigitSum(i) < |groups|
    ensures GroupsBuiltBelow(groups[DigitSum(i) := groups[DigitSum(i)].(numbers := groups[DigitSum(i)].numbers + [Pad3(i)])], i + 1)
  {
    var t := DigitSum(i);
    var extended := groups[t := groups[t].(numbers := groups[t].numbers + [Pad3(i)])];
    forall s | 0 <= s < |extended|
      ensures extended[s] == NumberGroup(BreakName(s), NumbersWithSum(s, i + 1))
    {
      assert NumbersWithSum(s, i + 1) == if t == s then NumbersWithSum(s, i) + [Pad3(i)] else NumbersWithSum(s, i);
    }
  }

  /** A number with a new sum opens the next group. */
  lemma StartGroup(groups: seq<NumberGroup>, i: nat)
    requires i < 1000 && GroupsBuiltBelow(groups, i) && DigitSum(i) == |groups|
    ensures GroupsBuiltBelow(groups + [NumberGroup(BreakName(DigitSum(i)), [Pad3(i)])], i + 1)
  {
    var t := DigitSum(i);
    NoEarlierNumbers(t, i);
    var grown := groups + [NumberGroup(BreakName(t), [Pad3(i)])];
    forall s | 0 <= s < |groups|
      ensures grown[s] == NumberGroup(BreakName(s), NumbersWithSum(s, i + 1))
    {
      assert grown[s] == groups[s] && NumbersWithSum(s, i + 1) == NumbersWithSum(s, i);
    }
    assert NumbersWithSum(t, i + 1) == [Pad3(i)];
  }

  /** A sum no number below `bound` has yet has an empty group. */
  lemma {:induction false} NoEarlierNumbers(sum: nat, bound: nat)
    requires bound <= 1000
    requires forall n :: 0 <= n < bound ==> DigitSum(n) != sum
    ensures NumbersWithSum(sum, bound) == []
  {
    if bound > 0 {
      NoEarlierNumbers(sum, bound - 1);
    }
  }

  /**
   * A sorted result of the comparator holding exactly the same groups as a
   * strictly ascending list is that list: the sort at the end of
   * `generateBreakGroups` leaves the groups where they are.
   */
  lemma {:induction false} SortedArrangementUnique(a: seq<NumberGroup>, b: seq<NumberGroup>)
    requires StrictlyAscending(a) && Ascending(b) && multiset(a) == multiset(b)
    ensures a == b
  {
    if a == [] {
      assert |b| == |multiset(b)| == 0;
    } else {
      FirstGroupsAgree(a, b);
      SameTails(a, b);
      SortedArrangementUnique(a[1..], b[1..]);
    }
  }

  /** Two lists with the same first entry and the same entries hold the same entries after the first. */
  lemma SameTails(a: seq<NumberGroup>, b: seq<NumberGroup>)
    requires a != [] && b != [] && a[0] == b[0] && multiset(a) == multiset(b)
    ensures multiset(a[1..]) == multiset(b[1..])
  {
    assert a == [a[0]] + a[1..] && b == [b[0]] + b[1..];
    assert multiset(a[1..]) == multiset(a) - multiset{a[0]};
    assert multiset(b[1..]) == multiset(b) - multiset{b[0]};
  }

  /** The group with the smallest key comes first in both lists. */
  lemma FirstGroupsAgree(a: seq<NumberGroup>, b: seq<NumberGroup>)
    requires StrictlyAscending(a) && Ascending(b) && multiset(a) == multiset(b) && a != []
    ensures b != [] && a[0] == b[0]
  {
    assert a[0] in multiset(b);
    var j :| 0 <= j < |b| && b[j] == a[0];
    assert b[0] in multiset(a);
    var i :| 0 <= i < |a| && a[i] == b[0];
    assert BreakNumber(b[0].name) <= BreakNumber(a[0].name) by {
      if j > 0 {
        assert BreakNumber(b[0].name) <= BreakNumber(b[j].name);
      }
    }
    assert forall k :: 0 < k < |a| ==> BreakNumber(a[0].name) < BreakNumber(a[k].name);
  }

  /** A label is in the group of `sum` built up to `bound` exactly when its value is below `bound` and its digits add up to `sum`. */
  lemma {:induction false} NumbersWithSumMembers(sum: nat, bound: nat, x: string)
    requires bound <= 1000
    ensures x in NumbersWithSum(sum, bound) <==>
      IsThreeDigitNumber(x) && NumberValue(x) < bound && SumOfDigits(x) == sum
  {
    if bound > 0 {
      NumbersWithSumMembers(sum, bound - 1, x);
      var n := bound - 1;
      SumOfThreeDigits(Pad3(n));
      if IsThreeDigitNumber(x) {
        SumOfThreeDigits(x);
        if NumberValue(x) == n {
          Pad3OfValue(x);
        }
      }
    }
  }

  /**
   * Every three-digit number lies in exactly one break group: the group whose
   * break number is its digit sum.
   */
  lemma EachNumberInOneBreakGroup(x: string)
    requires IsThreeDigitNumber(x)
    ensures 0 <= SumOfDigits(x) < 28
    ensures forall s :: 0 <= s < 28 ==> (x in BreakTable()[s].numbers <==> s == SumOfDigits(x))
  {
    SumOfThreeDigits(x);
    forall s | 0 <= s < 28
      ensures x in BreakTable()[s].numbers <==> s == SumOfDigits(x)
    {
      NumbersWithSumMembers(s, 1000, x);
    }
  }

  /** Every number of group `Break s` has digit sum `s`, and the group is in ascending numeric order. */
  lemma BreakGroupContents(s: nat)
    requires s < 28
    ensures BreakTable()[s].name == BreakName(s)
    ensures forall x :: x in BreakTable()[s].numbers ==> IsThreeDigitNumber(x) && SumOfDigits(x) == s
    ensures forall i, j :: 0 <= i < j < |BreakTable()[s].numbers| ==>
      NumberValue(BreakTable()[s].numbers[i]) < NumberValue(BreakTable()[s].numbers[j])
  {
    forall x | x in BreakTable()[s].numbers
      ensures IsThreeDigitNumber(x) && SumOfDigits(x) == s
    {
      NumbersWithSumMembers(s, 1000, x);
    }
  }

  /** The total number of entries over a list of groups. */
  function GroupSizes(groups: seq<NumberGroup>): nat {
    if groups == [] then 0 else GroupSizes(groups[..|groups| - 1]) + |groups[|groups| - 1].numbers|
  }

  /** One more entry in one group is one more entry in total. */
  lemma {:induction false} GroupSizesGrow(a: seq<NumberGroup>, c: seq<NumberGroup>, t: nat)
    requires |a| == |c| && t < |a|
    requires forall s :: 0 <= s < |a| && s != t ==> |c[s].numbers| == |a[s].numbers|
    requires |c[t].numbers| == |a[t].numbers| + 1
    ensures GroupSizes(c) == GroupSizes(a) + 1
  {
    var n := |a| - 1;
    if t < n {
      GroupSizesGrow(a[..n], c[..n], t);
    } else {
      GroupSizesSame(a[..n], c[..n]);
    }
  }

  lemma {:induction false} GroupSizesSame(a: seq<NumberGroup>, c: seq<NumberGroup>)
    requires |a| == |c|
    requires forall s :: 0 <= s < |a| ==> |c[s].numbers| == |a[s].numbers|
    ensures GroupSizes(c) == GroupSizes(a)
  {
    if a != [] {
      GroupSizesSame(a[..|a| - 1], c[..|c| - 1]);
    }
  }

  /** The 28 groups as they stand once the loop has passed `bound`. */
  function BreakGroupsBelow(bound: nat): (t: seq<NumberGroup>)
    requires bound <= 1000
    ensures |t| == 28
  {
    seq(28, sum requires 0 <= sum < 28 => NumberGroup(BreakName(sum), NumbersWithSum(sum, bound)))
  }

  lemma {:induction false} BreakGroupsBelowSize(bound: nat)
    requires bound <= 1000
    ensures GroupSizes(BreakGroupsBelow(bound)) == bound
  {
    if bound == 0 {
      GroupSizesZero(BreakGroupsBelow(0));
    } else {
      BreakGroupsBelowSize(bound - 1);
      GroupSizesGrow(BreakGroupsBelow(bound - 1), BreakGroupsBelow(bound), DigitSum(bound - 1));
    }
  }

  lemma {:induction false} GroupSizesZero(a: seq<NumberGroup>)
    requires forall s :: 0 <= s < |a| ==> a[s].numbers == []
    ensures GroupSizes(a) == 0
  {
    if a != [] {
      GroupSizesZero(a[..|a| - 1]);
    }
  }

  /** The break groups hold 1000 numbers between them. */
  lemma BreakGroupsHoldAllNumbers()
    ensures GroupSizes(BreakTable()) == 1000
  {
    BreakGroupsBelowSize(1000);
    assert BreakTable() == BreakGroupsBelow(1000);
  }

  /** `row` lists three-digit numbers going up from `first` in steps of `step`. */
  predicate Progression(row: seq<string>, first: int, step: int) {
    forall j :: 0 <= j < |row| ==> IsThreeDigitNumber(row[j]) && NumberValue(row[j]) == first + step * j
  }

  /** Ten entries checked one by one make a progression. */
  lemma TenStep(row: seq<string>, first: int, step: int)
    requires |row| == 10
    requires IsThreeDigitNumber(row[0]) && NumberValue(row[0]) == first + step * 0
    requires IsThreeDigitNumber(row[1]) && NumberValue(row[1]) == first + step * 1
    requires IsThreeDigitNumber(row[2]) && NumberValue(row[2]) == first + step * 2
    requires IsThreeDigitNumber(row[3]) && NumberValue(row[3]) == first + step * 3
    requires IsThreeDigitNumber(row[4]) && NumberValue(row[4]) == first + step * 4
    requires IsThreeDigitNumber(row[5]) && NumberValue(row[5]) == first + step * 5
    requires IsThreeDigitNumber(row[6]) && NumberValue(row[6]) == first + step * 6
    requires IsThreeDigitNumber(row[7]) && NumberValue(row[7]) == first + step * 7
    requires IsThreeDigitNumber(row[8]) && NumberValue(row[8]) == first + step * 8
    requires IsThreeDigitNumber(row[9]) && NumberValue(row[9]) == first + step * 9
    ensures Progression(row, first, step)
  {
    forall j | 0 <= j < 10
      ensures IsThreeDigitNumber(row[j]) && NumberValue(row[j]) == first + step * j
    {
      if j < 5 {
        assert j == 0 || j == 1 || j == 2 || j == 3 || j == 4;
      } else {
        assert j == 5 || j == 6 || j == 7 || j == 8 || j == 9;
      }
    }
  }

  /** The entry of a progression at position `j` is the only three-digit number with its value. */
  lemma ProgressionAt(row: seq<string>, first: int, step: int, x: string, j: nat)
    requires Progression(row, first, step) && j < |row|
    requires IsThreeDigitNumber(x) && NumberValue(x) == first + step * j
    ensures x == row[j] && x in row
  {
    NumberValueInjective(row[j], x);
  }

  /** `singleNumbers`, written here in rows of ten. */
  const SingleNumbers: seq<string> :=
    ["001", "003", "005", "007", "009", "011", "013", "015", "017", "019"] +
    ["021", "023", "025", "027", "029", "031", "033", "035", "037", "039"] +
    ["041", "043", "045", "047", "049", "051", "053", "055", "057", "059"] +
    ["061", "063", "065", "067", "069", "071", "073", "075", "077", "079"] +
    ["081", "083", "085", "087", "089", "091", "093", "095", "097", "099"]

  /** `doubleNumbers`, written here in rows of ten. */
  const DoubleNumbers: seq<string> :=
    ["000", "002", "004", "006", "008", "010", "012", "014", "016", "018"] +
    ["020", "022", "024", "026", "028", "030", "032", "034", "036", "038"] +
    ["040", "042", "044", "046", "048", "050", "052", "054", "056", "058"] +
    ["060", "062", "064", "066", "068", "070", "072", "074", "076", "078"] +
    ["080", "082", "084", "086", "088", "090", "092", "094", "096", "098"]

  const FrontNumbers: seq<NumberGroup> := [
    NumberGroup("Front 0", ["000", "001", "002", "003", "004", "005", "006", "007", "008", "009"]),
    NumberGroup("Front 1", ["100", "101", "102", "103", "104", "105", "106", "107", "108", "109"]),
    NumberGroup("Front 2", ["200", "201", "202", "203", "204", "205", "206", "207", "208", "209"]),
    NumberGroup("Front 3", ["300", "301", "302", "303", "304", "305", "306", "307", "308", "309"]),
    NumberGroup("Front 4", ["400", "401", "402", "403", "404", "405", "406", "407", "408", "409"]),
    NumberGroup("Front 5", ["500", "501", "502", "503", "504", "505", "506", "507", "508", "509"]),
    NumberGroup("Front 6", ["600", "601", "602", "603", "604", "605", "606", "607", "608", "609"]),
    NumberGroup("Front 7", ["700", "701", "702", "703", "704", "705", "706", "707", "708", "709"]),
    NumberGroup("Front 8", ["800", "801", "802", "803", "804", "805", "806", "807", "808", "809"]),
    NumberGroup("Front 9", ["900", "901", "902", "903", "904", "905", "906", "907", "908", "909"])
  ]

  const BackNumbers: seq<NumberGroup> := [
    NumberGroup("Back 0", ["000", "100", "200", "300", "400", "500", "600", "700", "800", "900"]),
    NumberGroup("Back 1", ["001", "101", "201", "301", "401", "501", "601", "701", "801", "901"]),
    NumberGroup("Back 2", ["002", "102", "202", "302", "402", "502", "602", "702", "802", "902"]),
    NumberGroup("Back 3", ["003", "103", "203", "303", "403", "503", "603", "703", "803", "903"]),
    NumberGroup("Back 4", ["004", "104", "204", "304", "404", "504", "604", "704", "804", "904"]),
    NumberGroup("Back 5", ["005", "105", "205", "305", "405", "505", "605", "705", "805", "905"]),
    NumberGroup("Back 6", ["006", "106", "206", "306", "406", "506", "606", "706", "806", "906"]),
    NumberGroup("Back 7", ["007", "107", "207", "307", "407", "507", "607", "707", "807", "907"]),
    NumberGroup("Back 8", ["008", "108", "208", "308", "408", "508", "608", "708", "808", "908"]),
    NumberGroup("Back 9", ["009", "109", "209", "309", "409", "509", "609", "709", "809", "909"])
  ]

  const PowerNumbers: seq<string> := ["000", "111", "222", "333", "444", "555", "666", "777", "888", "999"]

  const TwentyNumbers: seq<string> :=
    ["000", "001", "002", "003", "004", "005", "006", "007", "008", "009"] +
    ["010", "011", "012", "013", "014", "015", "016", "017", "018", "019"]

  lemma SingleNumbersAreOddBelow100Rows0()
    ensures Progression(SingleNumbers[0..10], 1, 2) && Progression(SingleNumbers[10..20], 21, 2)
  {
    TenStep(SingleNumbers[0..10], 1, 2);
    TenStep(SingleNumbers[10..20], 21, 2);
  }

  lemma SingleNumbersAreOddBelow100Rows1()
    ensures Progression(SingleNumbers[20..30], 41, 2) && Progression(SingleNumbers[30..40], 61, 2)
  {
    TenStep(SingleNumbers[20..30], 41, 2);
    TenStep(SingleNumbers[30..40], 61, 2);
  }

  lemma SingleNumbersAreOddBelow100Rows2()
    ensures Progression(SingleNumbers[40..50], 81, 2)
  {
    TenStep(SingleNumbers[40..50], 81, 2);
  }

  /** `singleNumbers` are the fifty odd numbers 001 .. 099, ascending. */
  lemma SingleNumbersAreOddBelow100()
    ensures |SingleNumbers| == 50 && Progression(SingleNumbers, 1, 2)
  {
    SingleNumbersAreOddBelow100Rows0();
    SingleNumbersAreOddBelow100Rows1();
    SingleNumbersAreOddBelow100Rows2();
    forall j | 0 <= j < 50
      ensures IsThreeDigitNumber(SingleNumbers[j]) && NumberValue(SingleNumbers[j]) == 1 + 2 * j
    {
      if j < 10 {
        assert SingleNumbers[j] == SingleNumbers[0..10][j - 0];
      } else if j < 20 {
        assert SingleNumbers[j] == SingleNumbers[10..20][j - 10];
      } else if j < 30 {
        assert SingleNumbers[j] == SingleNumbers[20..30][j - 20];
      } else if j < 40 {
        assert SingleNumbers[j] == SingleNumbers[30..40][j - 30];
      } else {
        assert SingleNumbers[j] == SingleNumbers[40..50][j - 40];
      }
    }
  }

  lemma DoubleNumbersAreEvenBelow100Rows0()
    ensures Progression(DoubleNumbers[0..10], 0, 2) && Progression(DoubleNumbers[10..20], 20, 2)
  {
    TenStep(DoubleNumbers[0..10], 0, 2);
    TenStep(DoubleNumbers[10..20], 20, 2);
  }

  lemma DoubleNumbersAreEvenBelow100Rows1()
    ensures Progression(DoubleNumbers[20..30], 40, 2) && Progression(DoubleNumbers[30..40], 60, 2)
  {
    TenStep(DoubleNumbers[20..30], 40, 2);
    TenStep(DoubleNumbers[30..40], 60, 2);
  }

  lemma DoubleNumbersAreEvenBelow100Rows2()
    ensures Progression(DoubleNumbers[40..50], 80, 2)
  {
    TenStep(DoubleNumbers[40..50], 80, 2);
  }

  /** `doubleNumbers` are the fifty even numbers 000 .. 098, ascending. */
  lemma DoubleNumbersAreEvenBelow100()
    ensures |DoubleNumbers| == 50 && Progression(DoubleNumbers, 0, 2)
  {
    DoubleNumbersAreEvenBelow100Rows0();
    DoubleNumbersAreEvenBelow100Rows1();
    DoubleNumbersAreEvenBelow100Rows2();
    forall j | 0 <= j < 50
      ensures IsThreeDigitNumber(DoubleNumbers[j]) && NumberValue(DoubleNumbers[j]) == 0 + 2 * j
    {
      if j < 10 {
        assert DoubleNumbers[j] == DoubleNumbers[0..10][j - 0];
      } else if j < 20 {
        assert DoubleNumbers[j] == DoubleNumbers[10..20][j - 10];
      } else if j < 30 {
        assert DoubleNumbers[j] == DoubleNumbers[20..30][j - 20];
      } else if j < 40 {
        assert DoubleNumbers[j] == DoubleNumbers[30..40][j - 30];
      } else {
        assert DoubleNumbers[j] == DoubleNumbers[40..50][j - 40];
      }
    }
  }

  /**
   * In fifty three-digit numbers counting up by two from `first` (0 or 1), a
   * three-digit number occurs exactly when it is below 100 and has the parity of `first`.
   */
  lemma StepTwoMembers(row: seq<string>, first: nat, x: string)
    requires first < 2 && |row| == 50 && Progression(row, first, 2) && IsThreeDigitNumber(x)
    ensures x in row <==> NumberValue(x) < 100 && NumberValue(x) % 2 == first
  {
    var v := NumberValue(x);
    if x in row {
      var j :| 0 <= j < 50 && row[j] == x;
      StepTwoValue(first, j, v);
    }
    if v < 100 && v % 2 == first {
      var j := v / 2;
      StepTwoIndex(first, v);
      ProgressionAt(row, first, 2, x, j);
    }
  }

  /** The `j`-th entry counting by two from `first` is below 100 and has the parity of `first`. */
  lemma StepTwoValue(first: nat, j: nat, v: int)
    requires first < 2 && j < 50 && v == first + 2 * j
    ensures v < 100 && v % 2 == first
  {
  }

  /** A value below 100 with the parity of `first` is the entry at `v / 2`. */
  lemma StepTwoIndex(first: nat, v: nat)
    requires first < 2 && v < 100 && v % 2 == first
    ensures v / 2 < 50 && v == first + 2 * (v / 2)
  {
  }

  /** A three-digit number is in `singleNumbers` exactly when it is odd and below 100. */
  lemma SingleNumbersMembers(x: string)
    requires IsThreeDigitNumber(x)
    ensures x in SingleNumbers <==> NumberValue(x) < 100 && NumberValue(x) % 2 == 1
  {
    SingleNumbersAreOddBelow100();
    StepTwoMembers(SingleNumbers, 1, x);
  }

  /** A three-digit number is in `doubleNumbers` exactly when it is even and below 100. */
  lemma DoubleNumbersMembers(x: string)
    requires IsThreeDigitNumber(x)
    ensures x in DoubleNumbers <==> NumberValue(x) < 100 && NumberValue(x) % 2 == 0
  {
    DoubleNumbersAreEvenBelow100();
    StepTwoMembers(DoubleNumbers, 0, x);
  }

  lemma FrontNumbersByFirstDigitGroups0()
    ensures FrontNumbers[0].name == "Front " + ToDecimal(0) && |FrontNumbers[0].numbers| == 10
    ensures Progression(FrontNumbers[0].numbers, 0, 1)
    ensures FrontNumbers[1].name == "Front " + ToDecimal(1) && |FrontNumbers[1].numbers| == 10
    ensures Progression(FrontNumbers[1].numbers, 100, 1)
  {
    TenStep(FrontNumbers[0].numbers, 0, 1);
    TenStep(FrontNumbers[1].numbers, 100, 1);
  }

  lemma FrontNumbersByFirstDigitGroups1()
    ensures FrontNumbers[2].name == "Front " + ToDecimal(2) && |FrontNumbers[2].numbers| == 10
    ensures Progression(FrontNumbers[2].numbers, 200, 1)
    ensures FrontNumbers[3].name == "Front " + ToDecimal(3) && |FrontNumbers[3].numbers| == 10
    ensures Progression(FrontNumbers[3].numbers, 300, 1)
  {
    TenStep(FrontNumbers[2].numbers, 200, 1);
    TenStep(FrontNumbers[3].numbers, 300, 1);
  }

  lemma FrontNumbersByFirstDigitGroups2()
    ensures FrontNumbers[4].name == "Front " + ToDecimal(4) && |FrontNumbers[4].numbers| == 10
    ensures Progression(FrontNumbers[4].numbers, 400, 1)
    ensures FrontNumbers[5].name == "Front " + ToDecimal(5) && |FrontNumbers[5].numbers| == 10
    ensures Progression(FrontNumbers[5].numbers, 500, 1)
  {
    TenStep(FrontNumbers[4].numbers, 400, 1);
    TenStep(FrontNumbers[5].numbers, 500, 1);
  }

  lemma FrontNumbersByFirstDigitGroups3()
    ensures FrontNumbers[6].name == "Front " + ToDecimal(6) && |FrontNumbers[6].numbers| == 10
    ensures Progression(FrontNumbers[6].numbers, 600, 1)
    ensures FrontNumbers[7].name == "Front " + ToDecimal(7) && |FrontNumbers[7].numbers| == 10
    ensures Progression(FrontNumbers[7].numbers, 700, 1)
  {
    TenStep(FrontNumbers[6].numbers, 600, 1);
    TenStep(FrontNumbers[7].numbers, 700, 1);
  }

  lemma FrontNumbersByFirstDigitGroups4()
    ensures FrontNumbers[8].name == "Front " + ToDecimal(8) && |FrontNumbers[8].numbers| == 10
    ensures Progression(FrontNumbers[8].numbers, 800, 1)
    ensures FrontNumbers[9].name == "Front " + ToDecimal(9) && |FrontNumbers[9].numbers| == 10
    ensures Progression(FrontNumbers[9].numbers, 900, 1)
  {
    TenStep(FrontNumbers[8].numbers, 800, 1);
    TenStep(FrontNumbers[9].numbers, 900, 1);
  }

  /** `Front k` is named after `k` and holds k00 .. k09, ascending. */
  lemma FrontNumbersByFirstDigit()
    ensures |FrontNumbers| == 10
    ensures forall k :: 0 <= k < 10 ==>
      && FrontNumbers[k].name == "Front " + ToDecimal(k)
      && |FrontNumbers[k].numbers| == 10
      && Progression(FrontNumbers[k].numbers, 100 * k, 1)
  {
    FrontNumbersByFirstDigitGroups0();
    FrontNumbersByFirstDigitGroups1();
    FrontNumbersByFirstDigitGroups2();
    FrontNumbersByFirstDigitGroups3();
    FrontNumbersByFirstDigitGroups4();
    forall k | 0 <= k < 10
      ensures FrontNumbers[k].name == "Front " + ToDecimal(k)
      ensures |FrontNumbers[k].numbers| == 10 && Progression(FrontNumbers[k].numbers, 100 * k, 1)
    {
      if k == 0 {
        assert FrontNumbers[k] == FrontNumbers[0];
      } else if k == 1 {
        assert FrontNumbers[k] == FrontNumbers[1];
      } else if k == 2 {
        assert FrontNumbers[k] == FrontNumbers[2];
      } else if k == 3 {
        assert FrontNumbers[k] == FrontNumbers[3];
      } else if k == 4 {
        assert FrontNumbers[k] == FrontNumbers[4];
      } else if k == 5 {
        assert FrontNumbers[k] == FrontNumbers[5];
      } else if k == 6 {
        assert FrontNumbers[k] == FrontNumbers[6];
      } else if k == 7 {
        assert FrontNumbers[k] == FrontNumbers[7];
      } else if k == 8 {
        assert FrontNumbers[k] == FrontNumbers[8];
      } else {
        assert FrontNumbers[k] == FrontNumbers[9];
      }
    }
  }

  lemma BackNumbersByLastDigitGroups0()
    ensures BackNumbers[0].name == "Back " + ToDecimal(0) && |BackNumbers[0].numbers| == 10
    ensures Progression(BackNumbers[0].numbers, 0, 100)
    ensures BackNumbers[1].name == "Back " + ToDecimal(1) && |BackNumbers[1].numbers| == 10
    ensures Progression(BackNumbers[1].numbers, 1, 100)
  {
    TenStep(BackNumbers[0].numbers, 0, 100);
    TenStep(BackNumbers[1].numbers, 1, 100);
  }

  lemma BackNumbersByLastDigitGroups1()
    ensures BackNumbers[2].name == "Back " + ToDecimal(2) && |BackNumbers[2].numbers| == 10
    ensures Progression(BackNumbers[2].numbers, 2, 100)
    ensures BackNumbers[3].name == "Back " + ToDecimal(3) && |BackNumbers[3].numbers| == 10
    ensures Progression(BackNumbers[3].numbers, 3, 100)
  {
    TenStep(BackNumbers[2].numbers, 2, 100);
    TenStep(BackNumbers[3].numbers, 3, 100);
  }

  lemma BackNumbersByLastDigitGroups2()
    ensures BackNumbers[4].name == "Back " + ToDecimal(4) && |BackNumbers[4].numbers| == 10
    ensures Progression(BackNumbers[4].numbers, 4, 100)
    ensures BackNumbers[5].name == "Back " + ToDecimal(5) && |BackNumbers[5].numbers| == 10
    ensures Progression(BackNumbers[5].numbers, 5, 100)
  {
    TenStep(BackNumbers[4].numbers, 4, 100);
    TenStep(BackNumbers[5].numbers, 5, 100);
  }

  lemma BackNumbersByLastDigitGroups3()
    ensures BackNumbers[6].name == "Back " + ToDecimal(6) && |BackNumbers[6].numbers| == 10
    ensures Progression(BackNumbers[6].numbers, 6, 100)
    ensures BackNumbers[7].name == "Back " + ToDecimal(7) && |BackNumbers[7].numbers| == 10
    ensures Progression(BackNumbers[7].numbers, 7, 100)
  {
    TenStep(BackNumbers[6].numbers, 6, 100);
    TenStep(BackNumbers[7].numbers, 7, 100);
  }

  lemma BackNumbersByLastDigitGroups4()
    ensures BackNumbers[8].name == "Back " + ToDecimal(8) && |BackNumbers[8].numbers| == 10
    ensures Progression(BackNumbers[8].numbers, 8, 100)
    ensures BackNumbers[9].name == "Back " + ToDecimal(9) && |BackNumbers[9].numbers| == 10
    ensures Progression(BackNumbers[9].numbers, 9, 100)
  {
    TenStep(BackNumbers[8].numbers, 8, 100);
    TenStep(BackNumbers[9].numbers, 9, 100);
  }

  /** `Back k` is named after `k` and holds 00k, 10k, .., 90k, ascending. */
  lemma BackNumbersByLastDigit()
    ensures |BackNumbers| == 10
    ensures forall k :: 0 <= k < 10 ==>
      && BackNumbers[k].name == "Back " + ToDecimal(k)
      && |BackNumbers[k].numbers| == 10
      && Progression(BackNumbers[k].numbers, k, 100)
  {
    BackNumbersByLastDigitGroups0();
    BackNumbersByLastDigitGroups1();
    BackNumbersByLastDigitGroups2();
    BackNumbersByLastDigitGroups3();
    BackNumbersByLastDigitGroups4();
    forall k | 0 <= k < 10
      ensures BackNumbers[k].name == "Back " + ToDecimal(k)
      ensures |BackNumbers[k].numbers| == 10 && Progression(BackNumbers[k].numbers, k, 100)
    {
      if k == 0 {
        assert BackNumbers[k] == BackNumbers[0];
      } else if k == 1 {
        assert BackNumbers[k] == BackNumbers[1];
      } else if k == 2 {
        assert BackNumbers[k] == BackNumbers[2];
      } else if k == 3 {
        assert BackNumbers[k] == BackNumbers[3];
      } else if k == 4 {
        assert BackNumbers[k] == BackNumbers[4];
      } else if k == 5 {
        assert BackNumbers[k] == BackNumbers[5];
      } else if k == 6 {
        assert BackNumbers[k] == BackNumbers[6];
      } else if k == 7 {
        assert BackNumbers[k] == BackNumbers[7];
      } else if k == 8 {
        assert BackNumbers[k] == BackNumbers[8];
      } else {
        assert BackNumbers[k] == BackNumbers[9];
      }
    }
  }

  /**
   * `Front k` holds exactly the numbers whose first digit is `k` and whose
   * middle digit is 0: ten of the hundred numbers starting with `k`.
   */
  lemma FrontNumbersMembers(k: nat, x: string)
    requires k < 10 && IsThreeDigitNumber(x)
    ensures x in FrontNumbers[k].numbers <==> x[0] == DigitChar(k) && x[1] == '0'
  {
    FrontNumbersByFirstDigit();
    var row := FrontNumbers[k].numbers;
    var a, b, c := DigitValue(x[0]), DigitValue(x[1]), DigitValue(x[2]);
    FrontDigits(k, a, b, c);
    if x in row {
      var j :| 0 <= j < 10 && row[j] == x;
    }
    if x[0] == DigitChar(k) && x[1] == '0' {
      ProgressionAt(row, 100 * k, 1, x, c);
    }
  }

  /** The value `100a + 10b + c` lies in `100k .. 100k + 9` exactly when `a` is `k` and `b` is 0. */
  lemma FrontDigits(k: nat, a: nat, b: nat, c: nat)
    requires k < 10 && a < 10 && b < 10 && c < 10
    ensures 100 * k <= 100 * a + 10 * b + c < 100 * k + 10 <==> a == k && b == 0
  {
  }

  /**
   * `Back k` holds exactly the numbers whose last digit is `k` and whose
   * middle digit is 0: ten of the hundred numbers ending with `k`.
   */
  lemma BackNumbersMembers(k: nat, x: string)
    requires k < 10 && IsThreeDigitNumber(x)
    ensures x in BackNumbers[k].numbers <==> x[2] == DigitChar(k) && x[1] == '0'
  {
    BackNumbersByLastDigit();
    var row := BackNumbers[k].numbers;
    var a, b, c := DigitValue(x[0]), DigitValue(x[1]), DigitValue(x[2]);
    if x in row {
      var j :| 0 <= j < 10 && row[j] == x;
      BackDigits(k, j, a, b, c);
    }
    if x[2] == DigitChar(k) && x[1] == '0' {
      BackDigits(k, a, a, b, c);
      ProgressionAt(row, k, 100, x, a);
    }
  }

  /** The value `100a + 10b + c` is `k + 100j` exactly when `a` is `j`, `b` is 0 and `c` is `k`. */
  lemma BackDigits(k: nat, j: nat, a: nat, b: nat, c: nat)
    requires k < 10 && j < 10 && a < 10 && b < 10 && c < 10
    ensures 100 * a + 10 * b + c == k + 100 * j <==> a == j && b == 0 && c == k
  {
  }

  /** `powerNumbers` are 000, 111, .., 999. */
  lemma PowerNumbersRepeatOneDigit()
    ensures |PowerNumbers| == 10 && Progression(PowerNumbers, 0, 111)
  {
    TenStep(PowerNumbers, 0, 111);
  }

  /** A three-digit number is in `powerNumbers` exactly when its three digits are equal. */
  lemma PowerNumbersMembers(x: string)
    requires IsThreeDigitNumber(x)
    ensures x in PowerNumbers <==> x[0] == x[1] == x[2]
  {
    PowerNumbersRepeatOneDigit();
    var a, b, c := DigitValue(x[0]), DigitValue(x[1]), DigitValue(x[2]);
    if x in PowerNumbers {
      var j :| 0 <= j < 10 && PowerNumbers[j] == x;
      assert 100 * a + 10 * b + c == 111 * j;
      DigitsSplit(a, b, c);
      DigitsSplit(j, j, j);
    }
    if x[0] == x[1] == x[2] {
      ProgressionAt(PowerNumbers, 0, 111, x, a);
    }
  }

  lemma TwentyNumbersCountUpRows0()
    ensures Progression(TwentyNumbers[0..10], 0, 1) && Progression(TwentyNumbers[10..20], 10, 1)
  {
    TenStep(TwentyNumbers[0..10], 0, 1);
    TenStep(TwentyNumbers[10..20], 10, 1);
  }

  /** `twentyNumbers` are 000 .. 019 in order. */
  lemma TwentyNumbersCountUp()
    ensures |TwentyNumbers| == 20 && Progression(TwentyNumbers, 0, 1)
  {
    TwentyNumbersCountUpRows0();
    forall j | 0 <= j < 20
      ensures IsThreeDigitNumber(TwentyNumbers[j]) && NumberValue(TwentyNumbers[j]) == 0 + 1 * j
    {
      if j < 10 {
        assert TwentyNumbers[j] == TwentyNumbers[0..10][j - 0];
      } else {
        assert TwentyNumbers[j] == TwentyNumbers[10..20][j - 10];
      }
    }
  }

  /** The callbacks `handleAddNumbers` makes, in order. */
  datatype Callback = AddDigitsCall(numbers: seq<string>) | CloseCall

  /**
   * `handleAddNumbers`: the list goes unchanged to `onAddDigits` when the page
   * supplied one, and `onClose` is called last in every case.
   */
  function HandleAddNumbers(hasOnAddDigits: bool, numbers: seq<string>): (calls: seq<Callback>)
    ensures |calls| > 0 && calls[|calls| - 1] == CloseCall
    ensures |calls| == 2 <==> hasOnAddDigits
    ensures |calls| <= 2
    ensures forall i :: 0 <= i < |calls| - 1 ==> calls[i] == AddDigitsCall(numbers)
  {
    (if hasOnAddDigits then [AddDigitsCall(numbers)] else []) + [CloseCall]
  }
}
