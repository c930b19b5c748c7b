/** Day 1: calorie counting. The lines list the calories of the items each elf carries,
    the elves' lists being separated by a blank line. Part 1 is the largest total an elf
    carries, part 2 the sum of the three largest totals. */
module Day01 {
  import opened Wrappers
  import Text

  const ParseFailure := "Failed to parse number"
  const NoNumbers := "The dataset doesn't contain any numbers"

  // ---------------------------------------------------------------- parsing

  /** The lines of one elf, each a signed decimal number. */
  function ParseGroup(lines: seq<string>): (r: Result<seq<int>>)
    ensures r.Ok? <==> forall k :: 0 <= k < |lines| ==> Text.ParseInt(lines[k]).Some?
    ensures r.Ok? ==> |r.value| == |lines|
                      && forall k :: 0 <= k < |lines| ==> Text.ParseInt(lines[k]) == Some(r.value[k])
    ensures r.Err? ==> r.message == ParseFailure
  {
    if lines == [] then Ok([])
    else
      match Text.ParseInt(lines[0])
      case None => Err(ParseFailure)
      case Some(first) =>
        match ParseGroup(lines[1..])
        case Err(e) => Err(e)
        case Ok(rest) => Ok([first] + rest)
  }

  function ParseGroups(groups: seq<seq<string>>): (r: Result<seq<seq<int>>>)
    ensures r.Ok? <==> forall g :: 0 <= g < |groups| ==> ParseGroup(groups[g]).Ok?
    ensures r.Ok? ==> |r.value| == |groups|
                      && forall g :: 0 <= g < |groups| ==> ParseGroup(groups[g]) == Ok(r.value[g])
    ensures r.Err? ==> r.message == ParseFailure
  {
    if groups == [] then Ok([])
    else
      match ParseGroup(groups[0])
      case Err(e) => Err(e)
      case Ok(first) =>
        match ParseGroups(groups[1..])
        case Err(e) => Err(e)
        case Ok(rest) => Ok([first] + rest)
  }

  /** The elves' lists: the pieces `split("\n\n")` cuts the text into, each read line by
      line, then each line parsed. There is always at least one list, possibly an empty
      one. */
  function ParseInputData(lines: seq<string>): (r: Result<seq<seq<int>>>)
    ensures r.Ok? ==> |r.value| >= 1
    ensures r.Err? ==> r.message == ParseFailure
  {
    ParseGroups(Text.Paragraphs(lines))
  }

  /** Parsing succeeds exactly when every line that is not blank is a number and no blank
      line is left inside a list, as an even run of blank lines leaves one. */
  lemma ParseInputDataOk(lines: seq<string>)
    ensures ParseInputData(lines).Ok? <==>
              && (forall k :: 0 <= k < |lines| && lines[k] != "" ==> Text.ParseInt(lines[k]).Some?)
              && forall g :: 0 <= g < |Text.Paragraphs(lines)| ==> "" !in Text.Paragraphs(lines)[g]
  {
    var groups := Text.Paragraphs(lines);
    assert Text.ParseInt("").None?;
    if ParseInputData(lines).Ok? {
      forall k | 0 <= k < |lines| && lines[k] != ""
        ensures Text.ParseInt(lines[k]).Some?
      {
        Text.InputLineInParagraph(lines, k);
        var g :| 0 <= g < |groups| && lines[k] in groups[g];
        var m :| 0 <= m < |groups[g]| && groups[g][m] == lines[k];
      }
      assert forall g :: 0 <= g < |groups| ==> "" !in groups[g];
    } else if forall k :: 0 <= k < |lines| && lines[k] != "" ==> Text.ParseInt(lines[k]).Some? {
      var g, m :| 0 <= g < |groups| && 0 <= m < |groups[g]| && Text.ParseInt(groups[g][m]).None?;
      Text.ParagraphLineInInput(lines, g, groups[g][m]);
      assert groups[g][m] in lines;
      assert groups[g][m] == "";
    }
  }

  /** When the lists are separated by single blank lines, parsing succeeds exactly when
      every line that is not blank is a number. */
  lemma ParseInputDataOfSingleBlanks(lines: seq<string>)
    requires Text.SingleBlanks(lines)
    ensures ParseInputData(lines).Ok? <==>
              forall k :: 0 <= k < |lines| && lines[k] != "" ==> Text.ParseInt(lines[k]).Some?
  {
    ParseInputDataOk(lines);
    Text.ParagraphsOfSingleBlanks(lines);
  }

  /** One elf's list as text: one number per line. */
  function FormatGroup(values: seq<int>): seq<string>
  {
    seq(|values|, k requires 0 <= k < |values| => Text.IntToString(values[k]))
  }

  /** The elves' lists as text, a blank line between neighbours. */
  function FormatInput(data: seq<seq<int>>): seq<string>
  {
    Text.JoinWith(seq(|data|, g requires 0 <= g < |data| => FormatGroup(data[g])), "")
  }

  lemma ParseFormattedGroup(values: seq<int>)
    ensures ParseGroup(FormatGroup(values)) == Ok(values)
  {
    var lines := FormatGroup(values);
    forall k | 0 <= k < |values|
      ensures Text.ParseInt(lines[k]) == Some(values[k])
    {
      Text.ParseIntOfIntToString(values[k]);
    }
    var r := ParseGroup(lines);
    assert r.Ok?;
    assert r.value == values;
  }

  /** Writing the lists out and parsing them back gives the same lists, as long as there
      is at least one and none is empty: parsing never gives no list, and an empty list
      written out leaves two blank lines in a row. */
  lemma ParseFormattedInput(data: seq<seq<int>>)
    requires |data| >= 1 && forall g :: 0 <= g < |data| ==> data[g] != []
    ensures ParseInputData(FormatInput(data)) == Ok(data)
  {
    var parts := seq(|data|, g requires 0 <= g < |data| => FormatGroup(data[g]));
    forall g | 0 <= g < |parts|
      ensures parts[g] != [] && "" !in parts[g] && ParseGroup(parts[g]) == Ok(data[g])
    {
      ParseFormattedGroup(data[g]);
    }
    Text.ParagraphsOfJoin(parts);
    var r := ParseGroups(parts);
    assert r.Ok?;
    assert r.value == data;
  }

  // ---------------------------------------------------------------- part 1

  function Sum(xs: seq<int>): int
  {
    if xs == [] then 0 else xs[0] + Sum(xs[1..])
  }

  /** The total calories of each elf. */
  function Sums(groups: seq<seq<int>>): (r: seq<int>)
    ensures |r| == |groups| && forall g :: 0 <= g < |groups| ==> r[g] == Sum(groups[g])
  {
    if groups == [] then [] else [Sum(groups[0])] + Sums(groups[1..])
  }

  /** The largest element. */
  function Maximum(s: seq<int>): (m: int)
    requires |s| >= 1
    ensures m in s && forall k :: 0 <= k < |s| ==> s[k] <= m
  {
    if |s| == 1 then s[0]
    else
      var rest := Maximum(s[1..]);
      assert forall k :: 1 <= k < |s| ==> s[k] == s[1..][k - 1];
      if s[0] >= rest then s[0] else rest
  }

  /** The largest total; the error for an empty list of totals cannot arise, since
      parsing always yields at least one elf. */
  function Part1(lines: seq<string>): (r: Result<int>)
    ensures r.Ok? <==> ParseInputData(lines).Ok?
    ensures r.Ok? ==> var sums := Sums(ParseInputData(lines).value);
                      r.value in sums && forall g :: 0 <= g < |sums| ==> sums[g] <= r.value
    ensures r.Err? ==> r.message == ParseFailure
  {
    match ParseInputData(lines)
    case Err(e) => Err(e)
    case Ok(data) =>
      var sums := Sums(data);
      if sums == [] then Err(NoNumbers) else Ok(Maximum(sums))
  }

  // ---------------------------------------------------------------- the three largest

  /** The totals after the three zeros the source's running maxima start from. */
  function Padded(sums: seq<int>): seq<int>
  {
    [0, 0, 0] + sums
  }

  predicate DistinctIndices(n: int, i: int, j: int, k: int)
  {
    0 <= i < n && 0 <= j < n && 0 <= k < n && i != j && j != k && i != k
  }

  function Triple(s: seq<int>, i: int, j: int, k: int): int
    requires 0 <= i < |s| && 0 <= j < |s| && 0 <= k < |s|
  {
    s[i] + s[j] + s[k]
  }

  /** `t` is the largest sum of three elements at distinct positions of `s`. */
  ghost predicate IsTopThreeSum(s: seq<int>, t: int)
  {
    && (exists i, j, k :: DistinctIndices(|s|, i, j, k) && Triple(s, i, j, k) == t)
    && forall i, j, k :: DistinctIndices(|s|, i, j, k) ==> Triple(s, i, j, k) <= t
  }

  lemma TopThreeSumUnique(s: seq<int>, t: int, u: int)
    requires IsTopThreeSum(s, t) && IsTopThreeSum(s, u)
    ensures t == u
  {
    var i, j, k :| DistinctIndices(|s|, i, j, k) && Triple(s, i, j, k) == t;
    var x, y, z :| DistinctIndices(|s|, x, y, z) && Triple(s, x, y, z) == u;
  }

  /** Three positions holding a >= b >= c, every other element being at most c. */
  predicate TopSlots(s: seq<int>, a: int, b: int, c: int, ia: int, ib: int, ic: int)
  {
    && DistinctIndices(|s|, ia, ib, ic)
    && s[ia] == a && s[ib] == b && s[ic] == c && a >= b >= c
    && forall m :: 0 <= m < |s| && m != ia && m != ib && m != ic ==> s[m] <= c
  }

  /** The three slots add up to the largest sum of three. */
  lemma TopSlotsSum(s: seq<int>, a: int, b: int, c: int, ia: int, ib: int, ic: int)
    requires TopSlots(s, a, b, c, ia, ib, ic)
    ensures IsTopThreeSum(s, a + b + c)
  {
    assert Triple(s, ia, ib, ic) == a + b + c;
    forall i, j, k | DistinctIndices(|s|, i, j, k)
      ensures Triple(s, i, j, k) <= a + b + c
    {
      assert s[i] <= a && s[j] <= a && s[k] <= a;
      assert s[i] + s[j] <= a + b && s[i] + s[k] <= a + b && s[j] + s[k] <= a + b;
    }
  }

  /** A new element enters the slots as the source's running maxima take it: above the
      first moves every slot down, above the second or third moves the ones below it down,
      and anything else leaves them. */
  lemma TopSlotsPush(p: seq<int>, x: int, a: int, b: int, c: int, ia: int, ib: int, ic: int)
    requires TopSlots(p, a, b, c, ia, ib, ic)
    ensures x > a ==> TopSlots(p + [x], x, a, b, |p|, ia, ib)
    ensures a >= x > b ==> TopSlots(p + [x], a, x, b, ia, |p|, ib)
    ensures b >= x > c ==> TopSlots(p + [x], a, b, x, ia, ib, |p|)
    ensures c >= x ==> TopSlots(p + [x], a, b, c, ia, ib, ic)
  {
    var q := p + [x];
    assert forall m :: 0 <= m < |p| ==> q[m] == p[m];
  }

  /** A position in {0, 1, 2} other than `u` and `v`. */
  function FreeIndex(u: int, v: int): (f: nat)
    ensures f < 3 && f != u && f != v
  {
    if 0 != u && 0 != v then 0 else if 1 != u && 1 != v then 1 else 2
  }

  /** With at least three elves and no negative totals the three zeros play no part:
      the answer is the largest sum of three of the totals themselves. */
  lemma TopThreeOfNonNegative(sums: seq<int>, t: int)
    requires |sums| >= 3 && forall g :: 0 <= g < |sums| ==> sums[g] >= 0
    requires IsTopThreeSum(Padded(sums), t)
    ensures IsTopThreeSum(sums, t)
  {
    var p := Padded(sums);
    forall i, j, k | DistinctIndices(|sums|, i, j, k)
      ensures Triple(sums, i, j, k) <= t
    {
      assert DistinctIndices(|p|, i + 3, j + 3, k + 3);
      assert Triple(sums, i, j, k) == Triple(p, i + 3, j + 3, k + 3);
    }
    var i, j, k :| DistinctIndices(|p|, i, j, k) && Triple(p, i, j, k) == t;
    var x := if i >= 3 then i - 3 else FreeIndex(if j >= 3 then j - 3 else -1, if k >= 3 then k - 3 else -1);
    var y := if j >= 3 then j - 3 else FreeIndex(x, if k >= 3 then k - 3 else -1);
    var z := if k >= 3 then k - 3 else FreeIndex(x, y);
    assert DistinctIndices(|sums|, x, y, z);
    assert sums[x] >= p[i] && sums[y] >= p[j] && sums[z] >= p[k];
    assert Triple(sums, x, y, z) == t;
  }

  /** Repeated totals all count: two elves with 7 and one with 1 give 15. */
  lemma TiesKept()
    ensures IsTopThreeSum(Padded([7, 7, 1]), 15)
  {
    TopSlotsSum(Padded([7, 7, 1]), 7, 7, 1, 3, 4, 5);
  }

  // ---------------------------------------------------------------- part 2

  /** Keeps the three largest totals seen so far in max_a >= max_b >= max_c, each
      starting at 0; a new total moves the smaller ones down a slot. */
  method Part2(lines: seq<string>) returns (r: Result<int>)
    ensures r.Ok? <==> ParseInputData(lines).Ok?
    ensures r.Ok? ==> r.value >= 0 && IsTopThreeSum(Padded(Sums(ParseInputData(lines).value)), r.value)
    ensures r.Err? ==> r.message == ParseFailure
  {
    var parsed := ParseInputData(lines);
    if parsed.Err? {
      return Err(parsed.message);
    }
    var total := TopThree(parsed.value);
    return Ok(total);
  }

  /** The loop of part 2: three running maxima, shifted down as larger totals arrive. */
  method TopThree(data: seq<seq<int>>) returns (total: int)
    ensures total >= 0 && IsTopThreeSum(Padded(Sums(data)), total)
  {
    ghost var sums := Sums(data);
    var maxA, maxB, maxC := 0, 0, 0;
    ghost var ia, ib, ic := 0, 1, 2;
    for i := 0 to |data|
      invariant TopSlots(Padded(sums[..i]), maxA, maxB, maxC, ia, ib, ic)
      invariant maxC >= 0
    {
      ghost var p := Padded(sums[..i]);
      assert Padded(sums[..i + 1]) == p + [sums[i]];
      var calories := Sum(data[i]);
      TopSlotsPush(p, calories, maxA, maxB, maxC, ia, ib, ic);
      if calories > maxA {
        maxC := maxB;
        maxB := maxA;
        maxA := calories;
        ia, ib, ic := |p|, ia, ib;
      } else if calories > maxB {
        maxC := maxB;
        maxB := calories;
        ib, ic := |p|, ib;
      } else if calories > maxC {
        maxC := calories;
        ic := |p|;
      }
    }
    assert sums[..|data|] == sums;
    TopSlotsSum(Padded(sums), maxA, maxB, maxC, ia, ib, ic);
    return maxA + maxB + maxC;
  }
}
