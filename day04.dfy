/** Day 4: pairs of section ranges. Part 1 counts the pairs in which one range lies
    within the other, part 2 the pairs whose ranges overlap. */
module Day04 {
  import opened Wrappers
  import Text

  /** The sections start..end, both ends included. */
  datatype Range = Range(start: int, end: int)

  type Pair = (Range, Range)

  predicate WellFormed(r: Range) { r.start <= r.end }

  const ParseFailure := "Unable to parse line"

  // ---------------------------------------------------------------- parsing

  /** "a-b" with two unsigned decimal numbers. */
  function ParseRange(s: string): (r: Result<Range>)
    ensures r.Err? ==> r.message == ParseFailure
  {
    var parts := Text.SplitOn(s, '-');
    if |parts| != 2 then Err(ParseFailure)
    else
      match (Text.ParseNat(parts[0]), Text.ParseNat(parts[1]))
      case (Some(a), Some(b)) => Ok(Range(a, b))
      case _ => Err(ParseFailure)
  }

  /** "a-b,c-d": the first range, a comma, the second range. */
  function ParseLine(line: string): (r: Result<Pair>)
    ensures r.Err? ==> r.message == ParseFailure
  {
    var halves := Text.SplitOn(line, ',');
    if |halves| != 2 then Err(ParseFailure)
    else
      match (ParseRange(halves[0]), ParseRange(halves[1]))
      case (Ok(a), Ok(b)) => Ok((a, b))
      case _ => Err(ParseFailure)
  }

  function ParseInputData(lines: seq<string>): (r: Result<seq<Pair>>)
    ensures r.Ok? <==> forall k :: 0 <= k < |lines| ==> ParseLine(lines[k]).Ok?
    ensures r.Ok? ==> |r.value| == |lines|
                      && forall k :: 0 <= k < |lines| ==> ParseLine(lines[k]) == Ok(r.value[k])
    ensures r.Err? ==> r.message == ParseFailure
  {
    MapAll(lines, ParseLine)
  }

  /** Lines that parse one by one into the given pairs make exactly that list. */
  lemma ParseInputDataOfLines(lines: seq<string>, pairs: seq<Pair>)
    requires |pairs| == |lines|
    requires forall k :: 0 <= k < |lines| ==> ParseLine(lines[k]) == Ok(pairs[k])
    ensures ParseInputData(lines) == Ok(pairs)
  {
    MapAllOfResults(lines, ParseLine, pairs);
  }

  predicate Unsigned(r: Range) { r.start >= 0 && r.end >= 0 }

  function FormatRange(r: Range): string
    requires Unsigned(r)
  {
    Text.NatToString(r.start) + "-" + Text.NatToString(r.end)
  }

  function FormatLine(p: Pair): string
    requires Unsigned(p.0) && Unsigned(p.1)
  {
    FormatRange(p.0) + "," + FormatRange(p.1)
  }

  /** A range written as the puzzle writes it reads back as itself. */
  lemma ParseFormattedRange(r: Range)
    requires Unsigned(r)
    ensures ParseRange(FormatRange(r)) == Ok(r)
  {
    var a, b := Text.NatToString(r.start), Text.NatToString(r.end);
    assert '-' !in a && '-' !in b by {
      assert forall i :: 0 <= i < |a| ==> Text.IsDigit(a[i]);
      assert forall i :: 0 <= i < |b| ==> Text.IsDigit(b[i]);
    }
    assert FormatRange(r) == Text.JoinWith([a, b], '-') by {
      assert Text.JoinWith([a, b][1..], '-') == b;
    }
    Text.SplitOnJoinWith([a, b], '-');
    Text.ParseNatOfNatToString(r.start);
    Text.ParseNatOfNatToString(r.end);
  }

  lemma NoCommaInRange(r: Range)
    requires Unsigned(r)
    ensures ',' !in FormatRange(r)
  {
    var a, b := Text.NatToString(r.start), Text.NatToString(r.end);
    assert forall i :: 0 <= i < |a| ==> Text.IsDigit(a[i]);
    assert forall i :: 0 <= i < |b| ==> Text.IsDigit(b[i]);
    assert FormatRange(r) == a + ("-" + b);
  }

  /** A pair written as the puzzle writes it reads back as itself. */
  lemma ParseFormattedLine(p: Pair)
    requires Unsigned(p.0) && Unsigned(p.1)
    ensures ParseLine(FormatLine(p)) == Ok(p)
  {
    var a, b := FormatRange(p.0), FormatRange(p.1);
    NoCommaInRange(p.0);
    NoCommaInRange(p.1);
    assert FormatLine(p) == Text.JoinWith([a, b], ',') by {
      assert Text.JoinWith([a, b][1..], ',') == b;
    }
    Text.SplitOnJoinWith([a, b], ',');
    ParseFormattedRange(p.0);
    ParseFormattedRange(p.1);
  }

  // ---------------------------------------------------------------- the two tests

  /** The part 1 test: one range's start and end both lie within the other. */
  predicate OneContainsOther(a: Range, b: Range)
  {
    (a.start >= b.start && a.end <= b.end) || (b.start >= a.start && b.end <= a.end)
  }

  /** The part 2 test: one range's start lies within the other. */
  predicate Overlap(a: Range, b: Range)
  {
    (a.start <= b.start && a.end >= b.start) || (b.start <= a.start && b.end >= a.start)
  }

  lemma TestsSymmetric(a: Range, b: Range)
    ensures OneContainsOther(a, b) <==> OneContainsOther(b, a)
    ensures Overlap(a, b) <==> Overlap(b, a)
  {
  }

  predicate Covers(r: Range, s: int) { r.start <= s <= r.end }

  function Max(x: int, y: int): int { if x >= y then x else y }

  function Min(x: int, y: int): int { if x <= y then x else y }

  /** For well-formed ranges the test means that the ranges share a section. */
  lemma OverlapIsSharedSection(a: Range, b: Range)
    requires WellFormed(a) && WellFormed(b)
    ensures Overlap(a, b) <==> Max(a.start, b.start) <= Min(a.end, b.end)
    ensures Overlap(a, b) <==> exists s :: Covers(a, s) && Covers(b, s)
  {
    if Max(a.start, b.start) <= Min(a.end, b.end) {
      assert Covers(a, Max(a.start, b.start)) && Covers(b, Max(a.start, b.start));
    }
  }

  /** For well-formed ranges one inside the other share a section. */
  lemma ContainedOverlaps(a: Range, b: Range)
    requires WellFormed(a) && WellFormed(b) && OneContainsOther(a, b)
    ensures Overlap(a, b)
  {
  }

  /** Without well-formedness the containment test does not imply the overlap test. */
  lemma ContainedWithoutOverlap()
    ensures OneContainsOther(Range(3, 1), Range(2, 2)) && !Overlap(Range(3, 1), Range(2, 2))
  {
  }

  // ---------------------------------------------------------------- counting

  function Indicator(b: bool): nat { if b then 1 else 0 }

  /** The number of pairs passing the part 1 test. */
  function CountContained(pairs: seq<Pair>): nat
  {
    if pairs == [] then 0
    else CountContained(pairs[..|pairs| - 1]) + Indicator(OneContainsOther(pairs[|pairs| - 1].0, pairs[|pairs| - 1].1))
  }

  /** The number of pairs passing the part 2 test. */
  function CountOverlapping(pairs: seq<Pair>): nat
  {
    if pairs == [] then 0
    else CountOverlapping(pairs[..|pairs| - 1]) + Indicator(Overlap(pairs[|pairs| - 1].0, pairs[|pairs| - 1].1))
  }

  /** One more pair adds its tests' outcomes to the counts. */
  lemma CountsSnoc(pairs: seq<Pair>, p: Pair)
    ensures CountContained(pairs + [p]) == CountContained(pairs) + Indicator(OneContainsOther(p.0, p.1))
    ensures CountOverlapping(pairs + [p]) == CountOverlapping(pairs) + Indicator(Overlap(p.0, p.1))
  {
    assert (pairs + [p])[..|pairs|] == pairs;
  }

  lemma {:induction false} CountsAtMostPairs(pairs: seq<Pair>)
    ensures CountContained(pairs) <= |pairs| && CountOverlapping(pairs) <= |pairs|
  {
    if pairs != [] {
      CountsAtMostPairs(pairs[..|pairs| - 1]);
    }
  }

  /** With well-formed ranges part 1 never exceeds part 2. */
  lemma {:induction false} ContainedAtMostOverlapping(pairs: seq<Pair>)
    requires forall k :: 0 <= k < |pairs| ==> WellFormed(pairs[k].0) && WellFormed(pairs[k].1)
    ensures CountContained(pairs) <= CountOverlapping(pairs)
  {
    if pairs != [] {
      var last := pairs[|pairs| - 1];
      if OneContainsOther(last.0, last.1) {
        ContainedOverlaps(last.0, last.1);
      }
      ContainedAtMostOverlapping(pairs[..|pairs| - 1]);
    }
  }

  /** Swapping the two ranges of every pair changes neither count. */
  lemma {:induction false} CountsIgnoreOrder(pairs: seq<Pair>, swapped: seq<Pair>)
    requires |swapped| == |pairs|
    requires forall k :: 0 <= k < |pairs| ==> swapped[k] == (pairs[k].1, pairs[k].0)
    ensures CountContained(swapped) == CountContained(pairs)
    ensures CountOverlapping(swapped) == CountOverlapping(pairs)
  {
    if pairs != [] {
      var n := |pairs| - 1;
      TestsSymmetric(pairs[n].0, pairs[n].1);
      CountsIgnoreOrder(pairs[..n], swapped[..n]);
    }
  }

  // ---------------------------------------------------------------- the two parts

  /** The loop of part 1: adds one for every pair passing the containment test. */
  method ContainedPairs(ranges: seq<Pair>) returns (sum: int)
    ensures sum == CountContained(ranges)
  {
    sum := 0;
    for i := 0 to |ranges|
      invariant sum == CountContained(ranges[..i])
    {
      var (range1, range2) := ranges[i];
      assert ranges[..i + 1][..i] == ranges[..i];
      if (range1.start >= range2.start && range1.end <= range2.end)
         || (range2.start >= range1.start && range2.end <= range1.end)
      {
        sum := sum + 1;
      }
    }
    assert ranges[..|ranges|] == ranges;
  }

  /** The loop of part 2: adds one for every pair passing the overlap test. */
  method OverlappingPairs(ranges: seq<Pair>) returns (sum: int)
    ensures sum == CountOverlapping(ranges)
  {
    sum := 0;
    for i := 0 to |ranges|
      invariant sum == CountOverlapping(ranges[..i])
    {
      var (range1, range2) := ranges[i];
      assert ranges[..i + 1][..i] == ranges[..i];
      if (range1.start <= range2.start && range1.end >= range2.start)
         || (range2.start <= range1.start && range2.end >= range1.start)
      {
        sum := sum + 1;
      }
    }
    assert ranges[..|ranges|] == ranges;
  }

  method Part1(lines: seq<string>) returns (r: Result<int>)
    ensures r.Ok? <==> ParseInputData(lines).Ok?
    ensures r.Ok? ==> r.value == CountContained(ParseInputData(lines).value)
    ensures r.Err? ==> r.message == ParseFailure
  {
    var parsed := ParseInputData(lines);
    if parsed.Err? {
      return Err(parsed.message);
    }
    var sum := ContainedPairs(parsed.value);
    return Ok(sum);
  }

  method Part2(lines: seq<string>) returns (r: Result<int>)
    ensures r.Ok? <==> ParseInputData(lines).Ok?
    ensures r.Ok? ==> r.value == CountOverlapping(ParseInputData(lines).value)
    ensures r.Err? ==> r.message == ParseFailure
  {
    var parsed := ParseInputData(lines);
    if parsed.Err? {
      return Err(parsed.message);
    }
    var sum := OverlappingPairs(parsed.value);
    return Ok(sum);
  }
}
