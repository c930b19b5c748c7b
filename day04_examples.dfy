/** The sample section assignments of the puzzle statement. */
module Day04Examples {
  import opened Wrappers
  import opened Day04

  const Line0 := "2-4,6-8"
  const Line1 := "2-3,4-5"
  const Line2 := "5-7,7-9"
  const Line3 := "2-8,3-7"
  const Line4 := "6-6,4-6"
  const Line5 := "2-6,4-8"

  const Example := [Line0, Line1, Line2, Line3, Line4, Line5]

  const Pairs: seq<Pair> := [(Range(2, 4), Range(6, 8)), (Range(2, 3), Range(4, 5)),
                             (Range(5, 7), Range(7, 9)), (Range(2, 8), Range(3, 7)),
                             (Range(6, 6), Range(4, 6)), (Range(2, 6), Range(4, 8))]

  /** A single-digit range is its two digits around a hyphen. */
  lemma SmallRange(a: nat, b: nat)
    requires a < 10 && b < 10
    ensures FormatRange(Range(a, b)) == [Text.DigitChar(a), '-', Text.DigitChar(b)]
  {
  }

  lemma {:induction false} ExampleLine(line: string, p: Pair)
    requires p.0.start < 10 && p.0.end < 10 && p.1.start < 10 && p.1.end < 10
    requires p.0.start >= 0 && p.0.end >= 0 && p.1.start >= 0 && p.1.end >= 0
    requires |line| == 7 && line[1] == '-' && line[3] == ',' && line[5] == '-'
    requires line[0] == Text.DigitChar(p.0.start) && line[2] == Text.DigitChar(p.0.end)
    requires line[4] == Text.DigitChar(p.1.start) && line[6] == Text.DigitChar(p.1.end)
    ensures ParseLine(line) == Ok(p)
  {
    SmallRange(p.0.start, p.0.end);
    SmallRange(p.1.start, p.1.end);
    assert FormatLine(p) == line;
    ParseFormattedLine(p);
  }

  lemma ExampleParsed()
    ensures ParseInputData(Example) == Ok(Pairs)
  {
    forall k | 0 <= k < 6
      ensures ParseLine(Example[k]) == Ok(Pairs[k])
    {
      if k == 0 { ExampleLine(Line0, Pairs[0]); }
      else if k == 1 { ExampleLine(Line1, Pairs[1]); }
      else if k == 2 { ExampleLine(Line2, Pairs[2]); }
      else if k == 3 { ExampleLine(Line3, Pairs[3]); }
      else if k == 4 { ExampleLine(Line4, Pairs[4]); }
      else { ExampleLine(Line5, Pairs[5]); }
    }
    ParseInputDataOfLines(Example, Pairs);
  }

  lemma ExampleCounts()
    ensures CountContained(Pairs) == 2 && CountOverlapping(Pairs) == 4
  {
    var p := Pairs;
    CountsSnoc([], p[0]);
    CountsSnoc([p[0]], p[1]);
    CountsSnoc([p[0], p[1]], p[2]);
    CountsSnoc([p[0], p[1], p[2]], p[3]);
    CountsSnoc([p[0], p[1], p[2], p[3]], p[4]);
    CountsSnoc([p[0], p[1], p[2], p[3], p[4]], p[5]);
    assert [] + [p[0]] == [p[0]];
    assert [p[0]] + [p[1]] == [p[0], p[1]];
    assert [p[0], p[1]] + [p[2]] == [p[0], p[1], p[2]];
    assert [p[0], p[1], p[2]] + [p[3]] == [p[0], p[1], p[2], p[3]];
    assert [p[0], p[1], p[2], p[3]] + [p[4]] == [p[0], p[1], p[2], p[3], p[4]];
    assert [p[0], p[1], p[2], p[3], p[4]] + [p[5]] == p;
  }

  /** The answers of both parts on the sample: 2 pairs with one range inside the other,
      4 overlapping pairs. */
  lemma ExampleAnswers()
    ensures ParseInputData(Example).Ok?
    ensures CountContained(ParseInputData(Example).value) == 2
    ensures CountOverlapping(ParseInputData(Example).value) == 4
  {
    ExampleParsed();
    ExampleCounts();
  }
}
