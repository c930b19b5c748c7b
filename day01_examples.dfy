/** The sample inventory of the puzzle statement: five elves carrying 6000, 4000, 11000,
    24000 and 10000 calories. */
module Day01Examples {
  import opened Wrappers
  import Text
  import opened Day01

  const Example := ["1000", "2000", "3000", "", "4000", "", "5000", "6000", "",
                    "7000", "8000", "9000", "", "10000"]

  const Groups := [["1000", "2000", "3000"], ["4000"], ["5000", "6000"],
                   ["7000", "8000", "9000"], ["10000"]]

  const Values := [[1000, 2000, 3000], [4000], [5000, 6000], [7000, 8000, 9000], [10000]]

  lemma {:induction false} JoinFive(g0: seq<string>, g1: seq<string>, g2: seq<string>, g3: seq<string>,
                                    g4: seq<string>)
    ensures Text.JoinWith([g0, g1, g2, g3, g4], "") == g0 + [""] + g1 + [""] + g2 + [""] + g3 + [""] + g4
  {
    var gs := [g0, g1, g2, g3, g4];
    assert gs[1..] == [g1, g2, g3, g4];
    assert gs[1..][1..] == [g2, g3, g4];
    assert gs[1..][1..][1..] == [g3, g4];
    assert gs[1..][1..][1..][1..] == [g4];
    assert Text.JoinWith([g3, g4], "") == g3 + [""] + g4;
    assert Text.JoinWith([g2, g3, g4], "") == g2 + [""] + (g3 + [""] + g4);
    assert Text.JoinWith([g1, g2, g3, g4], "") == g1 + [""] + (g2 + [""] + (g3 + [""] + g4));
  }

  lemma Group(values: seq<int>, lines: seq<string>)
    requires |values| == |lines|
    requires forall k :: 0 <= k < |values| ==> values[k] >= 0 && lines[k] == Text.NatToString(values[k])
    ensures FormatGroup(values) == lines
  {
  }

  /** d thousand is spelled as the digit d and three zeros. */
  lemma Thousands(d: nat)
    requires 1 <= d <= 9
    ensures Text.NatToString(d * 1000) == [Text.DigitChar(d), '0', '0', '0']
  {
    assert Text.DigitChar(0) == '0';
    assert Text.NatToString(d) == [Text.DigitChar(d)];
    assert (d * 10) / 10 == d && (d * 10) % 10 == 0;
    assert Text.NatToString(d * 10) == [Text.DigitChar(d), '0'];
    assert (d * 100) / 10 == d * 10 && (d * 100) % 10 == 0;
    assert Text.NatToString(d * 100) == [Text.DigitChar(d), '0', '0'];
    assert (d * 1000) / 10 == d * 100 && (d * 1000) % 10 == 0;
  }

  lemma TenThousand()
    ensures Text.NatToString(10000) == "10000"
  {
    Thousands(1);
    assert 10000 / 10 == 1000 && 10000 % 10 == 0;
  }

  lemma GroupText0() ensures FormatGroup([1000, 2000, 3000]) == ["1000", "2000", "3000"]
  {
    Thousands(1);
    Thousands(2);
    Thousands(3);
    Group([1000, 2000, 3000], ["1000", "2000", "3000"]);
  }

  lemma GroupText1() ensures FormatGroup([4000]) == ["4000"]
  {
    Thousands(4);
    Group([4000], ["4000"]);
  }

  lemma GroupText2() ensures FormatGroup([5000, 6000]) == ["5000", "6000"]
  {
    Thousands(5);
    Thousands(6);
    Group([5000, 6000], ["5000", "6000"]);
  }

  lemma GroupText3() ensures FormatGroup([7000, 8000, 9000]) == ["7000", "8000", "9000"]
  {
    Thousands(7);
    Thousands(8);
    Thousands(9);
    Group([7000, 8000, 9000], ["7000", "8000", "9000"]);
  }

  lemma GroupText4() ensures FormatGroup([10000]) == ["10000"]
  {
    TenThousand();
    Group([10000], ["10000"]);
  }

  /** The lists of the five elves, written out. */
  lemma GroupTexts(values: seq<seq<int>>, groups: seq<seq<string>>)
    requires values == Values && groups == Groups
    ensures seq(5, g requires 0 <= g < 5 => FormatGroup(values[g])) == groups
  {
    GroupText0();
    GroupText1();
    GroupText2();
    GroupText3();
    GroupText4();
  }

  /** The sample is the five lists written out. */
  lemma ExampleText(values: seq<seq<int>>, groups: seq<seq<string>>, lines: seq<string>)
    requires values == Values && groups == Groups && lines == Example
    ensures FormatInput(values) == lines
  {
    GroupTexts(values, groups);
    JoinFive(groups[0], groups[1], groups[2], groups[3], groups[4]);
    assert Text.JoinWith(groups, "") == lines;
  }

  lemma ExampleParsed(lines: seq<string>)
    requires lines == Example
    ensures ParseInputData(lines) == Ok(Values)
  {
    ExampleText(Values, Groups, lines);
    ParseFormattedInput(Values);
  }

  const Totals := [6000, 4000, 11000, 24000, 10000]

  lemma ExampleSums(values: seq<seq<int>>)
    requires values == Values
    ensures Sums(values) == Totals
  {
  }

  lemma PartOne(lines: seq<string>, values: seq<seq<int>>)
    requires ParseInputData(lines) == Ok(values) && Sums(values) == Totals
    ensures Part1(lines) == Ok(24000)
  {
    var r := Part1(lines);
    assert r.Ok? && r.value in Totals && Totals[3] <= r.value;
  }

  /** Part 1 on the sample: the fourth elf's 24000 calories. */
  lemma ExamplePart1(lines: seq<string>)
    requires lines == Example
    ensures Part1(lines) == Ok(24000)
  {
    ExampleParsed(lines);
    ExampleSums(Values);
    PartOne(lines, Values);
  }

  /** The padded totals of the sample have the three largest 24000, 11000, 10000. */
  lemma PartTwo(p: seq<int>, t: int)
    requires p == Padded(Totals) && IsTopThreeSum(p, t)
    ensures t == 45000
  {
    assert p == [0, 0, 0, 6000, 4000, 11000, 24000, 10000];
    TopSlotsSum(p, 24000, 11000, 10000, 6, 5, 7);
    TopThreeSumUnique(p, t, 45000);
  }

  /** Part 2 on the sample: 24000 + 11000 + 10000, the only value the source's result can
      take by the contract of `Part2`. */
  lemma ExamplePart2(lines: seq<string>, t: int)
    requires lines == Example
    requires ParseInputData(lines).Ok? && IsTopThreeSum(Padded(Sums(ParseInputData(lines).value)), t)
    ensures t == 45000
  {
    ExampleParsed(lines);
    ExampleSums(Values);
    PartTwo(Padded(Totals), t);
  }
  lemma OneTwo()
    ensures Text.ParseInt("1") == Some(1) && Text.ParseInt("2") == Some(2) && Text.ParseInt("").None?
  {
    assert Text.DigitsValue("1") == 10 * Text.DigitsValue("") + 1 by { assert "1"[..0] == ""; }
    assert Text.DigitsValue("2") == 10 * Text.DigitsValue("") + 2 by { assert "2"[..0] == ""; }
  }

  lemma OneTwoGroups()
    ensures ParseGroup(["1"]) == Ok([1]) && ParseGroup(["2"]) == Ok([2])
  {
    OneTwo();
    Group([1], ["1"]);
    Group([2], ["2"]);
    ParseFormattedGroup([1]);
    ParseFormattedGroup([2]);
  }

  /** Two blank lines in a row are three newlines: the first two separate the lists and
      the third leaves a blank line at the head of the next list, which is no number. */
  lemma TwoBlankLines(lines: seq<string>)
    requires lines == ["1", "", "", "2"]
    ensures ParseInputData(lines).Err?
  {
    assert Text.ParagraphCut(lines, 0) == 0;
    Text.ParagraphsStep(lines, 0);
    var rest := lines[2..];
    assert rest == ["", "2"] && lines[..1] == ["1"];
    Text.ParagraphsLast(rest);
    OneTwo();
    assert Text.Paragraphs(lines) == [["1"], ["", "2"]];
  }

  /** Three blank lines in a row are four newlines, two separators around an empty list. */
  lemma ThreeBlankLines(lines: seq<string>)
    requires lines == ["1", "", "", "", "2"]
    ensures ParseInputData(lines) == Ok([[1], [], [2]])
  {
    assert Text.ParagraphCut(lines, 0) == 0;
    Text.ParagraphsStep(lines, 0);
    var rest := lines[2..];
    assert rest == ["", "", "2"] && lines[..1] == ["1"];
    assert Text.ParagraphCut(rest, 0) == 0;
    Text.ParagraphsStep(rest, 0);
    assert rest[2..] == ["2"] && rest[..1] == [""];
    Text.ParagraphsOfOne(["2"]);
    OneTwo();
    var groups := [["1"], [], ["2"]];
    assert Text.Paragraphs(lines) == groups;
    OneTwoGroups();
    assert ParseGroups(groups).value == [[1], [], [2]];
  }
}
