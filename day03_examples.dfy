/** The sample rucksacks of the puzzle statement. Each lemma takes the line as a
    parameter equal to the constant, which keeps the verifier from unfolding the
    parser on the literal. */
module Day03Examples {
  import opened Wrappers
  import opened Day03

  const Line0 := "vJrwpWtwJgWrhcsFMMfFFhFp"
  const Line1 := "jqHRNqRjqzjGDLGLrsFMfFZSrLrFZsSL"
  const Line2 := "PmmdzqPrVvPwwTWBwg"
  const Line3 := "wMqvLMZHhHMvwLHjbvcjnnSBnvTQFn"
  const Line4 := "ttgJtRGJQctTZtZT"
  const Line5 := "CrZsJsPPZsGzwwsLwLmpwMDw"

  const Example := [Line0, Line1, Line2, Line3, Line4, Line5]

  /** A line of letters whose duplicate is the letter `c`, found at index `a` of the first
      half and first in the second half at index `j`. */
  predicate Shape(line: string, a: nat, j: nat, c: char)
  {
    AllItems(line) && a < |line| / 2 <= j < |line| && line[a] == c && line[j] == c
    && NoneSharedBefore(line, j)
  }

  lemma ShapeDuplicate(line: string, a: nat, j: nat, c: char)
    requires Shape(line, a, j, c)
    ensures ParseBackpack(line).Ok?
    ensures Duplicate(ParseBackpack(line).value) == Ok(Priority(c).value)
  {
    LineDuplicate(line, a, j);
  }

  lemma {:induction false} Letters0(line: string)
    requires line == Line0
    ensures AllItems(line)
  {
  }

  lemma {:induction false} Apart0(line: string)
    requires line == Line0
    ensures NoneSharedBefore(line, 23)
  {
  }

  lemma {:induction false} Shape0(line: string)
    requires line == Line0
    ensures Shape(line, 4, 23, 'p')
  {
    Letters0(line);
    Apart0(line);
  }

  lemma {:induction false} Letters1(line: string)
    requires line == Line1
    ensures AllItems(line)
  {
  }

  lemma {:induction false} Apart1(line: string)
    requires line == Line1
    ensures NoneSharedBefore(line, 25)
  {
  }

  lemma {:induction false} Shape1(line: string)
    requires line == Line1
    ensures Shape(line, 13, 25, 'L')
  {
    Letters1(line);
    Apart1(line);
  }

  lemma {:induction false} Letters2(line: string)
    requires line == Line2
    ensures AllItems(line)
  {
  }

  lemma {:induction false} Apart2(line: string)
    requires line == Line2
    ensures NoneSharedBefore(line, 10)
  {
  }

  lemma {:induction false} Shape2(line: string)
    requires line == Line2
    ensures Shape(line, 0, 10, 'P')
  {
    Letters2(line);
    Apart2(line);
  }

  lemma {:induction false} Letters3(line: string)
    requires line == Line3
    ensures AllItems(line)
  {
  }

  lemma {:induction false} Apart3(line: string)
    requires line == Line3
    ensures NoneSharedBefore(line, 17)
  {
  }

  lemma {:induction false} Shape3(line: string)
    requires line == Line3
    ensures Shape(line, 3, 17, 'v')
  {
    Letters3(line);
    Apart3(line);
  }

  lemma {:induction false} Letters4(line: string)
    requires line == Line4
    ensures AllItems(line)
  {
  }

  lemma {:induction false} Apart4(line: string)
    requires line == Line4
    ensures NoneSharedBefore(line, 10)
  {
  }

  lemma {:induction false} Shape4(line: string)
    requires line == Line4
    ensures Shape(line, 0, 10, 't')
  {
    Letters4(line);
    Apart4(line);
  }

  lemma {:induction false} Letters5(line: string)
    requires line == Line5
    ensures AllItems(line)
  {
  }

  lemma {:induction false} Apart5(line: string)
    requires line == Line5
    ensures NoneSharedBefore(line, 14)
  {
  }

  lemma {:induction false} Shape5(line: string)
    requires line == Line5
    ensures Shape(line, 3, 14, 's')
  {
    Letters5(line);
    Apart5(line);
  }

  /** A rucksack of that shape at index k adds the priority of `c` to part 1 of the
      rucksacks after it. */
  lemma {:induction false} ShapeAt(lines: seq<string>, k: nat, a: nat, j: nat, c: char, p: int)
    requires k < |lines| && Shape(lines[k], a, j, c) && Part1(lines[k + 1..]) == Ok(p)
    ensures Part1(lines[k..]) == Ok(Priority(c).value + p)
  {
    ShapeDuplicate(lines[k], a, j, c);
    Part1Cons(lines[k], lines[k + 1..], Priority(c).value, p);
    assert [lines[k]] + lines[k + 1..] == lines[k..];
  }

  /** Any six rucksacks of the sample's shapes give 16 (p) + 38 (L) + 42 (P) + 22 (v)
      + 20 (t) + 19 (s). */
  lemma {:induction false} SixShapes(lines: seq<string>)
    requires |lines| == 6
    requires Shape(lines[0], 4, 23, 'p') && Shape(lines[1], 13, 25, 'L') && Shape(lines[2], 0, 10, 'P')
    requires Shape(lines[3], 3, 17, 'v') && Shape(lines[4], 0, 10, 't') && Shape(lines[5], 3, 14, 's')
    ensures Part1(lines) == Ok(157)
  {
    assert Part1(lines[6..]) == Ok(0);
    ShapeAt(lines, 5, 3, 14, 's', 0);
    ShapeAt(lines, 4, 0, 10, 't', 19);
    ShapeAt(lines, 3, 3, 17, 'v', 39);
    ShapeAt(lines, 2, 0, 10, 'P', 61);
    ShapeAt(lines, 1, 13, 25, 'L', 103);
    ShapeAt(lines, 0, 4, 23, 'p', 141);
    assert lines[0..] == lines;
  }

  lemma ExampleShapes()
    ensures Shape(Line0, 4, 23, 'p') && Shape(Line1, 13, 25, 'L') && Shape(Line2, 0, 10, 'P')
    ensures Shape(Line3, 3, 17, 'v') && Shape(Line4, 0, 10, 't') && Shape(Line5, 3, 14, 's')
  {
    Shape0(Line0);
    Shape1(Line1);
    Shape2(Line2);
    Shape3(Line3);
    Shape4(Line4);
    Shape5(Line5);
  }

  /** Part 1 on the sample. */
  lemma ExamplePart1()
    ensures Part1(Example) == Ok(157)
  {
    ExampleShapes();
    SixShapes(Example);
  }
}
