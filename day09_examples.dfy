/** The worked example of the puzzle statement, followed unit step by unit step:
    every `...Move<k>` lemma relates the state before and after instruction `k`,
    each unit step being one `PairStep` / `TenStep` with the knot positions spelled out. */
module Day09Examples {
  import opened Wrappers
  import opened Day09

  /** The eight lines of the example input. */
  const ExampleLines := ["R 4", "U 4", "L 3", "D 1", "R 4", "D 1", "L 5", "R 2"]

  const Example := [Instruction(Right, 4), Instruction(Up, 4), Instruction(Left, 3), Instruction(Down, 1), Instruction(Right, 4), Instruction(Down, 1), Instruction(Left, 5), Instruction(Right, 2)]

  lemma ExampleParses()
    ensures ParseInputData(ExampleLines) == Ok(Example)
  {
    assert ExampleLines == FormatInput(Example) by {
      forall k | 0 <= k < |Example|
        ensures ExampleLines[k] == FormatInstruction(Example[k])
      {
        assert Text.IntToString(Example[k].steps) == [ExampleLines[k][2]];
      }
    }
    ParseFormattedInput(Example);
  }

  /** The whole input and the empty rest of it, as suffixes of `Example`. */
  lemma ExampleEnds()
    ensures Example[0..] == Example && Example[8..] == []
  {
  }

  lemma ExampleTwoKnotsMove0()
    ensures Run(Simulation([Position(0, 0), Position(0, 0)], {}), Example[0..]) == Run(Simulation([Position(4, 0), Position(3, 0)], {Position(0, 0), Position(1, 0), Position(2, 0), Position(3, 0)}), Example[1..])
  {
    assert Example[0..][0] == Instruction(Right, 4);
    assert Example[0..][1..] == Example[1..];
    PairStep(Position(0, 0), Position(0, 0), {}, Right, 4);
    assert {} + {Position(0, 0)} == {Position(0, 0)};
    PairStep(Position(1, 0), Position(0, 0), {Position(0, 0)}, Right, 3);
    assert {Position(0, 0)} + {Position(1, 0)} == {Position(0, 0), Position(1, 0)};
    PairStep(Position(2, 0), Position(1, 0), {Position(0, 0), Position(1, 0)}, Right, 2);
    assert {Position(0, 0), Position(1, 0)} + {Position(2, 0)} == {Position(0, 0), Position(1, 0), Position(2, 0)};
    PairStep(Position(3, 0), Position(2, 0), {Position(0, 0), Position(1, 0), Position(2, 0)}, Right, 1);
    assert {Position(0, 0), Position(1, 0), Position(2, 0)} + {Position(3, 0)} == {Position(0, 0), Position(1, 0), Position(2, 0), Position(3, 0)};
  }

  lemma ExampleTwoKnotsMove1()
    ensures Run(Simulation([Position(4, 0), Position(3, 0)], {Position(0, 0), Position(1, 0), Position(2, 0), Position(3, 0)}), Example[1..]) == Run(Simulation([Position(4, 4), Position(4, 3)], {Position(0, 0), Position(1, 0), Position(2, 0), Position(3, 0), Position(4, 1), Position(4, 2), Position(4, 3)}), Example[2..])
  {
    assert Example[1..][0] == Instruction(Up, 4);
    assert Example[1..][1..] == Example[2..];
    PairStep(Position(4, 0), Position(3, 0), {Position(0, 0), Position(1, 0), Position(2, 0), Position(3, 0)}, Up, 4);
    assert {Position(0, 0), Position(1, 0), Position(2, 0), Position(3, 0)} + {Position(3, 0)} == {Position(0, 0), Position(1, 0), Position(2, 0), Position(3, 0)};
    PairStep(Position(4, 1), Position(3, 0), {Position(0, 0), Position(1, 0), Position(2, 0), Position(3, 0)}, Up, 3);
    assert {Position(0, 0), Position(1, 0), Position(2, 0), Position(3, 0)} + {Position(4, 1)} == {Position(0, 0), Position(1, 0), Position(2, 0), Position(3, 0), Position(4, 1)};
    PairStep(Position(4, 2), Position(4, 1), {Position(0, 0), Position(1, 0), Position(2, 0), Position(3, 0), Position(4, 1)}, Up, 2);
    assert {Position(0, 0), Position(1, 0), Position(2, 0), Position(3, 0), Position(4, 1)} + {Position(4, 2)} == {Position(0, 0), Position(1, 0), Position(2, 0), Position(3, 0), Position(4, 1), Position(4, 2)};
    PairStep(Position(4, 3), Position(4, 2), {Position(0, 0), Position(1, 0), Position(2, 0), Position(3, 0), Position(4, 1), Position(4, 2)}, Up, 1);
    assert {Position(0, 0), Position(1, 0), Position(2, 0), Position(3, 0), Position(4, 1), Position(4, 2)} + {Position(4, 3)} == {Position(0, 0), Position(1, 0), Position(2, 0), Position(3, 0), Position(4, 1), Position(4, 2), Position(4, 3)};
  }

  lemma ExampleTwoKnotsMove2()
    ensures Run(Simulation([Position(4, 4), Position(4, 3)], {Position(0, 0), Position(1, 0), Position(2, 0), Position(3, 0), Position(4, 1), Position(4, 2), Position(4, 3)}), Example[2..]) == Run(Simulation([Position(1, 4), Position(2, 4)], {Position(0, 0), Position(1, 0), Position(2, 0), Position(3, 0), Position(4, 1), Position(4, 2), Position(4, 3), Position(3, 4), Position(2, 4)}), Example[3..])
  {
    assert Example[2..][0] == Instruction(Left, 3);
    assert Example[2..][1..] == Example[3..];
    PairStep(Position(4, 4), Position(4, 3), {Position(0, 0), Position(1, 0), Position(2, 0), Position(3, 0), Position(4, 1), Position(4, 2), Position(4, 3)}, Left, 3);
    assert {Position(0, 0), Position(1, 0), Position(2, 0), Position(3, 0), Position(4, 1), Position(4, 2), Position(4, 3)} + {Position(4, 3)} == {Position(0, 0), Position(1, 0), Position(2, 0), Position(3, 0), Position(4, 1), Position(4, 2), Position(4, 3)};
    PairStep(Position(3, 4), Position(4, 3), {Position(0, 0), Position(1, 0), Position(2, 0), Position(3, 0), Position(4, 1), Position(4, 2), Position(4, 3)}, Left, 2);
    assert {Position(0, 0), Position(1, 0), Position(2, 0), Position(3, 0), Position(4, 1), Position(4, 2), Position(4, 3)} + {Position(3, 4)} == {Position(0, 0), Position(1, 0), Position(2, 0), Position(3, 0), Position(4, 1), Position(4, 2), Position(4, 3), Position(3, 4)};
    PairStep(Position(2, 4), Position(3, 4), {Position(0, 0), Position(1, 0), Position(2, 0), Position(3, 0), Position(4, 1), Position(4, 2), Position(4, 3), Position(3, 4)}, Left, 1);
    assert {Position(0, 0), Position(1, 0), Position(2, 0), Position(3, 0), Position(4, 1), Position(4, 2), Position(4, 3), Position(3, 4)} + {Position(2, 4)} == {Position(0, 0), Position(1, 0), Position(2, 0), Position(3, 0), Position(4, 1), Position(4, 2), Position(4, 3), Position(3, 4), Position(2, 4)};
  }

  lemma ExampleTwoKnotsMove3()
    ensures Run(Simulation([Position(1, 4), Position(2, 4)], {Position(0, 0), Position(1, 0), Position(2, 0), Position(3, 0), Position(4, 1), Position(4, 2), Position(4, 3), Position(3, 4), Position(2, 4)}), Example[3..]) == Run(Simulation([Position(1, 3), Position(2, 4)], {Position(0, 0), Position(1, 0), Position(2, 0), Position(3, 0), Position(4, 1), Position(4, 2), Position(4, 3), Position(3, 4), Position(2, 4)}), Example[4..])
  {
    assert Example[3..][0] == Instruction(Down, 1);
    assert Example[3..][1..] == Example[4..];
    PairStep(Position(1, 4), Position(2, 4), {Position(0, 0), Position(1, 0), Position(2, 0), Position(3, 0), Position(4, 1), Position(4, 2), Position(4, 3), Position(3, 4), Position(2, 4)}, Down, 1);
    assert {Position(0, 0), Position(1, 0), Position(2, 0), Position(3, 0), Position(4, 1), Position(4, 2), Position(4, 3), Position(3, 4), Position(2, 4)} + {Position(2, 4)} == {Position(0, 0), Position(1, 0), Position(2, 0), Position(3, 0), Position(4, 1), Position(4, 2), Position(4, 3), Position(3, 4), Position(2, 4)};
  }

  lemma ExampleTwoKnotsMove4()
    ensures Run(Simulation([Position(1, 3), Position(2, 4)], {Position(0, 0), Position(1, 0), Position(2, 0), Position(3, 0), Position(4, 1), Position(4, 2), Position(4, 3), Position(3, 4), Position(2, 4)}), Example[4..]) == Run(Simulation([Position(5, 3), Position(4, 3)], {Position(0, 0), Position(1, 0), Position(2, 0), Position(3, 0), Position(4, 1), Position(4, 2), Position(4, 3), Position(3, 4), Position(2, 4), Position(3, 3)}), Example[5..])
  {
    assert Example[4..][0] == Instruction(Right, 4);
    assert Example[4..][1..] == Example[5..];
    PairStep(Position(1, 3), Position(2, 4), {Position(0, 0), Position(1, 0), Position(2, 0), Position(3, 0), Position(4, 1), Position(4, 2), Position(4, 3), Position(3, 4), Position(2, 4)}, Right, 4);
    assert {Position(0, 0), Position(1, 0), Position(2, 0), Position(3, 0), Position(4, 1), Position(4, 2), Position(4, 3), Position(3, 4), Position(2, 4)} + {Position(2, 4)} == {Position(0, 0), Position(1, 0), Position(2, 0), Position(3, 0), Position(4, 1), Position(4, 2), Position(4, 3), Position(3, 4), Position(2, 4)};
    PairStep(Position(2, 3), Position(2, 4), {Position(0, 0), Position(1, 0), Position(2, 0), Position(3, 0), Position(4, 1), Position(4, 2), Position(4, 3), Position(3, 4), Position(2, 4)}, Right, 3);
    assert {Position(0, 0), Position(1, 0), Position(2, 0), Position(3, 0), Position(4, 1), Position(4, 2), Position(4, 3), Position(3, 4), Position(2, 4)} + {Position(2, 4)} == {Position(0, 0), Position(1, 0), Position(2, 0), Position(3, 0), Position(4, 1), Position(4, 2), Position(4, 3), Position(3, 4), Position(2, 4)};
    PairStep(Position(3, 3), Position(2, 4), {Position(0, 0), Position(1, 0), Position(2, 0), Position(3, 0), Position(4, 1), Position(4, 2), Position(4, 3), Position(3, 4), Position(2, 4)}, Right, 2);
    assert {Position(0, 0), Position(1, 0), Position(2, 0), Position(3, 0), Position(4, 1), Position(4, 2), Position(4, 3), Position(3, 4), Position(2, 4)} + {Position(3, 3)} == {Position(0, 0), Position(1, 0), Position(2, 0), Position(3, 0), Position(4, 1), Position(4, 2), Position(4, 3), Position(3, 4), Position(2, 4), Position(3, 3)};
    PairStep(Position(4, 3), Position(3, 3), {Position(0, 0), Position(1, 0), Position(2, 0), Position(3, 0), Position(4, 1), Position(4, 2), Position(4, 3), Position(3, 4), Position(2, 4), Position(3, 3)}, Right, 1);
    assert {Position(0, 0), Position(1, 0), Position(2, 0), Position(3, 0), Position(4, 1), Position(4, 2), Position(4, 3), Position(3, 4), Position(2, 4), Position(3, 3)} + {Position(4, 3)} == {Position(0, 0), Position(1, 0), Position(2, 0), Position(3, 0), Position(4, 1), Position(4, 2), Position(4, 3), Position(3, 4), Position(2, 4), Position(3, 3)};
  }

  lemma ExampleTwoKnotsMove5()
    ensures Run(Simulation([Position(5, 3), Position(4, 3)], {Position(0, 0), Position(1, 0), Position(2, 0), Position(3, 0), Position(4, 1), Position(4, 2), Position(4, 3), Position(3, 4), Position(2, 4), Position(3, 3)}), Example[5..]) == Run(Simulation([Position(5, 2), Position(4, 3)], {Position(0, 0), Position(1, 0), Position(2, 0), Position(3, 0), Position(4, 1), Position(4, 2), Position(4, 3), Position(3, 4), Position(2, 4), Position(3, 3)}), Example[6..])
  {
    assert Example[5..][0] == Instruction(Down, 1);
    assert Example[5..][1..] == Example[6..];
    PairStep(Position(5, 3), Position(4, 3), {Position(0, 0), Position(1, 0), Position(2, 0), Position(3, 0), Position(4, 1), Position(4, 2), Position(4, 3), Position(3, 4), Position(2, 4), Position(3, 3)}, Down, 1);
    assert {Position(0, 0), Position(1, 0), Position(2, 0), Position(3, 0), Position(4, 1), Position(4, 2), Position(4, 3), Position(3, 4), Position(2, 4), Position(3, 3)} + {Position(4, 3)} == {Position(0, 0), Position(1, 0), Position(2, 0), Position(3, 0), Position(4, 1), Position(4, 2), Position(4, 3), Position(3, 4), Position(2, 4), Position(3, 3)};
  }

  lemma ExampleTwoKnotsMove6()
    ensures Run(Simulation([Position(5, 2), Position(4, 3)], {Position(0, 0), Position(1, 0), Position(2, 0), Position(3, 0), Position(4, 1), Position(4, 2), Position(4, 3), Position(3, 4), Position(2, 4), Position(3, 3)}), Example[6..]) == Run(Simulation([Position(0, 2), Position(1, 2)], {Position(0, 0), Position(1, 0), Position(2, 0), Position(3, 0), Position(4, 1), Position(4, 2), Position(4, 3), Position(3, 4), Position(2, 4), Position(3, 3), Position(3, 2), Position(2, 2), Position(1, 2)}), Example[7..])
  {
    assert Example[6..][0] == Instruction(Left, 5);
    assert Example[6..][1..] == Example[7..];
    PairStep(Position(5, 2), Position(4, 3), {Position(0, 0), Position(1, 0), Position(2, 0), Position(3, 0), Position(4, 1), Position(4, 2), Position(4, 3), Position(3, 4), Position(2, 4), Position(3, 3)}, Left, 5);
    assert {Position(0, 0), Position(1, 0), Position(2, 0), Position(3, 0), Position(4, 1), Position(4, 2), Position(4, 3), Position(3, 4), Position(2, 4), Position(3, 3)} + {Position(4, 3)} == {Position(0, 0), Position(1, 0), Position(2, 0), Position(3, 0), Position(4, 1), Position(4, 2), Position(4, 3), Position(3, 4), Position(2, 4), Position(3, 3)};
    PairStep(Position(4, 2), Position(4, 3), {Position(0, 0), Position(1, 0), Position(2, 0), Position(3, 0), Position(4, 1), Position(4, 2), Position(4, 3), Position(3, 4), Position(2, 4), Position(3, 3)}, Left, 4);
    assert {Position(0, 0), Position(1, 0), Position(2, 0), Position(3, 0), Position(4, 1), Position(4, 2), Position(4, 3), Position(3, 4), Position(2, 4), Position(3, 3)} + {Position(4, 3)} == {Position(0, 0), Position(1, 0), Position(2, 0), Position(3, 0), Position(4, 1), Position(4, 2), Position(4, 3), Position(3, 4), Position(2, 4), Position(3, 3)};
    PairStep(Position(3, 2), Position(4, 3), {Position(0, 0), Position(1, 0), Position(2, 0), Position(3, 0), Position(4, 1), Position(4, 2), Position(4, 3), Position(3, 4), Position(2, 4), Position(3, 3)}, Left, 3);
    assert {Position(0, 0), Position(1, 0), Position(2, 0), Position(3, 0), Position(4, 1), Position(4, 2), Position(4, 3), Position(3, 4), Position(2, 4), Position(3, 3)} + {Position(3, 2)} == {Position(0, 0), Position(1, 0), Position(2, 0), Position(3, 0), Position(4, 1), Position(4, 2), Position(4, 3), Position(3, 4), Position(2, 4), Position(3, 3), Position(3, 2)};
    PairStep(Position(2, 2), Position(3, 2), {Position(0, 0), Position(1, 0), Position(2, 0), Position(3, 0), Position(4, 1), Position(4, 2), Position(4, 3), Position(3, 4), Position(2, 4), Position(3, 3), Position(3, 2)}, Left, 2);
    assert {Position(0, 0), Position(1, 0), Position(2, 0), Position(3, 0), Position(4, 1), Position(4, 2), Position(4, 3), Position(3, 4), Position(2, 4), Position(3, 3), Position(3, 2)} + {Position(2, 2)} == {Position(0, 0), Position(1, 0), Position(2, 0), Position(3, 0), Position(4, 1), Position(4, 2), Position(4, 3), Position(3, 4), Position(2, 4), Position(3, 3), Position(3, 2), Position(2, 2)};
    PairStep(Position(1, 2), Position(2, 2), {Position(0, 0), Position(1, 0), Position(2, 0), Position(3, 0), Position(4, 1), Position(4, 2), Position(4, 3), Position(3, 4), Position(2, 4), Position(3, 3), Position(3, 2), Position(2, 2)}, Left, 1);
    assert {Position(0, 0), Position(1, 0), Position(2, 0), Position(3, 0), Position(4, 1), Position(4, 2), Position(4, 3), Position(3, 4), Position(2, 4), Position(3, 3), Position(3, 2), Position(2, 2)} + {Position(1, 2)} == {Position(0, 0), Position(1, 0), Position(2, 0), Position(3, 0), Position(4, 1), Position(4, 2), Position(4, 3), Position(3, 4), Position(2, 4), Position(3, 3), Position(3, 2), Position(2, 2), Position(1, 2)};
  }

  lemma ExampleTwoKnotsMove7()
    ensures Run(Simulation([Position(0, 2), Position(1, 2)], {Position(0, 0), Position(1, 0), Position(2, 0), Position(3, 0), Position(4, 1), Position(4, 2), Position(4, 3), Position(3, 4), Position(2, 4), Position(3, 3), Position(3, 2), Position(2, 2), Position(1, 2)}), Example[7..]) == Run(Simulation([Position(2, 2), Position(1, 2)], {Position(0, 0), Position(1, 0), Position(2, 0), Position(3, 0), Position(4, 1), Position(4, 2), Position(4, 3), Position(3, 4), Position(2, 4), Position(3, 3), Position(3, 2), Position(2, 2), Position(1, 2)}), Example[8..])
  {
    assert Example[7..][0] == Instruction(Right, 2);
    assert Example[7..][1..] == Example[8..];
    PairStep(Position(0, 2), Position(1, 2), {Position(0, 0), Position(1, 0), Position(2, 0), Position(3, 0), Position(4, 1), Position(4, 2), Position(4, 3), Position(3, 4), Position(2, 4), Position(3, 3), Position(3, 2), Position(2, 2), Position(1, 2)}, Right, 2);
    assert {Position(0, 0), Position(1, 0), Position(2, 0), Position(3, 0), Position(4, 1), Position(4, 2), Position(4, 3), Position(3, 4), Position(2, 4), Position(3, 3), Position(3, 2), Position(2, 2), Position(1, 2)} + {Position(1, 2)} == {Position(0, 0), Position(1, 0), Position(2, 0), Position(3, 0), Position(4, 1), Position(4, 2), Position(4, 3), Position(3, 4), Position(2, 4), Position(3, 3), Position(3, 2), Position(2, 2), Position(1, 2)};
    PairStep(Position(1, 2), Position(1, 2), {Position(0, 0), Position(1, 0), Position(2, 0), Position(3, 0), Position(4, 1), Position(4, 2), Position(4, 3), Position(3, 4), Position(2, 4), Position(3, 3), Position(3, 2), Position(2, 2), Position(1, 2)}, Right, 1);
    assert {Position(0, 0), Position(1, 0), Position(2, 0), Position(3, 0), Position(4, 1), Position(4, 2), Position(4, 3), Position(3, 4), Position(2, 4), Position(3, 3), Position(3, 2), Position(2, 2), Position(1, 2)} + {Position(1, 2)} == {Position(0, 0), Position(1, 0), Position(2, 0), Position(3, 0), Position(4, 1), Position(4, 2), Position(4, 3), Position(3, 4), Position(2, 4), Position(3, 3), Position(3, 2), Position(2, 2), Position(1, 2)};
  }

  lemma ExampleTwoKnotsRun()
    ensures Run(Start(2), Example) == Simulation([Position(2, 2), Position(1, 2)], {Position(0, 0), Position(1, 0), Position(2, 0), Position(3, 0), Position(4, 1), Position(4, 2), Position(4, 3), Position(3, 4), Position(2, 4), Position(3, 3), Position(3, 2), Position(2, 2), Position(1, 2)})
  {
    assert Start(2) == Simulation([Position(0, 0), Position(0, 0)], {});
    ExampleEnds();
    ExampleTwoKnotsMove0();
    ExampleTwoKnotsMove1();
    ExampleTwoKnotsMove2();
    ExampleTwoKnotsMove3();
    ExampleTwoKnotsMove4();
    ExampleTwoKnotsMove5();
    ExampleTwoKnotsMove6();
    ExampleTwoKnotsMove7();
  }

  lemma ExampleTwoKnots()
    ensures TailVisits(2, Example) == 13
  {
    ExampleTwoKnotsRun();
    ExampleTwoKnotsCount();
  }

  lemma ExampleTwoKnotsCount()
    ensures |{Position(0, 0), Position(1, 0), Position(2, 0), Position(3, 0), Position(4, 1), Position(4, 2), Position(4, 3), Position(3, 4), Position(2, 4), Position(3, 3), Position(3, 2), Position(2, 2), Position(1, 2)}| == 13
  {
  }

  lemma ExampleTenKnotsMove0()
    ensures Run(Simulation([Position(0, 0), Position(0, 0), Position(0, 0), Position(0, 0), Position(0, 0), Position(0, 0), Position(0, 0), Position(0, 0), Position(0, 0), Position(0, 0)], {}), Example[0..]) == Run(Simulation([Position(4, 0), Position(3, 0), Position(2, 0), Position(1, 0), Position(0, 0), Position(0, 0), Position(0, 0), Position(0, 0), Position(0, 0), Position(0, 0)], {Position(0, 0)}), Example[1..])
  {
    assert Example[0..][0] == Instruction(Right, 4);
    assert Example[0..][1..] == Example[1..];
    TenStep(Position(0, 0), Position(0, 0), Position(0, 0), Position(0, 0), Position(0, 0), Position(0, 0), Position(0, 0), Position(0, 0), Position(0, 0), Position(0, 0),
            Position(1, 0), Position(0, 0), Position(0, 0), Position(0, 0), Position(0, 0), Position(0, 0), Position(0, 0), Position(0, 0), Position(0, 0), Position(0, 0),
            {}, Right, 4);
    assert {} + {Position(0, 0)} == {Position(0, 0)};
    TenStep(Position(1, 0), Position(0, 0), Position(0, 0), Position(0, 0), Position(0, 0), Position(0, 0), Position(0, 0), Position(0, 0), Position(0, 0), Position(0, 0),
            Position(2, 0), Position(1, 0), Position(0, 0), Position(0, 0), Position(0, 0), Position(0, 0), Position(0, 0), Position(0, 0), Position(0, 0), Position(0, 0),
            {Position(0, 0)}, Right, 3);
    assert {Position(0, 0)} + {Position(0, 0)} == {Position(0, 0)};
    TenStep(Position(2, 0), Position(1, 0), Position(0, 0), Position(0, 0), Position(0, 0), Position(0, 0), Position(0, 0), Position(0, 0), Position(0, 0), Position(0, 0),
            Position(3, 0), Position(2, 0), Position(1, 0), Position(0, 0), Position(0, 0), Position(0, 0), Position(0, 0), Position(0, 0), Position(0, 0), Position(0, 0),
            {Position(0, 0)}, Right, 2);
    assert {Position(0, 0)} + {Position(0, 0)} == {Position(0, 0)};
    TenStep(Position(3, 0), Position(2, 0), Position(1, 0), Position(0, 0), Position(0, 0), Position(0, 0), Position(0, 0), Position(0, 0), Position(0, 0), Position(0, 0),
            Position(4, 0), Position(3, 0), Position(2, 0), Position(1, 0), Position(0, 0), Position(0, 0), Position(0, 0), Position(0, 0), Position(0, 0), Position(0, 0),
            {Position(0, 0)}, Right, 1);
    assert {Position(0, 0)} + {Position(0, 0)} == {Position(0, 0)};
  }

  lemma ExampleTenKnotsMove1()
    ensures Run(Simulation([Position(4, 0), Position(3, 0), Position(2, 0), Position(1, 0), Position(0, 0), Position(0, 0), Position(0, 0), Position(0, 0), Position(0, 0), Position(0, 0)], {Position(0, 0)}), Example[1..]) == Run(Simulation([Position(4, 4), Position(4, 3), Position(4, 2), Position(3, 2), Position(2, 2), Position(1, 1), Position(0, 0), Position(0, 0), Position(0, 0), Position(0, 0)], {Position(0, 0)}), Example[2..])
  {
    assert Example[1..][0] == Instruction(Up, 4);
    assert Example[1..][1..] == Example[2..];
    TenStep(Position(4, 0), Position(3, 0), Position(2, 0), Position(1, 0), Position(0, 0), Position(0, 0), Position(0, 0), Position(0, 0), Position(0, 0), Position(0, 0),
            Position(4, 1), Position(3, 0), Position(2, 0), Position(1, 0), Position(0, 0), Position(0, 0), Position(0, 0), Position(0, 0), Position(0, 0), Position(0, 0),
            {Position(0, 0)}, Up, 4);
    assert {Position(0, 0)} + {Position(0, 0)} == {Position(0, 0)};
    TenStep(Position(4, 1), Position(3, 0), Position(2, 0), Position(1, 0), Position(0, 0), Position(0, 0), Position(0, 0), Position(0, 0), Position(0, 0), Position(0, 0),
            Position(4, 2), Position(4, 1), Position(3, 1), Position(2, 1), Position(1, 1), Position(0, 0), Position(0, 0), Position(0, 0), Position(0, 0), Position(0, 0),
            {Position(0, 0)}, Up, 3);
    assert {Position(0, 0)} + {Position(0, 0)} == {Position(0, 0)};
    TenStep(Position(4, 2), Position(4, 1), Position(3, 1), Position(2, 1), Position(1, 1), Position(0, 0), Position(0, 0), Position(0, 0), Position(0, 0), Position(0, 0),
            Position(4, 3), Position(4, 2), Position(3, 1), Position(2, 1), Position(1, 1), Position(0, 0), Position(0, 0), Position(0, 0), Position(0, 0), Position(0, 0),
            {Position(0, 0)}, Up, 2);
    assert {Position(0, 0)} + {Position(0, 0)} == {Position(0, 0)};
    TenStep(Position(4, 3), Position(4, 2), Position(3, 1), Position(2, 1), Position(1, 1), Position(0, 0), Position(0, 0), Position(0, 0), Position(0, 0), Position(0, 0),
            Position(4, 4), Position(4, 3), Position(4, 2), Position(3, 2), Position(2, 2), Position(1, 1), Position(0, 0), Position(0, 0), Position(0, 0), Position(0, 0),
            {Position(0, 0)}, Up, 1);
    assert {Position(0, 0)} + {Position(0, 0)} == {Position(0, 0)};
  }

  lemma ExampleTenKnotsMove2()
    ensures Run(Simulation([Position(4, 4), Position(4, 3), Position(4, 2), Position(3, 2), Position(2, 2), Position(1, 1), Position(0, 0), Position(0, 0), Position(0, 0), Position(0, 0)], {Position(0, 0)}), Example[2..]) == Run(Simulation([Position(1, 4), Position(2, 4), Position(3, 3), Position(3, 2), Position(2, 2), Position(1, 1), Position(0, 0), Position(0, 0), Position(0, 0), Position(0, 0)], {Position(0, 0)}), Example[3..])
  {
    assert Example[2..][0] == Instruction(Left, 3);
    assert Example[2..][1..] == Example[3..];
    TenStep(Position(4, 4), Position(4, 3), Position(4, 2), Position(3, 2), Position(2, 2), Position(1, 1), Position(0, 0), Position(0, 0), Position(0, 0), Position(0, 0),
            Position(3, 4), Position(4, 3), Position(4, 2), Position(3, 2), Position(2, 2), Position(1, 1), Position(0, 0), Position(0, 0), Position(0, 0), Position(0, 0),
            {Position(0, 0)}, Left, 3);
    assert {Position(0, 0)} + {Position(0, 0)} == {Position(0, 0)};
    TenStep(Position(3, 4), Position(4, 3), Position(4, 2), Position(3, 2), Position(2, 2), Position(1, 1), Position(0, 0), Position(0, 0), Position(0, 0), Position(0, 0),
            Position(2, 4), Position(3, 4), Position(3, 3), Position(3, 2), Position(2, 2), Position(1, 1), Position(0, 0), Position(0, 0), Position(0, 0), Position(0, 0),
            {Position(0, 0)}, Left, 2);
    assert {Position(0, 0)} + {Position(0, 0)} == {Position(0, 0)};
    TenStep(Position(2, 4), Position(3, 4), Position(3, 3), Position(3, 2), Position(2, 2), Position(1, 1), Position(0, 0), Position(0, 0), Position(0, 0), Position(0, 0),
            Position(1, 4), Position(2, 4), Position(3, 3), Position(3, 2), Position(2, 2), Position(1, 1), Position(0, 0), Position(0, 0), Position(0, 0), Position(0, 0),
            {Position(0, 0)}, Left, 1);
    assert {Position(0, 0)} + {Position(0, 0)} == {Position(0, 0)};
  }

  lemma ExampleTenKnotsMove3()
    ensures Run(Simulation([Position(1, 4), Position(2, 4), Position(3, 3), Position(3, 2), Position(2, 2), Position(1, 1), Position(0, 0), Position(0, 0), Position(0, 0), Position(0, 0)], {Position(0, 0)}), Example[3..]) == Run(Simulation([Position(1, 3), Position(2, 4), Position(3, 3), Position(3, 2), Position(2, 2), Position(1, 1), Position(0, 0), Position(0, 0), Position(0, 0), Position(0, 0)], {Position(0, 0)}), Example[4..])
  {
    assert Example[3..][0] == Instruction(Down, 1);
    assert Example[3..][1..] == Example[4..];
    TenStep(Position(1, 4), Position(2, 4), Position(3, 3), Position(3, 2), Position(2, 2), Position(1, 1), Position(0, 0), Position(0, 0), Position(0, 0), Position(0, 0),
            Position(1, 3), Position(2, 4), Position(3, 3), Position(3, 2), Position(2, 2), Position(1, 1), Position(0, 0), Position(0, 0), Position(0, 0), Position(0, 0),
            {Position(0, 0)}, Down, 1);
    assert {Position(0, 0)} + {Position(0, 0)} == {Position(0, 0)};
  }

  lemma ExampleTenKnotsMove4()
    ensures Run(Simulation([Position(1, 3), Position(2, 4), Position(3, 3), Position(3, 2), Position(2, 2), Position(1, 1), Position(0, 0), Position(0, 0), Position(0, 0), Position(0, 0)], {Position(0, 0)}), Example[4..]) == Run(Simulation([Position(5, 3), Position(4, 3), Position(3, 3), Position(3, 2), Position(2, 2), Position(1, 1), Position(0, 0), Position(0, 0), Position(0, 0), Position(0, 0)], {Position(0, 0)}), Example[5..])
  {
    assert Example[4..][0] == Instruction(Right, 4);
    assert Example[4..][1..] == Example[5..];
    TenStep(Position(1, 3), Position(2, 4), Position(3, 3), Position(3, 2), Position(2, 2), Position(1, 1), Position(0, 0), Position(0, 0), Position(0, 0), Position(0, 0),
            Position(2, 3), Position(2, 4), Position(3, 3), Position(3, 2), Position(2, 2), Position(1, 1), Position(0, 0), Position(0, 0), Position(0, 0), Position(0, 0),
            {Position(0, 0)}, Right, 4);
    assert {Position(0, 0)} + {Position(0, 0)} == {Position(0, 0)};
    TenStep(Position(2, 3), Position(2, 4), Position(3, 3), Position(3, 2), Position(2, 2), Position(1, 1), Position(0, 0), Position(0, 0), Position(0, 0), Position(0, 0),
            Position(3, 3), Position(2, 4), Position(3, 3), Position(3, 2), Position(2, 2), Position(1, 1), Position(0, 0), Position(0, 0), Position(0, 0), Position(0, 0),
            {Position(0, 0)}, Right, 3);
    assert {Position(0, 0)} + {Position(0, 0)} == {Position(0, 0)};
    TenStep(Position(3, 3), Position(2, 4), Position(3, 3), Position(3, 2), Position(2, 2), Position(1, 1), Position(0, 0), Position(0, 0), Position(0, 0), Position(0, 0),
            Position(4, 3), Position(3, 3), Position(3, 3), Position(3, 2), Position(2, 2), Position(1, 1), Position(0, 0), Position(0, 0), Position(0, 0), Position(0, 0),
            {Position(0, 0)}, Right, 2);
    assert {Position(0, 0)} + {Position(0, 0)} == {Position(0, 0)};
    TenStep(Position(4, 3), Position(3, 3), Position(3, 3), Position(3, 2), Position(2, 2), Position(1, 1), Position(0, 0), Position(0, 0), Position(0, 0), Position(0, 0),
            Position(5, 3), Position(4, 3), Position(3, 3), Position(3, 2), Position(2, 2), Position(1, 1), Position(0, 0), Position(0, 0), Position(0, 0), Position(0, 0),
            {Position(0, 0)}, Right, 1);
    assert {Position(0, 0)} + {Position(0, 0)} == {Position(0, 0)};
  }

  lemma ExampleTenKnotsMove5()
    ensures Run(Simulation([Position(5, 3), Position(4, 3), Position(3, 3), Position(3, 2), Position(2, 2), Position(1, 1), Position(0, 0), Position(0, 0), Position(0, 0), Position(0, 0)], {Position(0, 0)}), Example[5..]) == Run(Simulation([Position(5, 2), Position(4, 3), Position(3, 3), Position(3, 2), Position(2, 2), Position(1, 1), Position(0, 0), Position(0, 0), Position(0, 0), Position(0, 0)], {Position(0, 0)}), Example[6..])
  {
    assert Example[5..][0] == Instruction(Down, 1);
    assert Example[5..][1..] == Example[6..];
    TenStep(Position(5, 3), Position(4, 3), Position(3, 3), Position(3, 2), Position(2, 2), Position(1, 1), Position(0, 0), Position(0, 0), Position(0, 0), Position(0, 0),
            Position(5, 2), Position(4, 3), Position(3, 3), Position(3, 2), Position(2, 2), Position(1, 1), Position(0, 0), Position(0, 0), Position(0, 0), Position(0, 0),
            {Position(0, 0)}, Down, 1);
    assert {Position(0, 0)} + {Position(0, 0)} == {Position(0, 0)};
  }

  lemma ExampleTenKnotsMove6()
    ensures Run(Simulation([Position(5, 2), Position(4, 3), Position(3, 3), Position(3, 2), Position(2, 2), Position(1, 1), Position(0, 0), Position(0, 0), Position(0, 0), Position(0, 0)], {Position(0, 0)}), Example[6..]) == Run(Simulation([Position(0, 2), Position(1, 2), Position(2, 2), Position(3, 2), Position(2, 2), Position(1, 1), Position(0, 0), Position(0, 0), Position(0, 0), Position(0, 0)], {Position(0, 0)}), Example[7..])
  {
    assert Example[6..][0] == Instruction(Left, 5);
    assert Example[6..][1..] == Example[7..];
    TenStep(Position(5, 2), Position(4, 3), Position(3, 3), Position(3, 2), Position(2, 2), Position(1, 1), Position(0, 0), Position(0, 0), Position(0, 0), Position(0, 0),
            Position(4, 2), Position(4, 3), Position(3, 3), Position(3, 2), Position(2, 2), Position(1, 1), Position(0, 0), Position(0, 0), Position(0, 0), Position(0, 0),
            {Position(0, 0)}, Left, 5);
    assert {Position(0, 0)} + {Position(0, 0)} == {Position(0, 0)};
    TenStep(Position(4, 2), Position(4, 3), Position(3, 3), Position(3, 2), Position(2, 2), Position(1, 1), Position(0, 0), Position(0, 0), Position(0, 0), Position(0, 0),
            Position(3, 2), Position(4, 3), Position(3, 3), Position(3, 2), Position(2, 2), Position(1, 1), Position(0, 0), Position(0, 0), Position(0, 0), Position(0, 0),
            {Position(0, 0)}, Left, 4);
    assert {Position(0, 0)} + {Position(0, 0)} == {Position(0, 0)};
    TenStep(Position(3, 2), Position(4, 3), Position(3, 3), Position(3, 2), Position(2, 2), Position(1, 1), Position(0, 0), Position(0, 0), Position(0, 0), Position(0, 0),
            Position(2, 2), Position(3, 2), Position(3, 3), Position(3, 2), Position(2, 2), Position(1, 1), Position(0, 0), Position(0, 0), Position(0, 0), Position(0, 0),
            {Position(0, 0)}, Left, 3);
    assert {Position(0, 0)} + {Position(0, 0)} == {Position(0, 0)};
    TenStep(Position(2, 2), Position(3, 2), Position(3, 3), Position(3, 2), Position(2, 2), Position(1, 1), Position(0, 0), Position(0, 0), Position(0, 0), Position(0, 0),
            Position(1, 2), Position(2, 2), Position(3, 3), Position(3, 2), Position(2, 2), Position(1, 1), Position(0, 0), Position(0, 0), Position(0, 0), Position(0, 0),
            {Position(0, 0)}, Left, 2);
    assert {Position(0, 0)} + {Position(0, 0)} == {Position(0, 0)};
    TenStep(Position(1, 2), Position(2, 2), Position(3, 3), Position(3, 2), Position(2, 2), Position(1, 1), Position(0, 0), Position(0, 0), Position(0, 0), Position(0, 0),
            Position(0, 2), Position(1, 2), Position(2, 2), Position(3, 2), Position(2, 2), Position(1, 1), Position(0, 0), Position(0, 0), Position(0, 0), Position(0, 0),
            {Position(0, 0)}, Left, 1);
    assert {Position(0, 0)} + {Position(0, 0)} == {Position(0, 0)};
  }

  lemma ExampleTenKnotsMove7()
    ensures Run(Simulation([Position(0, 2), Position(1, 2), Position(2, 2), Position(3, 2), Position(2, 2), Position(1, 1), Position(0, 0), Position(0, 0), Position(0, 0), Position(0, 0)], {Position(0, 0)}), Example[7..]) == Run(Simulation([Position(2, 2), Position(1, 2), Position(2, 2), Position(3, 2), Position(2, 2), Position(1, 1), Position(0, 0), Position(0, 0), Position(0, 0), Position(0, 0)], {Position(0, 0)}), Example[8..])
  {
    assert Example[7..][0] == Instruction(Right, 2);
    assert Example[7..][1..] == Example[8..];
    TenStep(Position(0, 2), Position(1, 2), Position(2, 2), Position(3, 2), Position(2, 2), Position(1, 1), Position(0, 0), Position(0, 0), Position(0, 0), Position(0, 0),
            Position(1, 2), Position(1, 2), Position(2, 2), Position(3, 2), Position(2, 2), Position(1, 1), Position(0, 0), Position(0, 0), Position(0, 0), Position(0, 0),
            {Position(0, 0)}, Right, 2);
    assert {Position(0, 0)} + {Position(0, 0)} == {Position(0, 0)};
    TenStep(Position(1, 2), Position(1, 2), Position(2, 2), Position(3, 2), Position(2, 2), Position(1, 1), Position(0, 0), Position(0, 0), Position(0, 0), Position(0, 0),
            Position(2, 2), Position(1, 2), Position(2, 2), Position(3, 2), Position(2, 2), Position(1, 1), Position(0, 0), Position(0, 0), Position(0, 0), Position(0, 0),
            {Position(0, 0)}, Right, 1);
    assert {Position(0, 0)} + {Position(0, 0)} == {Position(0, 0)};
  }

  lemma ExampleTenKnotsRun()
    ensures Run(Start(10), Example) == Simulation([Position(2, 2), Position(1, 2), Position(2, 2), Position(3, 2), Position(2, 2), Position(1, 1), Position(0, 0), Position(0, 0), Position(0, 0), Position(0, 0)], {Position(0, 0)})
  {
    assert Start(10) == Simulation([Position(0, 0), Position(0, 0), Position(0, 0), Position(0, 0), Position(0, 0), Position(0, 0), Position(0, 0), Position(0, 0), Position(0, 0), Position(0, 0)], {});
    ExampleEnds();
    ExampleTenKnotsMove0();
    ExampleTenKnotsMove1();
    ExampleTenKnotsMove2();
    ExampleTenKnotsMove3();
    ExampleTenKnotsMove4();
    ExampleTenKnotsMove5();
    ExampleTenKnotsMove6();
    ExampleTenKnotsMove7();
  }

  lemma ExampleTenKnots()
    ensures TailVisits(10, Example) == 1
  {
    ExampleTenKnotsRun();
    ExampleTenKnotsCount();
  }

  lemma ExampleTenKnotsCount()
    ensures |{Position(0, 0)}| == 1
  {
  }
}
