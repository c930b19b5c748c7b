/** The worked example of the puzzle statement. */
module Day05Examples {
  import opened Wrappers
  import opened Day05

  const Drawing := ["    [D]    ", "[N] [C]    ", "[Z] [M] [P]", " 1   2   3 "]

  const MoveLines := ["move 1 from 2 to 1", "move 3 from 1 to 3", "move 2 from 2 to 1", "move 1 from 1 to 2"]

  const ExampleLines := Drawing + [""] + MoveLines

  const Moves := [Move(1, 2, 1), Move(3, 1, 3), Move(2, 2, 1), Move(1, 1, 2)]

  lemma ExampleSplit()
    ensures SplitInput(ExampleLines) == Ok((Drawing, MoveLines))
  {
    assert "" !in Drawing;
    assert "" !in MoveLines;
    SplitInputOf(Drawing, MoveLines, []);
    assert ExampleLines == Drawing + [""] + MoveLines + [];
  }

  /** A column of three rows: the crate of the bottom row first. */
  lemma ThreeRowColumn(rows: seq<string>, col: nat)
    requires |rows| == 3 && forall k :: 0 <= k < 3 ==> col < |rows[k]|
    ensures Column(rows, col) == Crate(rows[2][col]) + Crate(rows[1][col]) + Crate(rows[0][col])
  {
    var upper := rows[..2];
    assert upper[..1] == [rows[0]] && upper[1] == rows[1];
    assert [rows[0]][..0] == [];
    assert Column([rows[0]], col) == Crate(rows[0][col]) + Column([], col);
    assert Column(upper, col) == Crate(rows[1][col]) + Column([rows[0]], col);
  }

  /** The drawing is 11 characters wide, so it has three stacks, read from columns 1, 5
      and 9 of the rows above the labels. */
  lemma StacksOfDrawing(drawing: seq<string>)
    requires drawing == Drawing
    ensures StacksOf(drawing) == Ok([Column(drawing[..3], 1), Column(drawing[..3], 5), Column(drawing[..3], 9)])
  {
    assert |drawing[0]| == 11 && AllWidth(drawing, 11);
    var rows := drawing[..3];
    assert drawing[..|drawing| - 1] == rows;
    var stacks := StacksOf(drawing).value;
    assert |stacks| == 3;
    assert stacks[0] == StackAt(rows, 11, 0) == Column(rows, 1);
    assert stacks[1] == StackAt(rows, 11, 1) == Column(rows, 5);
    assert stacks[2] == StackAt(rows, 11, 2) == Column(rows, 9);
    assert stacks == [Column(rows, 1), Column(rows, 5), Column(rows, 9)];
  }

  lemma FirstColumn(rows: seq<string>)
    requires rows == ["    [D]    ", "[N] [C]    ", "[Z] [M] [P]"]
    ensures Column(rows, 1) == ['Z', 'N']
  {
    ThreeRowColumn(rows, 1);
    assert rows[2][1] == 'Z' && rows[1][1] == 'N' && rows[0][1] == ' ';
  }

  lemma SecondColumn(rows: seq<string>)
    requires rows == ["    [D]    ", "[N] [C]    ", "[Z] [M] [P]"]
    ensures Column(rows, 5) == ['M', 'C', 'D']
  {
    ThreeRowColumn(rows, 5);
    assert rows[2][5] == 'M' && rows[1][5] == 'C' && rows[0][5] == 'D';
  }

  lemma ThirdColumn(rows: seq<string>)
    requires rows == ["    [D]    ", "[N] [C]    ", "[Z] [M] [P]"]
    ensures Column(rows, 9) == ['P']
  {
    ThreeRowColumn(rows, 9);
    assert rows[2][9] == 'P' && rows[1][9] == ' ' && rows[0][9] == ' ';
  }

  /** Stack 1 holds Z under N, stack 2 M under C under D, stack 3 only P. */
  lemma ExampleStacks()
    ensures StacksOf(Drawing) == Ok([['Z', 'N'], ['M', 'C', 'D'], ['P']])
  {
    StacksOfDrawing(Drawing);
    var rows := Drawing[..3];
    assert rows == ["    [D]    ", "[N] [C]    ", "[Z] [M] [P]"];
    FirstColumn(rows);
    SecondColumn(rows);
    ThirdColumn(rows);
  }

  lemma ExampleMoves()
    ensures ParseMoves(MoveLines) == Ok(Moves)
  {
    assert FormatMoves(Moves) == MoveLines by {
      ExampleLine(1, 2, 1);
      ExampleLine(3, 1, 3);
      ExampleLine(2, 2, 1);
      ExampleLine(1, 1, 2);
    }
    ParseFormattedMoves(Moves);
  }

  lemma JoinCons(first: string, rest: seq<string>)
    requires rest != []
    ensures Text.JoinWith([first] + rest, ' ') == first + " " + Text.JoinWith(rest, ' ')
  {
    assert ([first] + rest)[1..] == rest;
  }

  lemma FormatSmallMove(m: Move)
    requires m.count < 10 && m.from < 10 && m.to < 10
    ensures FormatMove(m) == "move " + [Text.DigitChar(m.count)] + " from " + [Text.DigitChar(m.from)]
                             + " to " + [Text.DigitChar(m.to)]
  {
    var c, f, t := [Text.DigitChar(m.count)], [Text.DigitChar(m.from)], [Text.DigitChar(m.to)];
    assert Text.NatToString(m.count) == c && Text.NatToString(m.from) == f && Text.NatToString(m.to) == t;
    assert Text.JoinWith([t], ' ') == t;
    JoinCons("to", [t]);
    JoinCons(f, ["to", t]);
    JoinCons("from", [f, "to", t]);
    JoinCons(c, ["from", f, "to", t]);
    JoinCons("move", [c, "from", f, "to", t]);
  }

  lemma ExampleLine(count: nat, from: nat, to: nat)
    requires count < 10 && from < 10 && to < 10
    ensures FormatMove(Move(count, from, to))
            == ['m', 'o', 'v', 'e', ' ', Text.DigitChar(count), ' ', 'f', 'r', 'o', 'm', ' ',
                Text.DigitChar(from), ' ', 't', 'o', ' ', Text.DigitChar(to)]
  {
    FormatSmallMove(Move(count, from, to));
  }

  lemma ExampleRearrange()
    ensures Rearrange([['Z', 'N'], ['M', 'C', 'D'], ['P']], Moves) == Ok([['C'], ['M'], ['P', 'D', 'N', 'Z']])
  {
    ExampleStep0();
    ExampleStep1();
    ExampleStep2();
    ExampleStep3();
    assert Moves[1..][1..][1..][1..] == [];
  }

  lemma ExampleStep0()
    ensures CrateMoves([['Z', 'N'], ['M', 'C', 'D'], ['P']], 2, 1, 1) == Ok([['Z', 'N', 'D'], ['M', 'C'], ['P']])
  {
    var before: seq<Stack> := [['Z', 'N'], ['M', 'C', 'D'], ['P']];
    var after: seq<Stack> := [['Z', 'N', 'D'], ['M', 'C'], ['P']];
    var source := before[1];
    var taken := source[|source| - 1..];
    assert Reverse(taken) == after[0][|before[0]|..];
    assert after[0] == before[0] + after[0][|before[0]|..];
    ExampleMove(before, 2, 1, 1, after);
  }

  lemma ExampleStep1()
    ensures CrateMoves([['Z', 'N', 'D'], ['M', 'C'], ['P']], 1, 3, 3) == Ok([[], ['M', 'C'], ['P', 'D', 'N', 'Z']])
  {
    var before: seq<Stack> := [['Z', 'N', 'D'], ['M', 'C'], ['P']];
    var after: seq<Stack> := [[], ['M', 'C'], ['P', 'D', 'N', 'Z']];
    var source := before[0];
    var taken := source[|source| - 3..];
    assert Reverse(taken) == after[2][|before[2]|..];
    assert after[2] == before[2] + after[2][|before[2]|..];
    ExampleMove(before, 1, 3, 3, after);
  }

  lemma ExampleStep2()
    ensures CrateMoves([[], ['M', 'C'], ['P', 'D', 'N', 'Z']], 2, 1, 2) == Ok([['C', 'M'], [], ['P', 'D', 'N', 'Z']])
  {
    var before: seq<Stack> := [[], ['M', 'C'], ['P', 'D', 'N', 'Z']];
    var after: seq<Stack> := [['C', 'M'], [], ['P', 'D', 'N', 'Z']];
    var source := before[1];
    var taken := source[|source| - 2..];
    assert Reverse(taken) == after[0][|before[0]|..];
    assert after[0] == before[0] + after[0][|before[0]|..];
    ExampleMove(before, 2, 1, 2, after);
  }

  lemma ExampleStep3()
    ensures CrateMoves([['C', 'M'], [], ['P', 'D', 'N', 'Z']], 1, 2, 1) == Ok([['C'], ['M'], ['P', 'D', 'N', 'Z']])
  {
    var before: seq<Stack> := [['C', 'M'], [], ['P', 'D', 'N', 'Z']];
    var after: seq<Stack> := [['C'], ['M'], ['P', 'D', 'N', 'Z']];
    var source := before[0];
    var taken := source[|source| - 1..];
    assert Reverse(taken) == after[1][|before[1]|..];
    assert after[1] == before[1] + after[1][|before[1]|..];
    ExampleMove(before, 1, 2, 1, after);
  }

  /** One instruction of the example, checked stack by stack against `after`. */
  lemma ExampleMove(before: seq<Stack>, from: nat, to: nat, count: nat, after: seq<Stack>)
    requires 1 <= from <= |before| && 1 <= to <= |before| && from != to
    requires count <= |before[from - 1]| && |after| == |before|
    requires var source := before[from - 1];
             forall i :: 0 <= i < |before| ==>
               after[i] == if i == to - 1 then before[to - 1] + Reverse(source[|source| - count..])
                           else if i == from - 1 then source[..|source| - count]
                           else before[i]
    ensures CrateMoves(before, from, to, count) == Ok(after)
  {
    CrateMovesReverse(before, from, to, count);
    var source := before[from - 1];
    var expected := before[from - 1 := source[..|source| - count]]
                          [to - 1 := before[to - 1] + Reverse(source[|source| - count..])];
    assert |expected| == |after|;
    assert forall i :: 0 <= i < |after| ==> after[i] == expected[i];
    assert after == expected;
  }

  /** The example's answer is "CMZ". */
  lemma Example()
    ensures Solve(ExampleLines) == Ok("CMZ")
  {
    ExampleSplit();
    ExampleStacks();
    ExampleMoves();
    ExampleRearrange();
    ExampleTops();
  }

  lemma ExampleTops()
    ensures Tops([['C'], ['M'], ['P', 'D', 'N', 'Z']]) == Ok("CMZ")
  {
    var stacks: seq<Stack> := [['C'], ['M'], ['P', 'D', 'N', 'Z']];
    var r := Tops(stacks);
    assert |r.value| == 3 && r.value[0] == 'C' && r.value[1] == 'M' && r.value[2] == 'Z';
    assert r.value == "CMZ";
  }
}
