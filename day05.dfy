/** Day 5: crates on stacks. The input is a drawing of the stacks, a blank line, and
    instructions that move crates one at a time from the top of one stack to the top of
    another; the answer spells the top crate of every stack. */
module Day05 {
  import opened Wrappers
  import Text

  /** A stack lists its crates bottom first: the last element is the top, the back of the
      source's deque. */
  type Stack = seq<char>

  /** The total number of crates on all stacks. */
  function Total(stacks: seq<Stack>): nat
  {
    if stacks == [] then 0 else |stacks[0]| + Total(stacks[1..])
  }

  lemma {:induction false} TotalUpdate(stacks: seq<Stack>, i: nat, s: Stack)
    requires i < |stacks|
    ensures Total(stacks[i := s]) == Total(stacks) - |stacks[i]| + |s|
    decreases |stacks|
  {
    if i > 0 {
      assert stacks[i := s][1..] == stacks[1..][i - 1 := s];
      TotalUpdate(stacks[1..], i - 1, s);
    }
  }

  // ---------------------------------------------------------------- splitting the input

  /** The first two pieces `split("\n\n")` cuts the text into, read line by line: the
      drawing and the instructions. Further pieces are ignored. There is a second piece
      exactly when some blank line is neither the first nor the last line. */
  function SplitInput(lines: seq<string>): (r: Result<(seq<string>, seq<string>)>)
    ensures r.Ok? <==> exists k :: 0 < k < |lines| - 1 && lines[k] == ""
    ensures r.Err? ==> r.message == "Unable to get second part of input"
  {
    var parts := Text.Paragraphs(lines);
    var i := Text.ParagraphCut(lines, 0);
    assert |parts| >= 2 <==> i < |lines|;
    assert i < |lines| ==> lines[i + 1] == "";
    if |parts| < 2 then Err("Unable to get second part of input")
    else Ok((parts[0], parts[1]))
  }

  /** The first piece of the instructions and what follows them is the instructions. */
  lemma FirstPieceOf(moves: seq<string>, tail: seq<string>)
    requires moves != [] && "" !in moves
    requires tail == [] || tail[0] == ""
    ensures Text.TextLines(Text.SplitParagraphs(moves + tail)[0]) == moves
  {
    if tail == [] {
      assert moves + tail == moves;
      Text.ParagraphsOfOne(moves);
    } else if tail == [""] {
      assert Text.ParagraphCut(moves + [""], 0) == |moves| + 1;
      Text.ParagraphsLast(moves + [""]);
      assert (moves + [""])[..|moves|] == moves;
    } else {
      assert moves + tail == moves + [""] + tail[1..];
      Text.ParagraphsCons(moves, tail[1..]);
    }
  }

  /** The drawing and the instructions are recovered from the input they were written to,
      whatever follows a further blank line. */
  lemma SplitInputOf(drawing: seq<string>, moves: seq<string>, tail: seq<string>)
    requires drawing != [] && moves != [] && "" !in drawing && "" !in moves
    requires tail == [] || tail[0] == ""
    ensures SplitInput(drawing + [""] + moves + tail) == Ok((drawing, moves))
  {
    var lines := drawing + [""] + moves + tail;
    assert lines == drawing + [""] + (moves + tail);
    Text.ParagraphsCons(drawing, moves + tail);
    FirstPieceOf(moves, tail);
    var parts := Text.Paragraphs(lines);
    assert parts[0] == Text.TextLines(drawing) == drawing;
    assert parts[1] == Text.TextLines(Text.SplitParagraphs(moves + tail)[0]);
  }

  // ---------------------------------------------------------------- the drawing

  predicate IsCrate(c: char) { 'A' <= c <= 'Z' }

  function Crate(c: char): seq<char> { if IsCrate(c) then [c] else [] }

  predicate AllWidth(rows: seq<string>, width: nat)
  {
    forall k :: 0 <= k < |rows| ==> |rows[k]| == width
  }

  /** The crates drawn in column `col`, lowest row first: rows are read top-down and each
      crate is pushed to the front, so the crate of the top row ends at the back. */
  function Column(rows: seq<string>, col: nat): (stack: Stack)
    requires forall k :: 0 <= k < |rows| ==> col < |rows[k]|
    ensures |stack| <= |rows|
    ensures forall k :: 0 <= k < |stack| ==> IsCrate(stack[k])
    decreases |rows|
  {
    if rows == [] then []
    else Crate(rows[|rows| - 1][col]) + Column(rows[..|rows| - 1], col)
  }

  /** Stack `s` is read from column 4s+1; a stack whose column lies past the line is empty. */
  function StackAt(rows: seq<string>, width: nat, s: nat): Stack
    requires AllWidth(rows, width)
  {
    if 4 * s + 1 < width then Column(rows, 4 * s + 1) else []
  }

  /** The stacks of a drawing whose last line holds the labels: a drawing without lines, or
      with a line longer or shorter than the first, is refused; otherwise there are
      width/4 + 1 stacks. */
  function StacksOf(drawing: seq<string>): (r: Result<seq<Stack>>)
    ensures r.Ok? <==> drawing != [] && AllWidth(drawing, |drawing[0]|)
    ensures r.Ok? ==> |r.value| == |drawing[0]| / 4 + 1
  {
    if drawing == [] then Err("Unable to get first line")
    else if !AllWidth(drawing, |drawing[0]|) then Err("Line has a different length than the first line")
    else
      var width := |drawing[0]|;
      var rows := drawing[..|drawing| - 1];
      Ok(seq(width / 4 + 1, s requires 0 <= s => StackAt(rows, width, s)))
  }

  /** Adding a row below the others puts its crate at the bottom. */
  lemma ColumnBelow(rows: seq<string>, k: nat, col: nat)
    requires k < |rows|
    requires forall j :: 0 <= j < |rows| ==> col < |rows[j]|
    ensures Column(rows[..k + 1], col) == Crate(rows[k][col]) + Column(rows[..k], col)
  {
    assert rows[..k + 1][..k] == rows[..k];
  }

  /** The top row of the drawing holds the top crate: its crate ends up last. */
  lemma {:induction false} ColumnTop(row: string, rows: seq<string>, col: nat)
    requires col < |row|
    requires forall j :: 0 <= j < |rows| ==> col < |rows[j]|
    ensures Column([row] + rows, col) == Column(rows, col) + Crate(row[col])
    decreases |rows|
  {
    if rows != [] {
      var all := [row] + rows;
      assert all[..|all| - 1] == [row] + rows[..|rows| - 1];
      ColumnTop(row, rows[..|rows| - 1], col);
    }
  }

  /** Every stack holds letters only, at most one per drawn row above the labels, and the
      labels line contributes nothing. */
  lemma StacksOfCrates(drawing: seq<string>)
    requires StacksOf(drawing).Ok?
    ensures forall s, k :: 0 <= s < |StacksOf(drawing).value| && 0 <= k < |StacksOf(drawing).value[s]|
              ==> IsCrate(StacksOf(drawing).value[s][k])
    ensures forall s :: 0 <= s < |StacksOf(drawing).value| ==> |StacksOf(drawing).value[s]| < |drawing|
  {
  }

  /** Reads the drawing row by row, pushing every letter found at columns 1, 5, 9, ... to
      the front of its stack. */
  method ParseStacks(drawing: seq<string>) returns (r: Result<seq<Stack>>)
    ensures r == StacksOf(drawing)
  {
    if |drawing| == 0 {
      return Err("Unable to get first line");
    }
    var width := |drawing[0]|;
    for k := 1 to |drawing|
      invariant forall j :: 0 <= j < k ==> |drawing[j]| == width
    {
      if |drawing[k]| != width {
        return Err("Line has a different length than the first line");
      }
    }
    var count := width / 4 + 1;
    var stacks := NewStacks(count);
    var rows := drawing[..|drawing| - 1];
    assert AllWidth(rows, width);
    stacks := PushRows(stacks, rows, width);
    return Ok(stacks);
  }

  /** The allocation loop: `count` empty stacks. */
  method NewStacks(count: nat) returns (stacks: seq<Stack>)
    ensures |stacks| == count && forall t :: 0 <= t < count ==> stacks[t] == []
  {
    stacks := [];
    for s := 0 to count
      invariant |stacks| == s
      invariant forall t :: 0 <= t < s ==> stacks[t] == []
    {
      stacks := stacks + [[]];
    }
  }

  /** The row loop: every row but the labels, top row first, pushed onto empty stacks. */
  method PushRows(start: seq<Stack>, rows: seq<string>, width: nat) returns (stacks: seq<Stack>)
    requires AllWidth(rows, width)
    requires |start| == width / 4 + 1 && forall t :: 0 <= t < |start| ==> start[t] == []
    ensures stacks == seq(width / 4 + 1, s requires 0 <= s => StackAt(rows, width, s))
  {
    var count := width / 4 + 1;
    stacks := start;
    for k := 0 to |rows|
      invariant |stacks| == count
      invariant forall s :: 0 <= s < count ==> stacks[s] == StackAt(rows[..k], width, s)
    {
      var next := PushRow(stacks, rows[k]);
      forall s | 0 <= s < count
        ensures next[s] == StackAt(rows[..k + 1], width, s)
      {
        if 4 * s + 1 < width {
          ColumnBelow(rows, k, 4 * s + 1);
        }
      }
      stacks := next;
    }
    assert rows[..|rows|] == rows;
  }

  /** One row of the drawing: the letter at column 4s+1, if any, goes to the front (the
      bottom) of stack s. */
  method PushRow(stacks: seq<Stack>, line: string) returns (next: seq<Stack>)
    requires |stacks| == |line| / 4 + 1
    ensures |next| == |stacks|
    ensures forall s :: 0 <= s < |stacks| ==>
              next[s] == if 4 * s + 1 < |line| then Crate(line[4 * s + 1]) + stacks[s] else stacks[s]
  {
    next := stacks;
    var i := 1;
    ghost var q := 0;
    while i < |line|
      invariant i == 4 * q + 1 && q <= |stacks|
      invariant |next| == |stacks|
      invariant forall s :: 0 <= s < q ==> 4 * s + 1 < |line| && next[s] == Crate(line[4 * s + 1]) + stacks[s]
      invariant forall s :: q <= s < |stacks| ==> next[s] == stacks[s]
    {
      var c := line[i];
      var index := (i - 1) / 4;
      assert index == q;
      if c != ' ' && 'A' <= c <= 'Z' {
        next := next[index := [c] + next[index]];
      }
      i := i + 4;
      q := q + 1;
    }
    assert forall s :: q <= s < |stacks| ==> 4 * s + 1 >= |line|;
  }

  // ---------------------------------------------------------------- the instructions

  /** "move count from from to to"; stacks are numbered from 1. */
  datatype Move = Move(count: nat, from: nat, to: nat)

  predicate MoveFields(f: seq<string>)
  {
    |f| == 6 && f[0] == "move" && f[2] == "from" && f[4] == "to"
    && Text.ParseNat(f[1]).Some? && Text.ParseNat(f[3]).Some? && Text.ParseNat(f[5]).Some?
  }

  /** A line is the three keywords and three numbers, separated by single spaces. */
  function ParseMove(line: string): (r: Result<Move>)
    ensures r.Ok? <==> MoveFields(Text.SplitOn(line, ' '))
    ensures r.Ok? ==>
              var f := Text.SplitOn(line, ' ');
              Text.ParseNat(f[1]) == Some(r.value.count) && Text.ParseNat(f[3]) == Some(r.value.from)
              && Text.ParseNat(f[5]) == Some(r.value.to)
  {
    var f := Text.SplitOn(line, ' ');
    if MoveFields(f) then Ok(Move(Text.ParseNat(f[1]).value, Text.ParseNat(f[3]).value, Text.ParseNat(f[5]).value))
    else Err("Unable to parse line")
  }

  function FormatMove(m: Move): string
  {
    Text.JoinWith(["move", Text.NatToString(m.count), "from", Text.NatToString(m.from), "to", Text.NatToString(m.to)], ' ')
  }

  lemma NoSpaceInNumber(n: nat)
    ensures ' ' !in Text.NatToString(n)
  {
  }

  /** Writing an instruction in the puzzle's format and parsing it back gives it back. */
  lemma ParseFormattedMove(m: Move)
    ensures ParseMove(FormatMove(m)) == Ok(m)
  {
    var parts := ["move", Text.NatToString(m.count), "from", Text.NatToString(m.from), "to", Text.NatToString(m.to)];
    NoSpaceInNumber(m.count);
    NoSpaceInNumber(m.from);
    NoSpaceInNumber(m.to);
    assert forall i :: 0 <= i < |parts| ==> ' ' !in parts[i];
    Text.SplitOnJoinWith(parts, ' ');
    Text.ParseNatOfNatToString(m.count);
    Text.ParseNatOfNatToString(m.from);
    Text.ParseNatOfNatToString(m.to);
  }

  /** Every line parsed in order; the first malformed line aborts the parse. */
  function ParseMoves(lines: seq<string>): (r: Result<seq<Move>>)
    ensures r.Ok? <==> forall k :: 0 <= k < |lines| ==> ParseMove(lines[k]).Ok?
    ensures r.Ok? ==> |r.value| == |lines|
                      && forall k :: 0 <= k < |lines| ==> ParseMove(lines[k]) == Ok(r.value[k])
  {
    MapAll(lines, ParseMove)
  }

  function FormatMoves(moves: seq<Move>): (lines: seq<string>)
    ensures |lines| == |moves|
  {
    seq(|moves|, k requires 0 <= k < |moves| => FormatMove(moves[k]))
  }

  lemma ParseFormattedMoves(moves: seq<Move>)
    ensures ParseMoves(FormatMoves(moves)) == Ok(moves)
  {
    var lines := FormatMoves(moves);
    forall k | 0 <= k < |lines|
      ensures ParseMove(lines[k]) == Ok(moves[k])
    {
      ParseFormattedMove(moves[k]);
    }
    assert ParseMoves(lines).value == moves;
  }

  // ---------------------------------------------------------------- moving crates

  /** One crate from the top of stack `from` to the top of stack `to`. The source stack is
      looked up and popped before the target is looked up. */
  function MoveCrate(stacks: seq<Stack>, from: nat, to: nat): (r: Result<seq<Stack>>)
    ensures r.Ok? <==> 1 <= from <= |stacks| && stacks[from - 1] != [] && 1 <= to <= |stacks|
    ensures r.Ok? ==> |r.value| == |stacks|
  {
    if from < 1 || from > |stacks| then Err("Unable to get from stack")
    else if stacks[from - 1] == [] then Err("Unable to get character from stack")
    else if to < 1 || to > |stacks| then Err("Unable to get to stack")
    else
      var source := stacks[from - 1];
      var popped := stacks[from - 1 := source[..|source| - 1]];
      Ok(popped[to - 1 := popped[to - 1] + [source[|source| - 1]]])
  }

  /** A move keeps the number of crates... */
  lemma MoveCrateKeeps(stacks: seq<Stack>, from: nat, to: nat)
    requires MoveCrate(stacks, from, to).Ok?
    ensures Total(MoveCrate(stacks, from, to).value) == Total(stacks)
  {
    var source := stacks[from - 1];
    var popped := stacks[from - 1 := source[..|source| - 1]];
    TotalUpdate(stacks, from - 1, source[..|source| - 1]);
    TotalUpdate(popped, to - 1, popped[to - 1] + [source[|source| - 1]]);
  }

  /** ... and leaves every other stack alone: the crate leaves the top of the source and
      lands on top of the target. */
  lemma MoveCrateOthers(stacks: seq<Stack>, from: nat, to: nat)
    requires MoveCrate(stacks, from, to).Ok?
    ensures forall i :: 0 <= i < |stacks| && i != from - 1 && i != to - 1 ==>
              MoveCrate(stacks, from, to).value[i] == stacks[i]
    ensures var source := stacks[from - 1];
            from != to ==>
              MoveCrate(stacks, from, to).value[from - 1] == source[..|source| - 1]
              && MoveCrate(stacks, from, to).value[to - 1] == stacks[to - 1] + [source[|source| - 1]]
  {
  }

  /** `count` single moves in a row. */
  function CrateMoves(stacks: seq<Stack>, from: nat, to: nat, count: nat): (r: Result<seq<Stack>>)
    ensures r.Ok? ==> |r.value| == |stacks|
    decreases count
  {
    if count == 0 then Ok(stacks)
    else
      match MoveCrate(stacks, from, to)
      case Err(e) => Err(e)
      case Ok(next) => CrateMoves(next, from, to, count - 1)
  }

  function Reverse(s: Stack): (r: Stack)
    ensures |r| == |s|
    ensures forall i :: 0 <= i < |s| ==> r[i] == s[|s| - 1 - i]
  {
    if s == [] then [] else [s[|s| - 1]] + Reverse(s[..|s| - 1])
  }

  /** Moving `count` crates one by one between two distinct stacks takes the top `count`
      crates of the source and puts them on the target in reverse order. */
  lemma {:induction false} CrateMovesReverse(stacks: seq<Stack>, from: nat, to: nat, count: nat)
    requires 1 <= from <= |stacks| && 1 <= to <= |stacks| && from != to
    requires count <= |stacks[from - 1]|
    ensures var source := stacks[from - 1];
            CrateMoves(stacks, from, to, count)
            == Ok(stacks[from - 1 := source[..|source| - count]]
                        [to - 1 := stacks[to - 1] + Reverse(source[|source| - count..])])
    decreases count
  {
    var source := stacks[from - 1];
    if count == 0 {
      assert source[..|source|] == source;
      assert source[|source|..] == [];
      assert stacks[to - 1] + Reverse([]) == stacks[to - 1];
      assert stacks[from - 1 := source][to - 1 := stacks[to - 1]] == stacks;
    } else {
      var next := MoveCrate(stacks, from, to).value;
      var top := source[|source| - 1];
      var rest := source[..|source| - 1];
      assert next == stacks[from - 1 := rest][to - 1 := stacks[to - 1] + [top]];
      CrateMovesReverse(next, from, to, count - 1);
      assert rest[..|rest| - (count - 1)] == source[..|source| - count];
      var taken := source[|source| - count..];
      assert taken[..|taken| - 1] == rest[|rest| - (count - 1)..];
      assert Reverse(taken) == [top] + Reverse(rest[|rest| - (count - 1)..]);
      var bottom := source[..|source| - count];
      var target := stacks[to - 1] + Reverse(taken);
      assert next[to - 1] + Reverse(rest[|rest| - (count - 1)..]) == target;
      var after := next[from - 1 := bottom][to - 1 := target];
      var expected := stacks[from - 1 := bottom][to - 1 := target];
      assert forall i :: 0 <= i < |stacks| ==> after[i] == expected[i];
      assert after == expected;
    }
  }

  /** Moving more crates than the source holds, between two distinct stacks, fails. */
  lemma {:induction false} CrateMovesTooMany(stacks: seq<Stack>, from: nat, to: nat, count: nat)
    requires 1 <= from <= |stacks| && 1 <= to <= |stacks| && from != to
    requires count > |stacks[from - 1]|
    ensures CrateMoves(stacks, from, to, count).Err?
    decreases count
  {
    if stacks[from - 1] != [] {
      var next := MoveCrate(stacks, from, to).value;
      assert |next[from - 1]| == |stacks[from - 1]| - 1;
      CrateMovesTooMany(next, from, to, count - 1);
    }
  }

  /** Moving from a non-empty stack onto itself puts every crate back where it was. */
  lemma {:induction false} CrateMovesOntoItself(stacks: seq<Stack>, from: nat, count: nat)
    requires 1 <= from <= |stacks| && stacks[from - 1] != []
    ensures CrateMoves(stacks, from, from, count) == Ok(stacks)
    decreases count
  {
    if count > 0 {
      var source := stacks[from - 1];
      assert source[..|source| - 1] + [source[|source| - 1]] == source;
      assert MoveCrate(stacks, from, from).value == stacks;
      CrateMovesOntoItself(stacks, from, count - 1);
    }
  }

  lemma {:induction false} CrateMovesKeep(stacks: seq<Stack>, from: nat, to: nat, count: nat)
    requires CrateMoves(stacks, from, to, count).Ok?
    ensures Total(CrateMoves(stacks, from, to, count).value) == Total(stacks)
    decreases count
  {
    if count > 0 {
      MoveCrateKeeps(stacks, from, to);
      CrateMovesKeep(MoveCrate(stacks, from, to).value, from, to, count - 1);
    }
  }

  /** The instructions applied in order; the first failing move aborts. */
  function Rearrange(stacks: seq<Stack>, moves: seq<Move>): (r: Result<seq<Stack>>)
    ensures r.Ok? ==> |r.value| == |stacks|
    decreases |moves|, 0
  {
    if moves == [] then Ok(stacks)
    else Continue(CrateMoves(stacks, moves[0].from, moves[0].to, moves[0].count), moves[1..])
  }

  /** The rest of the instructions applied to the outcome so far. */
  function Continue(r: Result<seq<Stack>>, moves: seq<Move>): Result<seq<Stack>>
    decreases |moves|, 1
  {
    match r
    case Err(e) => Err(e)
    case Ok(stacks) => Rearrange(stacks, moves)
  }

  /** Rearranging never creates or loses a crate. */
  lemma {:induction false} RearrangeKeeps(stacks: seq<Stack>, moves: seq<Move>)
    requires Rearrange(stacks, moves).Ok?
    ensures Total(Rearrange(stacks, moves).value) == Total(stacks)
    decreases |moves|
  {
    if moves != [] {
      var m := moves[0];
      CrateMovesKeep(stacks, m.from, m.to, m.count);
      RearrangeKeeps(CrateMoves(stacks, m.from, m.to, m.count).value, moves[1..]);
    }
  }

  /** The top crate of every stack, in stack order; an empty stack has none. */
  function Tops(stacks: seq<Stack>): (r: Result<string>)
    ensures r.Ok? <==> forall i :: 0 <= i < |stacks| ==> stacks[i] != []
    ensures r.Ok? ==> |r.value| == |stacks|
                      && forall i :: 0 <= i < |stacks| ==> r.value[i] == stacks[i][|stacks[i]| - 1]
  {
    if stacks == [] then Ok("")
    else if stacks[0] == [] then Err("Unable to get first character")
    else
      match Tops(stacks[1..])
      case Err(e) => Err(e)
      case Ok(rest) => Ok([stacks[0][|stacks[0]| - 1]] + rest)
  }

  /** The whole puzzle: split, read the drawing, read the instructions, move, read the tops. */
  function Solve(lines: seq<string>): Result<string>
  {
    match SplitInput(lines)
    case Err(e) => Err(e)
    case Ok((drawing, text)) =>
      match StacksOf(drawing)
      case Err(e) => Err(e)
      case Ok(stacks) =>
        match ParseMoves(text)
        case Err(e) => Err(e)
        case Ok(moves) =>
          match Rearrange(stacks, moves)
          case Err(e) => Err(e)
          case Ok(final) => Tops(final)
  }

  /** Two blank lines after the drawing are three newlines: the third leaves a blank line
      at the head of the instructions, which is no move, so the input is refused. */
  lemma DoubleBlankLine(drawing: seq<string>, moves: seq<string>)
    requires drawing != [] && moves != [] && "" !in drawing && "" !in moves
    ensures SplitInput(drawing + ["", ""] + moves) == Ok((drawing, [""] + moves))
    ensures Solve(drawing + ["", ""] + moves).Err?
  {
    var lines := drawing + ["", ""] + moves;
    var later := [""] + moves;
    assert lines == drawing + [""] + later;
    Text.ParagraphsCons(drawing, later);
    assert forall k :: 0 < k < |later| ==> later[k] == moves[k - 1];
    assert Text.ParagraphCut(later, 0) == |later|;
    Text.ParagraphsLast(later);
    assert later[|later| - 1] == moves[|moves| - 1];
    var parts := Text.Paragraphs(lines);
    assert parts[0] == drawing && parts[1] == later;
    assert Text.SplitOn("", ' ') == [""];
    assert ParseMove(later[0]).Err?;
  }

  method Part1(lines: seq<string>) returns (r: Result<string>)
    ensures r == Solve(lines)
  {
    var parts := SplitInput(lines);
    if parts.Err? {
      return Err(parts.message);
    }
    var drawing, text := parts.value.0, parts.value.1;
    var parsed := ParseStacks(drawing);
    if parsed.Err? {
      return Err(parsed.message);
    }
    var instructions := ParseMoves(text);
    if instructions.Err? {
      return Err(instructions.message);
    }
    var moves := instructions.value;
    var stacks := parsed.value;
    for m := 0 to |moves|
      invariant Rearrange(stacks, moves[m..]) == Rearrange(parsed.value, moves)
    {
      assert moves[m..][1..] == moves[m + 1..];
      var moved := MoveCrates(stacks, moves[m].from, moves[m].to, moves[m].count);
      if moved.Err? {
        return Err(moved.message);
      }
      stacks := moved.value;
    }
    assert moves[|moves|..] == [];
    return Tops(stacks);
  }

  /** The inner loop of the rearrangement: `count` times, pop the back of the source deque
      and push it to the back of the target deque. */
  method MoveCrates(start: seq<Stack>, from: nat, to: nat, count: nat) returns (r: Result<seq<Stack>>)
    ensures r == CrateMoves(start, from, to, count)
  {
    var stacks := start;
    for k := 0 to count
      invariant CrateMoves(stacks, from, to, count - k) == CrateMoves(start, from, to, count)
    {
      if from < 1 || from > |stacks| {
        return Err("Unable to get from stack");
      }
      var source := stacks[from - 1];
      if source == [] {
        return Err("Unable to get character from stack");
      }
      var crate := source[|source| - 1];
      ghost var next := MoveCrate(stacks, from, to);
      stacks := stacks[from - 1 := source[..|source| - 1]];
      if to < 1 || to > |stacks| {
        return Err("Unable to get to stack");
      }
      stacks := stacks[to - 1 := stacks[to - 1] + [crate]];
      assert next == Ok(stacks);
    }
    return Ok(stacks);
  }
}
