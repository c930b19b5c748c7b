/** Day 9: a rope on an integer grid. The head follows the instructions one unit step at
    a time, every other knot follows the knot ahead of it, and the answer is the number
    of distinct cells the last knot occupies after a step. */
module Day09 {
  import opened Wrappers
  import Text

  datatype Direction = Up | Down | Left | Right

  datatype Instruction = Instruction(direction: Direction, steps: int)

  datatype Position = Position(x: int, y: int)

  const Origin := Position(0, 0)

  // ---------------------------------------------------------------- parsing

  function DirectionLetter(d: Direction): char
  {
    match d
    case Up => 'U'
    case Down => 'D'
    case Left => 'L'
    case Right => 'R'
  }

  function ParseDirection(c: char): (r: Result<Direction>)
    ensures r.Ok? <==> c in "UDLR"
    ensures r.Ok? ==> DirectionLetter(r.value) == c
  {
    match c
    case 'U' => Ok(Up)
    case 'D' => Ok(Down)
    case 'L' => Ok(Left)
    case 'R' => Ok(Right)
    case _ => Err("Failed to parse direction")
  }

  /** One line: a direction letter, one skipped character, then a signed number. */
  function ParseInstruction(line: string): (r: Result<Instruction>)
    ensures r.Ok? <==> |line| >= 1 && line[0] in "UDLR"
                       && Text.ParseInt(if |line| >= 2 then line[2..] else "").Some?
    ensures r.Ok? ==> DirectionLetter(r.value.direction) == line[0]
                      && Text.ParseInt(line[2..]) == Some(r.value.steps)
  {
    if |line| == 0 then Err("Failed to parse direction")
    else
      match ParseDirection(line[0])
      case Err(e) => Err(e)
      case Ok(d) =>
        match Text.ParseInt(if |line| >= 2 then line[2..] else "")
        case None => Err("Failed to parse steps")
        case Some(n) => Ok(Instruction(d, n))
  }

  function FormatInstruction(i: Instruction): string
  {
    [DirectionLetter(i.direction), ' '] + Text.IntToString(i.steps)
  }

  /** Printing an instruction in the puzzle's format and parsing it gives it back. */
  lemma ParseFormattedInstruction(i: Instruction)
    ensures ParseInstruction(FormatInstruction(i)) == Ok(i)
  {
    var line := FormatInstruction(i);
    assert line[2..] == Text.IntToString(i.steps);
    Text.ParseIntOfIntToString(i.steps);
  }

  /** All lines parsed in order; the first malformed line aborts the whole parse. */
  function ParseInputData(lines: seq<string>): (r: Result<seq<Instruction>>)
    ensures r.Ok? <==> forall k :: 0 <= k < |lines| ==> ParseInstruction(lines[k]).Ok?
    ensures r.Ok? ==> |r.value| == |lines|
                      && forall k :: 0 <= k < |lines| ==> ParseInstruction(lines[k]) == Ok(r.value[k])
  {
    if lines == [] then Ok([])
    else
      match ParseInstruction(lines[0])
      case Err(e) => Err(e)
      case Ok(first) =>
        match ParseInputData(lines[1..])
        case Err(e) => Err(e)
        case Ok(rest) =>
          assert forall k :: 1 <= k < |lines| ==> lines[k] == lines[1..][k - 1];
          Ok([first] + rest)
  }

  /** One formatted line per instruction. */
  function FormatInput(instructions: seq<Instruction>): (lines: seq<string>)
    ensures |lines| == |instructions|
  {
    seq(|instructions|, k requires 0 <= k < |instructions| => FormatInstruction(instructions[k]))
  }

  /** The whole-input round trip: formatting a list of instructions line by line and
      parsing the lines gives back the same list. */
  lemma ParseFormattedInput(instructions: seq<Instruction>)
    ensures ParseInputData(FormatInput(instructions)) == Ok(instructions)
  {
    var lines := FormatInput(instructions);
    forall k | 0 <= k < |lines|
      ensures ParseInstruction(lines[k]) == Ok(instructions[k])
    {
      ParseFormattedInstruction(instructions[k]);
    }
    assert ParseInputData(lines).value == instructions;
  }

  // ---------------------------------------------------------------- the follow rule

  function Abs(n: int): nat { if n < 0 then -n else n }

  function Sign(n: int): int { if n > 0 then 1 else if n < 0 then -1 else 0 }

  /** Chebyshev distance: the number of king moves between two cells. */
  function Distance(p: Position, q: Position): nat
  {
    var dx, dy := Abs(p.x - q.x), Abs(p.y - q.y);
    if dx >= dy then dx else dy
  }

  /** The nine cells a knot may occupy relative to its leader, listed one by one. */
  function HeadNextToTail(head: Position, tail: Position): (b: bool)
    ensures b <==> Distance(head, tail) <= 1
  {
    || (head.x == tail.x && head.y == tail.y)
    || (head.x == tail.x && head.y == tail.y + 1)
    || (head.x == tail.x && head.y == tail.y - 1)
    || (head.x == tail.x + 1 && head.y == tail.y)
    || (head.x == tail.x - 1 && head.y == tail.y)
    || (head.x == tail.x + 1 && head.y == tail.y + 1)
    || (head.x == tail.x + 1 && head.y == tail.y - 1)
    || (head.x == tail.x - 1 && head.y == tail.y + 1)
    || (head.x == tail.x - 1 && head.y == tail.y - 1)
  }

  lemma HeadNextToTailSymmetric(p: Position, q: Position)
    ensures HeadNextToTail(p, q) == HeadNextToTail(q, p)
  {
  }

  /** The pairs the source's unit tests list: two cells apart on one axis is not touching. */
  lemma HeadNextToTailExamples()
    ensures HeadNextToTail(Position(2, 1), Position(1, 1)) && !HeadNextToTail(Position(3, 1), Position(1, 1))
    ensures HeadNextToTail(Position(3, 1), Position(2, 1)) && HeadNextToTail(Position(1, 2), Position(1, 1))
    ensures !HeadNextToTail(Position(1, 3), Position(1, 1)) && HeadNextToTail(Position(1, 3), Position(1, 2))
    ensures HeadNextToTail(Position(2, 2), Position(1, 3)) && !HeadNextToTail(Position(2, 1), Position(1, 3))
    ensures HeadNextToTail(Position(2, 1), Position(2, 2)) && !HeadNextToTail(Position(3, 2), Position(1, 3))
    ensures HeadNextToTail(Position(3, 2), Position(2, 2))
  {
  }

  /** The follow rule: a knot that touches its leader stays put; otherwise it steps one
      unit toward the leader on each axis where they differ. */
  function MoveTailTowardsHeadIfNeeded(head: Position, tail: Position): (r: Position)
    ensures HeadNextToTail(head, tail) ==> r == tail
    ensures !HeadNextToTail(head, tail) ==>
              r == Position(tail.x + Sign(head.x - tail.x), tail.y + Sign(head.y - tail.y))
  {
    if HeadNextToTail(head, tail) then tail
    else if head.x == tail.x then
      if head.y == tail.y then assert false; tail
      else if head.y > tail.y then Position(tail.x, tail.y + 1)
      else Position(tail.x, tail.y - 1)
    else if head.y == tail.y then
      if head.x > tail.x then Position(tail.x + 1, tail.y)
      else Position(tail.x - 1, tail.y)
    else if head.x > tail.x then
      if head.y > tail.y then Position(tail.x + 1, tail.y + 1)
      else Position(tail.x + 1, tail.y - 1)
    else if head.y > tail.y then Position(tail.x - 1, tail.y + 1)
    else Position(tail.x - 1, tail.y - 1)
  }

  /** A knot that has to move is never on its leader's cell, so the rule's
      "same cell but not touching" branch is dead. */
  lemma NotTouchingMeansDistinct(head: Position, tail: Position)
    requires !HeadNextToTail(head, tail)
    ensures head != tail
  {
  }

  /** The rule moves a knot at most one unit per axis, and never away from its leader. */
  lemma FollowIsOneKingMove(head: Position, tail: Position)
    ensures Distance(tail, MoveTailTowardsHeadIfNeeded(head, tail)) <= 1
    ensures Distance(head, MoveTailTowardsHeadIfNeeded(head, tail)) <= Distance(head, tail)
  {
  }

  /** The central fact: a knot at most two king moves from its leader touches it
      after one application of the rule. */
  lemma FollowRestoresContact(head: Position, tail: Position)
    requires Distance(head, tail) <= 2
    ensures HeadNextToTail(head, MoveTailTowardsHeadIfNeeded(head, tail))
  {
  }

  /** If the leader made one king move from a cell its follower touched, the follower
      touches it again after the rule. */
  lemma FollowAfterLeaderMove(oldHead: Position, newHead: Position, tail: Position)
    requires HeadNextToTail(oldHead, tail)
    requires Distance(oldHead, newHead) <= 1
    ensures HeadNextToTail(newHead, MoveTailTowardsHeadIfNeeded(newHead, tail))
  {
    FollowRestoresContact(newHead, tail);
  }

  /** The cases the source's unit tests list. */
  lemma FollowExamples()
    ensures MoveTailTowardsHeadIfNeeded(Position(2, 1), Position(1, 1)) == Position(1, 1)
    ensures MoveTailTowardsHeadIfNeeded(Position(3, 1), Position(1, 1)) == Position(2, 1)
    ensures MoveTailTowardsHeadIfNeeded(Position(3, 1), Position(2, 1)) == Position(2, 1)
    ensures MoveTailTowardsHeadIfNeeded(Position(1, 2), Position(1, 1)) == Position(1, 1)
    ensures MoveTailTowardsHeadIfNeeded(Position(1, 3), Position(1, 1)) == Position(1, 2)
    ensures MoveTailTowardsHeadIfNeeded(Position(1, 3), Position(1, 2)) == Position(1, 2)
    ensures MoveTailTowardsHeadIfNeeded(Position(2, 2), Position(1, 3)) == Position(1, 3)
    ensures MoveTailTowardsHeadIfNeeded(Position(2, 1), Position(1, 3)) == Position(2, 2)
    ensures MoveTailTowardsHeadIfNeeded(Position(2, 1), Position(2, 2)) == Position(2, 2)
    ensures MoveTailTowardsHeadIfNeeded(Position(3, 2), Position(1, 3)) == Position(2, 2)
    ensures MoveTailTowardsHeadIfNeeded(Position(3, 2), Position(2, 2)) == Position(2, 2)
  {
  }

  // ---------------------------------------------------------------- the rope

  function MoveHead(p: Position, d: Direction): (q: Position)
    ensures Distance(p, q) == 1
  {
    match d
    case Up => Position(p.x, p.y + 1)
    case Down => Position(p.x, p.y - 1)
    case Left => Position(p.x - 1, p.y)
    case Right => Position(p.x + 1, p.y)
  }

  /** The knots behind `leader`, updated front to back: each knot follows the
      already-moved knot ahead of it. */
  function Propagate(leader: Position, knots: seq<Position>): (r: seq<Position>)
    ensures |r| == |knots|
    decreases |knots|
  {
    if knots == [] then []
    else
      var k := MoveTailTowardsHeadIfNeeded(leader, knots[0]);
      [k] + Propagate(k, knots[1..])
  }

  /** One unit step of a rope: the head moves, then the rest follow in order. */
  function StepRope(rope: seq<Position>, d: Direction): (r: seq<Position>)
    requires |rope| >= 1
    ensures |r| == |rope|
  {
    var h := MoveHead(rope[0], d);
    [h] + Propagate(h, rope[1..])
  }

  /** Every knot touches the knot ahead of it. */
  predicate Taut(rope: seq<Position>)
  {
    forall i :: 1 <= i < |rope| ==> HeadNextToTail(rope[i - 1], rope[i])
  }

  /** Propagation keeps a rope taut when its leader made at most one king move. */
  lemma {:induction false} PropagateKeepsTaut(oldLeader: Position, leader: Position, knots: seq<Position>)
    requires Distance(oldLeader, leader) <= 1
    requires Taut([oldLeader] + knots)
    ensures Taut([leader] + Propagate(leader, knots))
    decreases |knots|
  {
    if knots != [] {
      var k := MoveTailTowardsHeadIfNeeded(leader, knots[0]);
      var padded := [oldLeader] + knots;
      assert HeadNextToTail(padded[1 - 1], padded[1]);
      assert padded[0] == oldLeader && padded[1] == knots[0];
      FollowAfterLeaderMove(oldLeader, leader, knots[0]);
      FollowIsOneKingMove(leader, knots[0]);
      assert Taut([knots[0]] + knots[1..]) by {
        assert [knots[0]] + knots[1..] == knots;
        forall i | 1 <= i < |knots| ensures HeadNextToTail(knots[i - 1], knots[i]) {
          assert ([oldLeader] + knots)[i] == knots[i - 1];
          assert ([oldLeader] + knots)[i + 1] == knots[i];
        }
      }
      PropagateKeepsTaut(knots[0], k, knots[1..]);
      var rest := Propagate(k, knots[1..]);
      assert Propagate(leader, knots) == [k] + rest;
      var r := [leader] + ([k] + rest);
      forall i | 1 <= i < |r| ensures HeadNextToTail(r[i - 1], r[i]) {
        if i >= 2 {
          assert r[i - 1] == ([k] + rest)[i - 2] && r[i] == ([k] + rest)[i - 1];
        }
      }
    }
  }

  /** The adjacency invariant: one unit step keeps a taut rope taut, with a single
      pass down the rope. */
  lemma StepRopeKeepsTaut(rope: seq<Position>, d: Direction)
    requires |rope| >= 1 && Taut(rope)
    ensures Taut(StepRope(rope, d))
  {
    assert rope == [rope[0]] + rope[1..];
    PropagateKeepsTaut(rope[0], MoveHead(rope[0], d), rope[1..]);
  }

  // ---------------------------------------------------------------- the simulation

  datatype Simulation = Simulation(rope: seq<Position>, visited: set<Position>)

  function Tail(rope: seq<Position>): Position
    requires |rope| >= 1
  {
    rope[|rope| - 1]
  }

  /** The number of unit steps an instruction makes: Rust's `0..steps` is empty when
      `steps` is not positive. */
  function UnitSteps(i: Instruction): nat
  {
    if i.steps > 0 then i.steps else 0
  }

  function TotalSteps(instructions: seq<Instruction>): nat
  {
    if instructions == [] then 0 else UnitSteps(instructions[0]) + TotalSteps(instructions[1..])
  }

  /** `n` unit steps in direction `d`, each followed by recording the tail's cell. */
  function Repeat(s: Simulation, d: Direction, n: nat): (r: Simulation)
    requires |s.rope| >= 1
    ensures |r.rope| == |s.rope|
    decreases n
  {
    if n == 0 then s
    else
      var rope := StepRope(s.rope, d);
      Repeat(Simulation(rope, s.visited + {Tail(rope)}), d, n - 1)
  }

  function Run(s: Simulation, instructions: seq<Instruction>): (r: Simulation)
    requires |s.rope| >= 1
    ensures |r.rope| == |s.rope|
    decreases |instructions|
  {
    if instructions == [] then s
    else Run(Repeat(s, instructions[0].direction, UnitSteps(instructions[0])), instructions[1..])
  }

  /** A rope of `knots` knots (head included), all at the origin, and no visited cell:
      the source starts with an empty set, so the origin only counts once the tail is
      recorded there after a step. */
  function Start(knots: nat): (s: Simulation)
    requires knots >= 1
    ensures |s.rope| == knots && s.visited == {}
  {
    Simulation(seq(knots, _ => Origin), {})
  }

  function TailVisits(knots: nat, instructions: seq<Instruction>): nat
    requires knots >= 1
  {
    |Run(Start(knots), instructions).visited|
  }

  lemma {:induction false} RepeatKeepsTaut(s: Simulation, d: Direction, n: nat)
    requires |s.rope| >= 1 && Taut(s.rope)
    ensures Taut(Repeat(s, d, n).rope)
    decreases n
  {
    if n > 0 {
      StepRopeKeepsTaut(s.rope, d);
      var rope := StepRope(s.rope, d);
      RepeatKeepsTaut(Simulation(rope, s.visited + {Tail(rope)}), d, n - 1);
    }
  }

  lemma {:induction false} RunKeepsTaut(s: Simulation, instructions: seq<Instruction>)
    requires |s.rope| >= 1 && Taut(s.rope)
    ensures Taut(Run(s, instructions).rope)
    decreases |instructions|
  {
    if instructions != [] {
      RepeatKeepsTaut(s, instructions[0].direction, UnitSteps(instructions[0]));
      RunKeepsTaut(Repeat(s, instructions[0].direction, UnitSteps(instructions[0])), instructions[1..]);
    }
  }

  /** Whatever the instructions and the rope's length, every knot ends up touching the
      knot ahead of it. */
  lemma RopeStaysTaut(knots: nat, instructions: seq<Instruction>)
    requires knots >= 1
    ensures Taut(Run(Start(knots), instructions).rope)
  {
    RunKeepsTaut(Start(knots), instructions);
  }

  lemma {:induction false} RepeatVisited(s: Simulation, d: Direction, n: nat)
    requires |s.rope| >= 1
    ensures s.visited <= Repeat(s, d, n).visited
    ensures |Repeat(s, d, n).visited| <= |s.visited| + n
    ensures n > 0 ==> Repeat(s, d, n).visited != {}
    decreases n
  {
    if n > 0 {
      var rope := StepRope(s.rope, d);
      var next := Simulation(rope, s.visited + {Tail(rope)});
      RepeatVisited(next, d, n - 1);
      assert |next.visited| <= |s.visited| + 1;
    }
  }

  lemma {:induction false} RunVisited(s: Simulation, instructions: seq<Instruction>)
    requires |s.rope| >= 1
    ensures s.visited <= Run(s, instructions).visited
    ensures |Run(s, instructions).visited| <= |s.visited| + TotalSteps(instructions)
    ensures TotalSteps(instructions) > 0 ==> Run(s, instructions).visited != {}
    ensures TotalSteps(instructions) == 0 ==> Run(s, instructions).visited == s.visited
    decreases |instructions|
  {
    if instructions != [] {
      var d, n := instructions[0].direction, UnitSteps(instructions[0]);
      RepeatVisited(s, d, n);
      RunVisited(Repeat(s, d, n), instructions[1..]);
      if n == 0 {
        assert Repeat(s, d, n) == s;
      }
    }
  }

  /** The answer never exceeds the number of unit steps, and it is zero exactly when
      there is no unit step: an empty instruction list gives 0, not 1, because the
      origin is not recorded before the first step. */
  lemma TailVisitsBounds(knots: nat, instructions: seq<Instruction>)
    requires knots >= 1
    ensures TailVisits(knots, instructions) <= TotalSteps(instructions)
    ensures TailVisits(knots, instructions) == 0 <==> TotalSteps(instructions) == 0
  {
    RunVisited(Start(knots), instructions);
  }

  // ---------------------------------------------------------------- the two parts

  lemma StepRopeOfTwo(head: Position, tail: Position, d: Direction)
    ensures var h := MoveHead(head, d);
            StepRope([head, tail], d) == [h, MoveTailTowardsHeadIfNeeded(h, tail)]
  {
    var h := MoveHead(head, d);
    assert [head, tail][1..] == [tail];
    assert [tail][1..] == [];
    assert Propagate(h, [tail]) == [MoveTailTowardsHeadIfNeeded(h, tail)];
  }

  /** One unit step of a two-knot rope, spelled out as the source's two variables. */
  lemma PairStep(head: Position, tail: Position, visited: set<Position>, d: Direction, n: nat)
    requires n >= 1
    ensures var h := MoveHead(head, d);
            var t := MoveTailTowardsHeadIfNeeded(h, tail);
            Repeat(Simulation([h, t], visited + {t}), d, n - 1) == Repeat(Simulation([head, tail], visited), d, n)
  {
    StepRopeOfTwo(head, tail, d);
  }

  /** Knot `i` after propagation follows the already-moved knot `i - 1` (or the leader). */
  lemma {:induction false} PropagateAt(leader: Position, knots: seq<Position>, i: nat)
    requires i < |knots|
    ensures Propagate(leader, knots)[i]
            == MoveTailTowardsHeadIfNeeded(if i == 0 then leader else Propagate(leader, knots)[i - 1], knots[i])
    decreases i
  {
    if i > 0 {
      var m := MoveTailTowardsHeadIfNeeded(leader, knots[0]);
      PropagateAt(m, knots[1..], i - 1);
      if i > 1 {
        assert Propagate(leader, knots)[i - 1] == Propagate(m, knots[1..])[i - 2];
      }
    }
  }

  lemma RepeatUnfold(s: Simulation, d: Direction, n: nat)
    requires |s.rope| >= 1 && n >= 1
    ensures Repeat(s, d, n) == Repeat(Simulation(StepRope(s.rope, d), s.visited + {Tail(StepRope(s.rope, d))}), d, n - 1)
  {
  }

  /** The rest of a ten-knot rope after the head moved: nine calls of the follow rule,
      each on the knot just updated, as the source spells them out. */
  lemma PropagateNine(knot1: Position, knot2: Position, knot3: Position, knot4: Position, knot5: Position, knot6: Position, knot7: Position, knot8: Position, tail: Position,
                      head': Position, knot1': Position, knot2': Position, knot3': Position, knot4': Position, knot5': Position, knot6': Position, knot7': Position, knot8': Position, tail': Position)
    requires knot1' == MoveTailTowardsHeadIfNeeded(head', knot1)
    requires knot2' == MoveTailTowardsHeadIfNeeded(knot1', knot2)
    requires knot3' == MoveTailTowardsHeadIfNeeded(knot2', knot3)
    requires knot4' == MoveTailTowardsHeadIfNeeded(knot3', knot4)
    requires knot5' == MoveTailTowardsHeadIfNeeded(knot4', knot5)
    requires knot6' == MoveTailTowardsHeadIfNeeded(knot5', knot6)
    requires knot7' == MoveTailTowardsHeadIfNeeded(knot6', knot7)
    requires knot8' == MoveTailTowardsHeadIfNeeded(knot7', knot8)
    requires tail' == MoveTailTowardsHeadIfNeeded(knot8', tail)
    ensures Propagate(head', [knot1, knot2, knot3, knot4, knot5, knot6, knot7, knot8, tail]) == [knot1', knot2', knot3', knot4', knot5', knot6', knot7', knot8', tail']
  {
    var knots := [knot1, knot2, knot3, knot4, knot5, knot6, knot7, knot8, tail];
    var moved := Propagate(head', knots);
    assert moved[0] == knot1' by { PropagateAt(head', knots, 0); }
    assert moved[1] == knot2' by { PropagateAt(head', knots, 1); }
    assert moved[2] == knot3' by { PropagateAt(head', knots, 2); }
    assert moved[3] == knot4' by { PropagateAt(head', knots, 3); }
    assert moved[4] == knot5' by { PropagateAt(head', knots, 4); }
    assert moved[5] == knot6' by { PropagateAt(head', knots, 5); }
    assert moved[6] == knot7' by { PropagateAt(head', knots, 6); }
    assert moved[7] == knot8' by { PropagateAt(head', knots, 7); }
    assert moved[8] == tail' by { PropagateAt(head', knots, 8); }
    NineElements(moved, knot1', knot2', knot3', knot4', knot5', knot6', knot7', knot8', tail');
  }

  lemma NineElements(s: seq<Position>, a: Position, b: Position, c: Position, d: Position, e: Position, f: Position, g: Position, h: Position, i: Position)
    requires |s| == 9
    requires s[0] == a && s[1] == b && s[2] == c && s[3] == d && s[4] == e && s[5] == f && s[6] == g && s[7] == h && s[8] == i
    ensures s == [a, b, c, d, e, f, g, h, i]
  {
  }

  /** One unit step of a ten-knot rope, spelled out as the source's ten variables. */
  lemma TenStep(head: Position, knot1: Position, knot2: Position, knot3: Position, knot4: Position, knot5: Position, knot6: Position, knot7: Position, knot8: Position, tail: Position,
                head': Position, knot1': Position, knot2': Position, knot3': Position, knot4': Position, knot5': Position, knot6': Position, knot7': Position, knot8': Position, tail': Position,
                visited: set<Position>, d: Direction, n: nat)
    requires n >= 1
    requires head' == MoveHead(head, d)
    requires knot1' == MoveTailTowardsHeadIfNeeded(head', knot1)
    requires knot2' == MoveTailTowardsHeadIfNeeded(knot1', knot2)
    requires knot3' == MoveTailTowardsHeadIfNeeded(knot2', knot3)
    requires knot4' == MoveTailTowardsHeadIfNeeded(knot3', knot4)
    requires knot5' == MoveTailTowardsHeadIfNeeded(knot4', knot5)
    requires knot6' == MoveTailTowardsHeadIfNeeded(knot5', knot6)
    requires knot7' == MoveTailTowardsHeadIfNeeded(knot6', knot7)
    requires knot8' == MoveTailTowardsHeadIfNeeded(knot7', knot8)
    requires tail' == MoveTailTowardsHeadIfNeeded(knot8', tail)
    ensures Repeat(Simulation([head', knot1', knot2', knot3', knot4', knot5', knot6', knot7', knot8', tail'], visited + {tail'}), d, n - 1)
            == Repeat(Simulation([head, knot1, knot2, knot3, knot4, knot5, knot6, knot7, knot8, tail], visited), d, n)
  {
    var rope := [head, knot1, knot2, knot3, knot4, knot5, knot6, knot7, knot8, tail];
    assert rope[1..] == [knot1, knot2, knot3, knot4, knot5, knot6, knot7, knot8, tail];
    var moved := [head', knot1', knot2', knot3', knot4', knot5', knot6', knot7', knot8', tail'];
    assert StepRope(rope, d) == moved by {
      PropagateNine(knot1, knot2, knot3, knot4, knot5, knot6, knot7, knot8, tail, head', knot1', knot2', knot3', knot4', knot5', knot6', knot7', knot8', tail');
      assert moved == [head'] + moved[1..];
    }
    assert Tail(moved) == tail';
    RepeatUnfold(Simulation(rope, visited), d, n);
  }

  /** Part 1: a head and a tail, as two variables. */
  method Part1(data: seq<string>) returns (r: Result<int>)
    ensures ParseInputData(data).Err? ==> r.Err?
    ensures ParseInputData(data).Ok? ==> r == Ok(TailVisits(2, ParseInputData(data).value))
  {
    var parsed := ParseInputData(data);
    if parsed.Err? {
      return Err(parsed.message);
    }
    var instructions := parsed.value;
    var head := Origin;
    var tail := Origin;
    var visited: set<Position> := {};
    assert Start(2).rope == [head, tail];
    assert instructions[0..] == instructions;
    for k := 0 to |instructions|
      invariant Run(Simulation([head, tail], visited), instructions[k..]) == Run(Start(2), instructions)
    {
      head, tail, visited := PairInstruction(head, tail, visited, instructions[k]);
      assert instructions[k..][1..] == instructions[k + 1..];
    }
    assert instructions[|instructions|..] == [];
    r := Ok(|visited|);
  }

  /** The unit steps of one instruction for the two-knot rope: move the head, let the tail
      follow, record where the tail is. */
  method PairInstruction(head0: Position, tail0: Position, visited0: set<Position>, instruction: Instruction)
    returns (head: Position, tail: Position, visited: set<Position>)
    ensures Simulation([head, tail], visited)
            == Repeat(Simulation([head0, tail0], visited0), instruction.direction, UnitSteps(instruction))
  {
    head, tail, visited := head0, tail0, visited0;
    var j := 0;
    while j < instruction.steps
      invariant 0 <= j <= UnitSteps(instruction)
      invariant Repeat(Simulation([head, tail], visited), instruction.direction, UnitSteps(instruction) - j)
             == Repeat(Simulation([head0, tail0], visited0), instruction.direction, UnitSteps(instruction))
    {
      ghost var was := Simulation([head, tail], visited);
      ghost var remaining := UnitSteps(instruction) - j;
      match instruction.direction {
        case Up => head := Position(head.x, head.y + 1);
        case Down => head := Position(head.x, head.y - 1);
        case Left => head := Position(head.x - 1, head.y);
        case Right => head := Position(head.x + 1, head.y);
      }
      assert head == MoveHead(was.rope[0], instruction.direction);
      tail := MoveTailTowardsHeadIfNeeded(head, tail);
      visited := visited + {tail};
      j := j + 1;
      PairStep(was.rope[0], was.rope[1], was.visited, instruction.direction, remaining);
    }
  }

  /** Part 2: ten knots, each in its own variable, updated by nine calls of the follow
      rule in head-to-tail order. */
  method Part2(data: seq<string>) returns (r: Result<int>)
    ensures ParseInputData(data).Err? ==> r.Err?
    ensures ParseInputData(data).Ok? ==> r == Ok(TailVisits(10, ParseInputData(data).value))
  {
    var parsed := ParseInputData(data);
    if parsed.Err? {
      return Err(parsed.message);
    }
    var instructions := parsed.value;
    var visited: set<Position> := {};
    var head := Origin;
    var knot1 := Origin;
    var knot2 := Origin;
    var knot3 := Origin;
    var knot4 := Origin;
    var knot5 := Origin;
    var knot6 := Origin;
    var knot7 := Origin;
    var knot8 := Origin;
    var tail := Origin;
    assert Start(10) == Knots(head, knot1, knot2, knot3, knot4, knot5, knot6, knot7, knot8, tail, visited);
    assert instructions[0..] == instructions;
    for k := 0 to |instructions|
      invariant Run(Knots(head, knot1, knot2, knot3, knot4, knot5, knot6, knot7, knot8, tail, visited), instructions[k..]) == Run(Start(10), instructions)
    {
      head, knot1, knot2, knot3, knot4, knot5, knot6, knot7, knot8, tail, visited :=
        TenInstruction(head, knot1, knot2, knot3, knot4, knot5, knot6, knot7, knot8, tail, visited, instructions[k]);
      assert instructions[k..][1..] == instructions[k + 1..];
    }
    assert instructions[|instructions|..] == [];
    r := Ok(|visited|);
  }

  /** The source's ten knot variables and its set, as a simulation state. */
  function Knots(head: Position, knot1: Position, knot2: Position, knot3: Position, knot4: Position,
                 knot5: Position, knot6: Position, knot7: Position, knot8: Position, tail: Position,
                 visited: set<Position>): (s: Simulation)
    ensures |s.rope| == 10 && s.visited == visited
  {
    Simulation([head, knot1, knot2, knot3, knot4, knot5, knot6, knot7, knot8, tail], visited)
  }

  /** The unit steps of one instruction for the ten-knot rope: move the head, let every
      knot follow the one before it, record where the tail is. */
  method TenInstruction(head0: Position, knot10: Position, knot20: Position, knot30: Position, knot40: Position,
                        knot50: Position, knot60: Position, knot70: Position, knot80: Position, tail0: Position,
                        visited0: set<Position>, instruction: Instruction)
    returns (head: Position, knot1: Position, knot2: Position, knot3: Position, knot4: Position,
             knot5: Position, knot6: Position, knot7: Position, knot8: Position, tail: Position, visited: set<Position>)
    ensures Knots(head, knot1, knot2, knot3, knot4, knot5, knot6, knot7, knot8, tail, visited)
            == Repeat(Knots(head0, knot10, knot20, knot30, knot40, knot50, knot60, knot70, knot80, tail0, visited0),
                      instruction.direction, UnitSteps(instruction))
  {
    head, knot1, knot2, knot3, knot4, knot5, knot6, knot7, knot8, tail :=
      head0, knot10, knot20, knot30, knot40, knot50, knot60, knot70, knot80, tail0;
    visited := visited0;
    ghost var before := Knots(head0, knot10, knot20, knot30, knot40, knot50, knot60, knot70, knot80, tail0, visited0);
    ghost var current := before;
    ghost var remaining: nat := UnitSteps(instruction);
    var j := 0;
    while j < instruction.steps
      invariant 0 <= j <= UnitSteps(instruction) && remaining == UnitSteps(instruction) - j
      invariant current == Knots(head, knot1, knot2, knot3, knot4, knot5, knot6, knot7, knot8, tail, visited)
      invariant Repeat(current, instruction.direction, remaining) == Repeat(before, instruction.direction, UnitSteps(instruction))
    {
      head, knot1, knot2, knot3, knot4, knot5, knot6, knot7, knot8, tail, visited :=
        TenUnitStep(head, knot1, knot2, knot3, knot4, knot5, knot6, knot7, knot8, tail, visited, instruction.direction, remaining);
      current := Knots(head, knot1, knot2, knot3, knot4, knot5, knot6, knot7, knot8, tail, visited);
      remaining := remaining - 1;
      j := j + 1;
    }
  }

  /** One pass of the loop body of part 2: move the head, let every knot follow the one
      before it, record where the tail is. */
  method TenUnitStep(head0: Position, knot10: Position, knot20: Position, knot30: Position, knot40: Position,
                     knot50: Position, knot60: Position, knot70: Position, knot80: Position, tail0: Position,
                     visited0: set<Position>, d: Direction, ghost n: nat)
    returns (head: Position, knot1: Position, knot2: Position, knot3: Position, knot4: Position,
             knot5: Position, knot6: Position, knot7: Position, knot8: Position, tail: Position, visited: set<Position>)
    requires n >= 1
    ensures Repeat(Knots(head, knot1, knot2, knot3, knot4, knot5, knot6, knot7, knot8, tail, visited), d, n - 1)
            == Repeat(Knots(head0, knot10, knot20, knot30, knot40, knot50, knot60, knot70, knot80, tail0, visited0), d, n)
  {
    head := head0;
    match d {
      case Up => head := Position(head.x, head.y + 1);
      case Down => head := Position(head.x, head.y - 1);
      case Left => head := Position(head.x - 1, head.y);
      case Right => head := Position(head.x + 1, head.y);
    }
    assert head == MoveHead(head0, d);
    knot1 := MoveTailTowardsHeadIfNeeded(head, knot10);
    knot2 := MoveTailTowardsHeadIfNeeded(knot1, knot20);
    knot3 := MoveTailTowardsHeadIfNeeded(knot2, knot30);
    knot4 := MoveTailTowardsHeadIfNeeded(knot3, knot40);
    knot5 := MoveTailTowardsHeadIfNeeded(knot4, knot50);
    knot6 := MoveTailTowardsHeadIfNeeded(knot5, knot60);
    knot7 := MoveTailTowardsHeadIfNeeded(knot6, knot70);
    knot8 := MoveTailTowardsHeadIfNeeded(knot7, knot80);
    tail := MoveTailTowardsHeadIfNeeded(knot8, tail0);
    visited := visited0 + {tail};
    TenStep(head0, knot10, knot20, knot30, knot40, knot50, knot60, knot70, knot80, tail0,
            head, knot1, knot2, knot3, knot4, knot5, knot6, knot7, knot8, tail, visited0, d, n);
  }
}
