/** Day 2: rock, paper, scissors. Each line gives the opponent's shape and one's own; a
    round scores the points of one's own shape plus the points of its outcome, and the
    answer is the total over all rounds. */
module Day02 {
  import opened Wrappers
  import Text

  datatype Action = Rock | Paper | Scissors

  datatype GameResult = Win | Lose | Draw

  const ParseFailure := "Failed to parse action"
  const MissingAction := "Failed to get action"

  /** The token of a shape: A, B, C for the opponent's column and X, Y, Z for one's own;
      both columns name the same three shapes. */
  function FromStr(s: string): (r: Result<Action>)
    ensures r.Ok? <==> s in ["A", "B", "C", "X", "Y", "Z"]
    ensures r.Err? ==> r.message == ParseFailure
  {
    if s == "A" || s == "X" then Ok(Rock)
    else if s == "B" || s == "Y" then Ok(Paper)
    else if s == "C" || s == "Z" then Ok(Scissors)
    else Err(ParseFailure)
  }

  function OpponentToken(a: Action): string
  {
    match a
    case Rock => "A"
    case Paper => "B"
    case Scissors => "C"
  }

  function ResponseToken(a: Action): string
  {
    match a
    case Rock => "X"
    case Paper => "Y"
    case Scissors => "Z"
  }

  /** Either column's token reads back as its shape. */
  lemma FromStrOfTokens(a: Action)
    ensures FromStr(OpponentToken(a)) == Ok(a)
    ensures FromStr(ResponseToken(a)) == Ok(a)
  {
  }

  /** The outcome for `self` when playing against `other`. */
  function Against(self: Action, other: Action): GameResult
  {
    match (self, other)
    case (Rock, Rock) => Draw
    case (Rock, Paper) => Lose
    case (Rock, Scissors) => Win
    case (Paper, Rock) => Win
    case (Paper, Paper) => Draw
    case (Paper, Scissors) => Lose
    case (Scissors, Rock) => Lose
    case (Scissors, Paper) => Win
    case (Scissors, Scissors) => Draw
  }

  // ---------------------------------------------------------------- the outcome table

  function Index(a: Action): nat
  {
    match a
    case Rock => 0
    case Paper => 1
    case Scissors => 2
  }

  /** The cyclic reading of the game: each shape beats the one just before it. */
  function CyclicOutcome(self: Action, other: Action): GameResult
  {
    var d := (Index(self) - Index(other)) % 3;
    if d == 0 then Draw else if d == 1 then Win else Lose
  }

  lemma AgainstIsCyclic(self: Action, other: Action)
    ensures Against(self, other) == CyclicOutcome(self, other)
  {
  }

  /** A wins against B exactly when B loses against A, and a draw is a round of equal
      shapes. */
  lemma AgainstAntisymmetric(a: Action, b: Action)
    ensures Against(a, b) == Win <==> Against(b, a) == Lose
    ensures Against(a, b) == Draw <==> a == b
  {
  }

  /** The shape a given shape beats. */
  function Beaten(a: Action): (b: Action)
    ensures Against(a, b) == Win
  {
    match a
    case Rock => Scissors
    case Paper => Rock
    case Scissors => Paper
  }

  /** Every shape beats exactly one shape. */
  lemma BeatsExactlyOne(a: Action, b: Action)
    ensures Against(a, b) == Win <==> b == Beaten(a)
  {
  }

  function ActionPoints(a: Action): (p: int)
    ensures 1 <= p <= 3 && p == Index(a) + 1
  {
    match a
    case Rock => 1
    case Paper => 2
    case Scissors => 3
  }

  function ResultPoints(r: GameResult): (p: int)
    ensures p in {0, 3, 6}
  {
    match r
    case Win => 6
    case Draw => 3
    case Lose => 0
  }

  /** The outcome points of the two players of a round always add up to six. */
  lemma ResultPointsShared(a: Action, b: Action)
    ensures ResultPoints(Against(a, b)) + ResultPoints(Against(b, a)) == 6
  {
  }

  /** The score of one round, `first` being the opponent's shape and `second` one's own. */
  function RoundScore(first: Action, second: Action): (s: int)
    ensures 1 <= s <= 9
  {
    ActionPoints(second) + ResultPoints(Against(second, first))
  }

  // ---------------------------------------------------------------- parsing

  /** Every token of a line, each parsed in order; the first bad token aborts. */
  function ParseActions(tokens: seq<string>): (r: Result<seq<Action>>)
    ensures r.Ok? <==> forall k :: 0 <= k < |tokens| ==> FromStr(tokens[k]).Ok?
    ensures r.Ok? ==> |r.value| == |tokens|
                      && forall k :: 0 <= k < |tokens| ==> FromStr(tokens[k]) == Ok(r.value[k])
    ensures r.Err? ==> r.message == ParseFailure
  {
    if tokens == [] then Ok([])
    else
      match FromStr(tokens[0])
      case Err(e) => Err(e)
      case Ok(first) =>
        match ParseActions(tokens[1..])
        case Err(e) => Err(e)
        case Ok(rest) => Ok([first] + rest)
  }

  /** One round: all whitespace-separated tokens are parsed, then the first two are the
      opponent's shape and one's own. */
  function ParseLine(line: string): (r: Result<(Action, Action)>)
    ensures r.Ok? <==> var tokens := Text.Words(line);
                       |tokens| >= 2 && forall k :: 0 <= k < |tokens| ==> FromStr(tokens[k]).Ok?
    ensures r.Ok? ==> FromStr(Text.Words(line)[0]) == Ok(r.value.0)
                      && FromStr(Text.Words(line)[1]) == Ok(r.value.1)
  {
    match ParseActions(Text.Words(line))
    case Err(e) => Err(e)
    case Ok(actions) =>
      if |actions| < 2 then Err(MissingAction) else Ok((actions[0], actions[1]))
  }

  function FormatRound(first: Action, second: Action): string
  {
    OpponentToken(first) + " " + ResponseToken(second)
  }

  lemma WordsOfRound(first: Action, second: Action)
    ensures Text.Words(FormatRound(first, second)) == [OpponentToken(first), ResponseToken(second)]
  {
    var tokens := [OpponentToken(first), ResponseToken(second)];
    assert Text.JoinWith(tokens, ' ') == FormatRound(first, second) by {
      assert Text.JoinWith(tokens[1..], ' ') == tokens[1];
    }
    Text.WordsOfJoin(tokens);
  }

  /** A round written as the puzzle writes it, after any indentation, reads back as the
      same two shapes. */
  lemma {:induction false} ParseFormattedRound(pad: string, first: Action, second: Action)
    requires forall i :: 0 <= i < |pad| ==> Text.IsWhitespace(pad[i])
    ensures ParseLine(pad + FormatRound(first, second)) == Ok((first, second))
  {
    Text.WordsSkipsLeadingSpace(pad, FormatRound(first, second));
    WordsOfRound(first, second);
    FromStrOfTokens(first);
    FromStrOfTokens(second);
  }

  function ParseInputData(lines: seq<string>): (r: Result<seq<(Action, Action)>>)
    ensures r.Ok? <==> forall k :: 0 <= k < |lines| ==> ParseLine(lines[k]).Ok?
    ensures r.Ok? ==> |r.value| == |lines|
                      && forall k :: 0 <= k < |lines| ==> ParseLine(lines[k]) == Ok(r.value[k])
  {
    if lines == [] then Ok([])
    else
      match ParseLine(lines[0])
      case Err(e) => Err(e)
      case Ok(first) =>
        match ParseInputData(lines[1..])
        case Err(e) => Err(e)
        case Ok(rest) => Ok([first] + rest)
  }

  // ---------------------------------------------------------------- part 1

  /** The points of one's own shapes over all rounds. */
  function ShapePoints(games: seq<(Action, Action)>): int
  {
    if games == [] then 0 else ActionPoints(games[0].1) + ShapePoints(games[1..])
  }

  /** The points of the outcomes, one's own shape against the opponent's, over all rounds. */
  function OutcomePoints(games: seq<(Action, Action)>): int
  {
    if games == [] then 0 else ResultPoints(Against(games[0].1, games[0].0)) + OutcomePoints(games[1..])
  }

  /** The total: the two sums added, as the source computes them. */
  function Score(games: seq<(Action, Action)>): int
  {
    ShapePoints(games) + OutcomePoints(games)
  }

  function TotalRoundScores(games: seq<(Action, Action)>): int
  {
    if games == [] then 0 else RoundScore(games[0].0, games[0].1) + TotalRoundScores(games[1..])
  }

  /** Adding the two sums is adding up the rounds' scores, so the total lies between one
      and nine points per round. */
  lemma {:induction false} ScoreIsRoundTotal(games: seq<(Action, Action)>)
    ensures Score(games) == TotalRoundScores(games)
    ensures |games| <= Score(games) <= 9 * |games|
  {
    if games != [] {
      ScoreIsRoundTotal(games[1..]);
    }
  }

  function Part1(lines: seq<string>): (r: Result<int>)
    ensures r.Ok? <==> forall k :: 0 <= k < |lines| ==> ParseLine(lines[k]).Ok?
  {
    match ParseInputData(lines)
    case Err(e) => Err(e)
    case Ok(games) => Ok(Score(games))
  }
}
