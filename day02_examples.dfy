/** The sample strategy guide of the puzzle statement; its second and third lines are
    indented, as the source's test writes them. */
module Day02Examples {
  import opened Wrappers
  import opened Day02

  const Example := ["A Y", "    B X", "    C Z"]

  lemma {:induction false} ThreeRounds(l0: string, l1: string, l2: string,
                                       g0: (Action, Action), g1: (Action, Action), g2: (Action, Action))
    requires ParseLine(l0) == Ok(g0) && ParseLine(l1) == Ok(g1) && ParseLine(l2) == Ok(g2)
    ensures ParseInputData([l0, l1, l2]) == Ok([g0, g1, g2])
  {
    var lines := [l0, l1, l2];
    var r := ParseInputData(lines);
    assert ParseLine(lines[0]).Ok? && ParseLine(lines[1]).Ok? && ParseLine(lines[2]).Ok?;
    assert r.Ok?;
    assert r.value[0] == g0 && r.value[1] == g1 && r.value[2] == g2;
    assert r.value == [g0, g1, g2];
  }

  lemma ExampleText()
    ensures Example == ["" + FormatRound(Rock, Paper), "    " + FormatRound(Paper, Rock),
                        "    " + FormatRound(Scissors, Scissors)]
  {
    assert FormatRound(Rock, Paper) == "A Y";
    assert FormatRound(Paper, Rock) == "B X";
    assert FormatRound(Scissors, Scissors) == "C Z";
    assert "" + "A Y" == "A Y";
    assert "    " + "B X" == "    B X";
    assert "    " + "C Z" == "    C Z";
  }

  lemma ExampleRounds()
    ensures ParseInputData(Example) == Ok([(Rock, Paper), (Paper, Rock), (Scissors, Scissors)])
  {
    ParseFormattedRound("", Rock, Paper);
    ParseFormattedRound("    ", Paper, Rock);
    ParseFormattedRound("    ", Scissors, Scissors);
    ThreeRounds("" + FormatRound(Rock, Paper), "    " + FormatRound(Paper, Rock),
                "    " + FormatRound(Scissors, Scissors), (Rock, Paper), (Paper, Rock), (Scissors, Scissors));
    ExampleText();
  }

  lemma ExamplePart1()
    ensures Part1(Example) == Ok(15)
  {
    ExampleRounds();
    var games := [(Rock, Paper), (Paper, Rock), (Scissors, Scissors)];
    assert games[1..][1..] == [(Scissors, Scissors)];
    assert Score(games) == 15;
  }
}
