# Advent of Code 2022, days 1 to 9, in Dafny

This project models the puzzle solutions of `fungiboletus/advent_of_code_2022_rust`, one
Dafny module per Rust file, and proves what each solution computes:

- Day 1 (`Day01`): calorie lists. The largest total, and the sum of the three largest
  totals, kept in three running maxima.
- Day 2 (`Day02`): rock–paper–scissors scoring by lookup tables.
- Day 3 (`Day03`): rucksack priorities. The item shared by both halves of a rucksack is
  found with a 52-entry hit table.
- Day 4 (`Day04`): pairs of section ranges. Containment and overlap counts.
- Day 5 (`Day05`): crate stacks. The drawing is parsed column by column, then crates move
  one at a time from the back of one deque to the back of another.
- Day 6 (`Day06`): the first window of 4 (packet) or 14 (message) pairwise distinct
  characters.
- Day 7 (`Day07`): a terminal session replayed into folder and file maps keyed by full
  path. Recursive folder sizes, and the sum of sizes of at most 100000.
- Day 8 (`Day08`): tree visibility on a height grid, scanned in four directions. The
  answer is the number of visible trees.
- Day 9 (`Day09`): a rope of 2 or 10 knots. Each knot follows the one before it, and the
  answer counts the distinct cells the tail visits.

Two shared modules hold what the Rust standard library provides. `Wrappers` has `Result`,
`Option` and `MapAll`, the model of `collect` over `expect`. `Text` has decimal
parsing and printing (`str::parse`), `split`, `join`, `split_whitespace`, and the
`split("\n\n")` followed by `lines()` that days 1 and 5 use to cut their input into
paragraphs.

Each `DayNNExamples` module proves the answers the unit tests of `src/day_NN.rs` expect.
These are stated on the model, not executed.

The form follows the source:

- Pure code (the match tables, `head_next_to_tail`, `move_tail_towards_head_if_needed`,
  the iterator pipelines) is functions and lemmas.
- Code with loops over mutable state is methods with loop invariants. Each method is
  proved equal to a specification function, and the lemmas are stated about that
  function. These methods are `day_1_part_2`, `find_duplicate_number`, the day 4 and
  day 5 loops, both day 6 parts, `parse_input_data` and `compute_folder_size` of day 7,
  the day 8 scan over a two-dimensional array, and both day 9 simulations over the
  source's own knot variables.

Panics (`expect`, `unwrap`, `panic!`) are modelled as an `Err` result carrying the
source's message. The one exception is `src/day_06.rs:37`, which is a precondition (see
"Left out").

Where the informal description of day 9 and the code disagree, the model follows the
code:

- The visited set starts empty (`src/day_09.rs:116`, `:137`), so an empty instruction
  list gives 0, not 1. The origin is counted only once the tail is recorded there after
  a step.
- A step count is any `i64`. A count of zero or less makes no move, as Rust's `0..steps`
  is then empty.

## Model

| member | source | states |
|---|---|---|
| Wrappers.MapAll | src/day_04.rs:8-27 | `collect` over per-line `expect`: Ok iff every element converts; then element k of the result is element k's value; an Err is the first failing element's message |
| Wrappers.MapAllOfResults | src/day_04.rs:8-27 | lines that convert one by one to given values collect to exactly that list |
| Text.ParseNat | src/day_05.rs:69 | an unsigned decimal is accepted iff the text is a non-empty run of digits |
| Text.ParseInt | src/day_01.rs:10 | `parse::<i64>`: accepted iff digits, optionally after one `+` or `-` sign |
| Text.ParseNatOfNatToString | src/day_05.rs:69 | printing a natural number and parsing it gives it back |
| Text.ParseIntOfIntToString | src/day_01.rs:10 | printing an integer and parsing it gives it back |
| Text.SplitOn | src/day_07.rs:81 | `split(" ")`: at least one field, no field contains the separator, and joining the fields with it restores the text |
| Text.SplitOnJoinWith | src/day_07.rs:81 | splitting a join of separator-free parts gives back the parts |
| Text.Words | src/day_02.rs:75 | `split_whitespace`: every token is non-empty and free of Unicode White_Space characters |
| Text.WordsSkipsLeadingSpace | src/day_02.rs:75 | leading whitespace changes no token, so indented lines read the same |
| Text.WordsOfJoin | src/day_02.rs:75 | words joined by single spaces split back into the same words |
| Text.ParagraphCut | src/day_01.rs:4 | the first cut is the first line followed by a blank line that is not the last line, that is, by two newlines in a row; there is none iff no such line exists |
| Text.SplitParagraphs | src/day_01.rs:4 | `split("\n\n")`: at least one piece; the pieces joined with blank separator lines give back the input; a piece holds a blank line only as its first line or, in the last piece, as its last line |
| Text.TextLines | src/day_01.rs:8 | `lines()`: a final empty line only ends the line before it and is dropped; otherwise every line is kept |
| Text.MapTextLines | src/day_01.rs:4-8 | `lines()` on every piece, in order |
| Text.Paragraphs | src/day_01.rs:4-8 | one paragraph per piece of `split("\n\n")`, paragraph g being `lines()` of piece g |
| Text.ParagraphsCons | src/day_01.rs:4 | a piece without blank lines, a blank line and more lines: the piece is cut off first |
| Text.ParagraphsLast | src/day_01.rs:4 | without a cut the input is a single piece |
| Text.ParagraphsOfOne | src/day_01.rs:4-8 | lines without blank lines are a single paragraph |
| Text.ParagraphsOfJoin | src/day_01.rs:4-8 | non-empty groups of non-blank lines joined by single blank lines split back into the same groups |
| Text.ParagraphLineInInput | src/day_01.rs:4-8 | every line of a paragraph is a line of the input |
| Text.InputLineInParagraph | src/day_01.rs:4-8 | every non-blank line of the input is a line of some paragraph |
| Text.ParagraphsStep | src/day_01.rs:4-8 | a cut splits off the first paragraph, and the rest is cut in the same way |
| Text.SingleBlanksCut | src/day_01.rs:4 | when no blank line follows a blank line and the first line is not blank, the first piece has no blank line and the lines after it keep that property |
| Text.ParagraphsOfSingleBlanks | src/day_01.rs:4-8 | under the same condition no paragraph holds a blank line: the blank lines are exactly the separators |
| Day01.ParseGroup | src/day_01.rs:6-11 | a group parses iff every line is an integer; value k is line k's number |
| Day01.ParseGroups | src/day_01.rs:4-13 | every group parsed in order; Ok iff each group parses |
| Day01.ParseInputData | src/day_01.rs:1-14 | a successful parse always yields at least one group; failure carries "Failed to parse number" |
| Day01.ParseInputDataOk | src/day_01.rs:1-14 | parsing succeeds iff every non-blank line is an integer and no paragraph keeps a blank line, as a run of two blank lines does |
| Day01.ParseInputDataOfSingleBlanks | src/day_01.rs:1-14 | when the groups are separated by single blank lines, parsing succeeds iff every non-blank line is an integer |
| Day01.ParseFormattedGroup | src/day_01.rs:6-11 | numbers written one per line parse back to themselves |
| Day01.ParseFormattedInput | src/day_01.rs:1-14 | non-empty groups written one number per line, separated by blank lines, parse back to the same groups |
| Day01.Maximum | src/day_01.rs:23 | the result is an element of the list and no element exceeds it |
| Day01.Part1 | src/day_01.rs:16-26 | Ok iff the input parses; the answer is one elf's total and no elf carries more |
| Day01.TopSlotsPush | src/day_01.rs:37-46 | each branch of the running update keeps max_a ≥ max_b ≥ max_c as the three largest entries seen; a tie stays below the equal slot |
| Day01.TopSlotsSum | src/day_01.rs:49 | three distinct positions holding a ≥ b ≥ c, every other entry at most c: a + b + c is the largest sum of three distinct entries |
| Day01.TopThreeSumUnique | src/day_01.rs:49 | the largest sum of three distinct entries is unique |
| Day01.TopThreeOfNonNegative | src/day_01.rs:31-49 | with at least three non-negative totals, the three zero starting values make no difference: the answer is the sum of the three largest totals |
| Day01.TiesKept | src/day_01.rs:37-46 | strict comparisons still count equal totals: totals 7, 7, 1 give 15 |
| Day01.Part2 | src/day_01.rs:28-50 | Ok iff the input parses; the answer is non-negative and the largest sum of three distinct entries of the totals preceded by the three zero starting values |
| Day01.TopThree | src/day_01.rs:31-49 | the loop over the three running maxima returns the largest sum of three distinct entries of the zero-padded totals |
| Day01Examples.ExampleParsed | src/day_01.rs:56-69 | the sample parses into the five elves' lists |
| Day01Examples.ExamplePart1 | src/day_01.rs:71-74 | part 1 of the sample is 24000 |
| Day01Examples.ExamplePart2 | src/day_01.rs:76-79 | part 2 of the sample is 45000 |
| Day01Examples.TwoBlankLines | src/day_01.rs:4-10 | "1", two blank lines, "2" leaves a blank line at the head of the second group, so parsing fails |
| Day01Examples.ThreeBlankLines | src/day_01.rs:4-10 | "1", three blank lines, "2" gives the groups [1], [] and [2] |
| Day02.FromStr | src/day_02.rs:20-32 | a token is accepted iff it is one of A, B, C, X, Y, Z; anything else is an error |
| Day02.FromStrOfTokens | src/day_02.rs:20-32 | A and X read as Rock, B and Y as Paper, C and Z as Scissors |
| Day02.AgainstIsCyclic | src/day_02.rs:36-48 | the outcome table is the cyclic rule: a shape beats the one before it in Rock, Paper, Scissors |
| Day02.AgainstAntisymmetric | src/day_02.rs:36-48 | a wins against b iff b loses against a; a draw iff the shapes are equal |
| Day02.Beaten | src/day_02.rs:36-48 | every shape has a shape it beats |
| Day02.BeatsExactlyOne | src/day_02.rs:36-48 | every shape beats exactly one shape |
| Day02.ActionPoints | src/day_02.rs:50-56 | shape points are 1, 2, 3 in the order Rock, Paper, Scissors |
| Day02.ResultPoints | src/day_02.rs:59-67 | outcome points are one of 0, 3, 6 |
| Day02.ResultPointsShared | src/day_02.rs:59-67 | the two players' outcome points always add up to 6 |
| Day02.RoundScore | src/day_02.rs:89-92 | a round's score lies between 1 and 9 |
| Day02.ParseActions | src/day_02.rs:74-77 | the tokens of a line parse iff each token is a shape letter; value k is token k's shape |
| Day02.ParseLine | src/day_02.rs:73-81 | a line parses iff it has at least two tokens and all are shape letters; the round is the first two |
| Day02.ParseFormattedRound | src/day_02.rs:73-81 | a round written as "A Y", after any indentation, reads back as the same two shapes |
| Day02.ParseInputData | src/day_02.rs:69-84 | Ok iff every line parses; round k is line k's round |
| Day02.ScoreIsRoundTotal | src/day_02.rs:86-95 | the two separately summed columns equal the sum of per-round scores, between 1 and 9 points per round |
| Day02.Part1 | src/day_02.rs:86-95 | Ok iff every line parses |
| Day02Examples.ExampleRounds | src/day_02.rs:107-109 | the indented sample reads as (Rock, Paper), (Paper, Rock), (Scissors, Scissors) |
| Day02Examples.ExamplePart1 | src/day_02.rs:111-114 | part 1 of the sample is 15 |
| Day03.Priority | src/day_03.rs:13-17 | a character has a priority iff it is an ASCII letter; priorities lie in 1..52 |
| Day03.ItemOfPriority | src/day_03.rs:13-17 | every letter is recovered from its priority |
| Day03.PriorityOfItemOf | src/day_03.rs:13-17 | every value in 1..52 is the priority of some letter |
| Day03.PriorityInjective | src/day_03.rs:13-17 | distinct letters have distinct priorities |
| Day03.ParseBackpack | src/day_03.rs:4-19 | a line parses iff all its characters are letters; the list has the line's length and values in 1..52 |
| Day03.ParseBackpackValues | src/day_03.rs:9-18 | value i is the priority of character i |
| Day03.ParseInputData | src/day_03.rs:1-22 | Ok iff every line parses; list k is line k's list |
| Day03.SharedFrom | src/day_03.rs:36-42 | the scan from position k yields the first element of the rest that occurs in the first half; Err iff there is none |
| Day03.DuplicateSpec | src/day_03.rs:24-43 | an Ok value occurs in the first len/2 elements and in the rest; Err iff the two halves share no value |
| Day03.DuplicateAt | src/day_03.rs:36-40 | the result is the first element of the second half, in order, that occurs in the first half |
| Day03.DuplicateIsPriority | src/day_03.rs:24-43 | a duplicate of a priority list is itself in 1..52 |
| Day03.MarkFirstHalf | src/day_03.rs:28-33 | after the first loop, hit-table entry p is set iff p + 1 occurs in the first half |
| Day03.FindDuplicateNumber | src/day_03.rs:24-43 | the two loops over the hit table compute the duplicate as specified |
| Day03.SumDuplicates | src/day_03.rs:48-53 | Ok iff every rucksack has a duplicate |
| Day03.SumDuplicatesBounds | src/day_03.rs:48-53 | the sum lies between 1 and 52 per rucksack |
| Day03.SumDuplicatesIsSum | src/day_03.rs:48-53 | the result is the sum of the rucksacks' duplicates |
| Day03.LineDuplicate | src/day_03.rs:1-43 | a letter at position a of the first half and j of the second, with no earlier shared letter in the second half, is the line's duplicate |
| Day03.Part1Succeeds | src/day_03.rs:45-56 | part 1 succeeds iff every line is letters only and has a duplicate |
| Day03.Part1Bounds | src/day_03.rs:45-56 | part 1 lies between 1 and 52 per line |
| Day03.Part1IsSum | src/day_03.rs:45-56 | part 1 is the sum of the lines' duplicate priorities |
| Day03.Part1Cons | src/day_03.rs:45-56 | the first line contributes its duplicate, independently of the others |
| Day03Examples.ExamplePart1 | src/day_03.rs:68-78 | part 1 of the sample is 157 |
| Day04.ParseRange | src/day_04.rs:16-24 | a failure carries the source's "Unable to parse line" |
| Day04.ParseLine | src/day_04.rs:15-25 | a failure carries the source's "Unable to parse line" |
| Day04.ParseInputData | src/day_04.rs:7-28 | Ok iff every line parses; pair k is line k's pair |
| Day04.ParseFormattedRange | src/day_04.rs:16-24 | "a-b" written from two unsigned numbers reads back as the range a..b |
| Day04.ParseFormattedLine | src/day_04.rs:7-28 | "a-b,c-d" reads back as the same pair of ranges |
| Day04.TestsSymmetric | src/day_04.rs:34-57 | both tests give the same answer with the two ranges swapped |
| Day04.OverlapIsSharedSection | src/day_04.rs:52-53 | for ranges with start ≤ end, the overlap test holds iff max(starts) ≤ min(ends), iff some section lies in both |
| Day04.ContainedOverlaps | src/day_04.rs:36-53 | for well-formed ranges, containment implies overlap |
| Day04.ContainedWithoutOverlap | src/day_04.rs:36-53 | without start ≤ end it does not: 3-1 contains 2-2 by the test, yet does not overlap it |
| Day04.CountsSnoc | src/day_04.rs:34-41 | one more pair adds its tests' outcomes to the counts |
| Day04.CountsAtMostPairs | src/day_04.rs:33-59 | both counts are at most the number of pairs |
| Day04.ContainedAtMostOverlapping | src/day_04.rs:30-60 | with well-formed ranges, part 1 never exceeds part 2 |
| Day04.CountsIgnoreOrder | src/day_04.rs:34-57 | swapping the ranges of every pair changes neither count |
| Day04.ContainedPairs | src/day_04.rs:33-43 | the counter loop counts the pairs passing the containment test |
| Day04.OverlappingPairs | src/day_04.rs:49-59 | the counter loop counts the pairs passing the overlap test |
| Day04.Part1 | src/day_04.rs:30-44 | Ok iff the input parses; the answer is the number of pairs where one range lies within the other |
| Day04.Part2 | src/day_04.rs:46-60 | Ok iff the input parses; the answer is the number of overlapping pairs |
| Day04Examples.ExampleParsed | src/day_04.rs:66-71 | the sample parses into its six pairs |
| Day04Examples.ExampleAnswers | src/day_04.rs:73-81 | the sample gives 2 for part 1 and 4 for part 2 |
| Day05.SplitInput | src/day_05.rs:6-8 | the first two paragraphs; Ok iff some blank line is neither the first nor the last line, the error being "Unable to get second part of input" |
| Day05.FirstPieceOf | src/day_05.rs:8 | instructions followed by nothing or by a blank line and more form the first paragraph on their own |
| Day05.SplitInputOf | src/day_05.rs:6-8 | a non-empty drawing, one blank line and non-empty instructions split back into the drawing and the instructions, whatever follows a further blank line |
| Day05.DoubleBlankLine | src/day_05.rs:6-8 | two blank lines after the drawing put a blank line at the head of the instructions, which is no move, so the whole input is refused |
| Day05.Column | src/day_05.rs:43-58 | a stack holds only the letters of its column and at most one crate per row |
| Day05.ColumnTop | src/day_05.rs:43-58 | rows pushed to the front top-down leave the top row's crate at the back, on top |
| Day05.StacksOf | src/day_05.rs:19-40 | the drawing is accepted iff it is non-empty and every line has the first line's length; it gives first-line length / 4 + 1 stacks |
| Day05.StacksOfCrates | src/day_05.rs:43-58 | every stack holds only letters, fewer crates than the drawing has lines |
| Day05.ParseStacks | src/day_05.rs:19-62 | the length check, the allocation and the nested push_front loops compute the stacks as specified |
| Day05.NewStacks | src/day_05.rs:36-40 | the allocation loop makes `count` empty stacks |
| Day05.PushRows | src/day_05.rs:42-58 | every row but the label line pushes its crates, yielding the specified stacks |
| Day05.PushRow | src/day_05.rs:44-57 | the letter at column 4s+1 of a row goes to the front of stack s; other stacks are unchanged |
| Day05.ParseMove | src/day_05.rs:64-74 | a line is read iff it is "move n from n to n" with unsigned numbers; the numbers are the three fields |
| Day05.ParseFormattedMove | src/day_05.rs:69-70 | a move written as the puzzle writes it reads back as itself |
| Day05.ParseMoves | src/day_05.rs:64-74 | Ok iff every line is a move; move k is line k's move |
| Day05.ParseFormattedMoves | src/day_05.rs:64-74 | a list of moves written line by line reads back as itself |
| Day05.MoveCrate | src/day_05.rs:84-93 | a single-crate move succeeds iff `from` names a stack, that stack is non-empty, and `to` names a stack |
| Day05.MoveCrateKeeps | src/day_05.rs:84-93 | a single-crate move keeps the total number of crates |
| Day05.MoveCrateOthers | src/day_05.rs:84-93 | other stacks are unchanged; the source loses its top crate and the target gains it on top |
| Day05.Reverse | src/day_05.rs:80-95 | element i of the reverse is element n−1−i |
| Day05.CrateMovesReverse | src/day_05.rs:80-95 | "move k" between two stacks moves the top k crates of the source, in reversed order, onto the target, and leaves the rest unchanged |
| Day05.CrateMovesTooMany | src/day_05.rs:84-88 | moving more crates than the source holds fails |
| Day05.CrateMovesOntoItself | src/day_05.rs:84-93 | moving crates from a non-empty stack onto itself changes nothing |
| Day05.CrateMovesKeep | src/day_05.rs:80-95 | a successful "move k" keeps the total number of crates |
| Day05.RearrangeKeeps | src/day_05.rs:80-95 | a successful rearrangement never creates or loses a crate |
| Day05.Tops | src/day_05.rs:100-111 | the answer exists iff no stack is empty; character i is the top of stack i |
| Day05.MoveCrates | src/day_05.rs:81-94 | the pop_back/push_back repeat loop computes the specified "move k", error cases included |
| Day05.Part1 | src/day_05.rs:76-112 | split, parse, every move in order, then the tops: the method computes the specified answer, the first failure aborting |
| Day05Examples.ExampleStacks | src/day_05.rs:124-127 | the sample drawing gives stacks ZN, MCD, P |
| Day05Examples.ExampleRearrange | src/day_05.rs:128-131 | the sample moves leave stacks C, M, PDNZ |
| Day05Examples.Example | src/day_05.rs:133-136 | part 1 of the sample is "CMZ" |
| Day06.FindMarker | src/day_06.rs:6-24 | the first window end in [end, last] whose window is pairwise distinct; Err iff none is |
| Day06.Marker | src/day_06.rs:6-25 | the smallest end n ≤ e ≤ len whose last n characters are pairwise distinct; Err iff none is |
| Day06.Part1 | src/day_06.rs:3-26 | the returned i + 1 is the end of the first 4-character distinct window; fails iff there is none |
| Day06.MarkerBeforeEnd | src/day_06.rs:33-46 | as `Marker`, but only ends up to len − 1 are examined |
| Day06.MarkerBeforeEndAgrees | src/day_06.rs:33-46 | when the truncated search finds a marker, it is the true first marker |
| Day06.FirstMarker | src/day_06.rs:6-24 | a distinct window with no distinct window before it is the marker |
| Day06.FirstMarkerBeforeEnd | src/day_06.rs:33-44 | the same for the truncated search, for ends below len |
| Day06.LastWindowMissed | src/day_06.rs:33 | "aabcdefghijklmn" has its only message window at the very end: the truncated search fails, yet the marker is 15 |
| Day06.Repeated | src/day_06.rs:38-40 | a repeated character makes a window not distinct |
| Day06.DistinctExtend | src/day_06.rs:38-42 | a distinct window grown by an unseen character stays distinct |
| Day06.ScanWindow | src/day_06.rs:34-43 | the hit-table scan answers true iff the window is pairwise distinct |
| Day06.Part2 | src/day_06.rs:28-47 | the result is the first 14-character distinct window ending before the last character; fails iff there is none |
| Day06Examples.ExampleAPacket | src/day_06.rs:61 | part 1 of the first sample is 7 |
| Day06Examples.ExampleBPacket | src/day_06.rs:62 | part 1 of the second sample is 5 |
| Day06Examples.ExampleCPacket | src/day_06.rs:63 | part 1 of the third sample is 6 |
| Day06Examples.ExampleDPacket | src/day_06.rs:64 | part 1 of the fourth sample is 10 |
| Day06Examples.ExampleEPacket | src/day_06.rs:65 | part 1 of the fifth sample is 11 |
| Day06Examples.ExampleAMessage | src/day_06.rs:70 | part 2 of the first sample is 19 |
| Day06Examples.ExampleBMessage | src/day_06.rs:71 | part 2 of the second sample is 23 |
| Day06Examples.ExampleCMessage | src/day_06.rs:72 | part 2 of the third sample is 23 |
| Day06Examples.ExampleDMessage | src/day_06.rs:73 | part 2 of the fourth sample is 29 |
| Day06Examples.ExampleEMessage | src/day_06.rs:74 | part 2 of the fifth sample is 26 |
| Day07.StripDoubleSlash | src/day_07.rs:50-52 | a path starting "//" loses its first character; any other path is kept |
| Day07.RootPaths | src/day_07.rs:43-62 | in the root the current path is "/" and a name n becomes "/" + n (a name starting with "/" is kept as is) |
| Day07.JoinBelowRoot | src/day_07.rs:44 | joining ["/", c1, …] with "/" starts with "//" |
| Day07.NestedPaths | src/day_07.rs:43-62 | below the root the current path is "/c1/…/ck" and a name n becomes that path + "/" + n |
| Day07.StrippedPaths | src/day_07.rs:50-60 | removing the doubled slash turns "//rest" into "/rest" |
| Day07.FullPathLonger | src/day_07.rs:43-62 | an entry's full path is strictly longer than the current folder's path |
| Day07.SplitChangeDir | src/day_07.rs:81 | "$ cd " + t splits into "$", "cd" and the fields of t |
| Day07.ChangeDirTarget | src/day_07.rs:81 | the folder name is the space-free text after "$ cd ", up to the next space |
| Day07.FirstField | src/day_07.rs:81 | the first field of a split on spaces is the longest space-free prefix |
| Day07.ParseCommand | src/day_07.rs:80-126 | "$ cd " lines are folder changes and "$ ls" lines listings; "dir n" lines are folders named n; other lines are a size, a space and a name |
| Day07.ParseFormattedChangeDir | src/day_07.rs:80-86 | "$ cd t" reads back as a change to t |
| Day07.ParseFormattedFileEntry | src/day_07.rs:107-110 | "size name" reads back as the same file entry |
| Day07.ParseFormattedCommand | src/day_07.rs:80-126 | every well-formed terminal line reads back as itself |
| Day07.Pop | src/day_07.rs:83 | the stack loses its last entry; an empty stack stays empty |
| Day07.Execute | src/day_07.rs:80-126 | "cd .." pops, "cd x" pushes x, "ls" changes nothing. "dir" registers an empty folder under its full path and adds it to the current folder's subfolders. A file line registers the file with its size and adds it to the current folder's files. Either fails iff the current folder is not registered. Other folders and files are unchanged |
| Day07.Parsed | src/day_07.rs:64-130 | a session parses only if its first line is exactly "$ cd /" |
| Day07.ReplayKeepsKeys | src/day_07.rs:79-127 | no line ever removes a folder or a file |
| Day07.ParsedHasRoot | src/day_07.rs:71-77 | a parsed file system always has the root folder |
| Day07.ParseInputData | src/day_07.rs:64-130 | the stack-and-maps loop computes the specified file system, error cases included |
| Day07.ExecuteKeepsWf | src/day_07.rs:89-126 | each line keeps every listed file registered and every subfolder at a strictly longer path |
| Day07.ReplayKeepsWf | src/day_07.rs:79-127 | a session with no "dir /" line keeps that property |
| Day07.ParsedIsWf | src/day_07.rs:64-130 | every session without "dir /" gives a well-formed file system, on which the size recursion terminates |
| Day07.RootInsideItself | src/day_07.rs:89-106 | "dir /" in the root makes the root its own subfolder, so the file system is not well formed |
| Day07.LongerKeysShrink | src/day_07.rs:147-149 | a subfolder leaves fewer strictly longer paths: the recursion's measure decreases |
| Day07.FolderSizeCoversChildren | src/day_07.rs:132-151 | a folder is at least as large as each of its files and each of its subfolders |
| Day07.ComputeFolderSize | src/day_07.rs:132-151 | the recursive loop returns the sum of the folder's own file sizes and its subfolders' sizes |
| Day07.SmallFolderSizes | src/day_07.rs:156-160 | each folder contributes its size if at most 100000, else 0 |
| Day07.SmallFolderCounted | src/day_07.rs:156-161 | every folder of at most 100000 is part of the total |
| Day07.SmallFoldersTotalAtMost | src/day_07.rs:156-161 | the total is at most 100000 times the number of folders |
| Day07.SumSizes | src/day_07.rs:156-161 | the pass over all folders adds exactly their contributions |
| Day07.SumSmallFolders | src/day_07.rs:156-161 | the result is the sum of the sizes of the folders of at most 100000 |
| Day07.Part1 | src/day_07.rs:153-164 | parse errors are returned. A file system whose size recursion would not terminate is rejected. Otherwise the answer is the sum of the sizes of the folders of at most 100000 |
| Day07Examples.ExampleParsed | src/day_07.rs:176-198 | the sample session builds the tree of folders /, /a, /a/e, /d with their files |
| Day07Examples.SizeOfE | src/day_07.rs:188-190 | folder /a/e has size 584 |
| Day07Examples.SizeOfA | src/day_07.rs:182-190 | folder /a has size 94853 |
| Day07Examples.SizeOfD | src/day_07.rs:193-198 | folder /d has size 24933642 |
| Day07Examples.SizeOfRoot | src/day_07.rs:176-198 | the root has size 48381165 |
| Day07Examples.ExampleTotal | src/day_07.rs:208-210 | part 1 of the first sample is 95437 |
| Day07Examples.SecondParsed | src/day_07.rs:200-206 | the two files named zzz are kept apart as /zzz and /a/zzz |
| Day07Examples.SecondTotal | src/day_07.rs:211 | part 1 of the second sample is 2042 |
| Day08.ZeroHeightHidden | src/day_08.rs:30-73 | an interior tree of height 0 is never visible: the test `>=` lets any neighbour block it |
| Day08.PerimeterVisible | src/day_08.rs:24-27 | every tree on the perimeter is marked visible |
| Day08.RowCountAtMost | src/day_08.rs:78-82 | a row contributes at most its width |
| Day08.EdgeRowCount | src/day_08.rs:24-27 | the first and the last row are fully visible |
| Day08.InnerRowCount | src/day_08.rs:24-27 | every other row shows at least its two end trees |
| Day08.GridCountAtMost | src/day_08.rs:78-82 | the count is at most rows × columns |
| Day08.GridCountAtLeast | src/day_08.rs:24-27 | the perimeter trees are all counted |
| Day08.VisibleCountBounds | src/day_08.rs:78-82 | with at least two rows and two columns the answer lies between 2·rows + 2·cols − 4 and rows·cols |
| Day08.TreeMark | src/day_08.rs:22-73 | a tree's entry is 1 iff it is on the perimeter or every tree in some direction is strictly shorter, else 0 |
| Day08.FillTable | src/day_08.rs:19-74 | after the first pass every entry of the table is the tree's visibility mark, 0 or 1 |
| Day08.SumTable | src/day_08.rs:78-82 | the second pass adds up the marks |
| Day08.Part1 | src/day_08.rs:16-83 | the answer is the number of visible trees of the grid |
| Day08Examples.ExampleCount | src/day_08.rs:95-104 | the sample grid has 21 visible trees |
| Day09.ParseDirection | src/day_09.rs:23-29 | a letter is a direction iff it is one of U, D, L, R |
| Day09.ParseInstruction | src/day_09.rs:20-37 | a line is accepted iff it starts with a direction letter and the text after the second character is an integer |
| Day09.ParseFormattedInstruction | src/day_09.rs:17-40 | "D n" written from an instruction reads back as itself |
| Day09.ParseInputData | src/day_09.rs:17-40 | Ok iff every line parses; instruction k is line k's |
| Day09.ParseFormattedInput | src/day_09.rs:17-40 | instructions written line by line read back as themselves |
| Day09.HeadNextToTail | src/day_09.rs:42-57 | the nine listed cases hold iff the Chebyshev distance is at most 1 |
| Day09.HeadNextToTailSymmetric | src/day_09.rs:42-57 | touching is symmetric |
| Day09.HeadNextToTailExamples | src/day_09.rs:196-212 | the pairs of the source's unit test |
| Day09.MoveTailTowardsHeadIfNeeded | src/day_09.rs:59-108 | a touching knot stays put; otherwise it moves by sign(head − tail) on each axis |
| Day09.NotTouchingMeansDistinct | src/day_09.rs:73-75 | the `unreachable!` branch is dead: a knot that does not touch is on another cell |
| Day09.FollowIsOneKingMove | src/day_09.rs:70-107 | the rule moves a knot at most one unit per axis and never away from its leader |
| Day09.FollowRestoresContact | src/day_09.rs:59-108 | a knot within Chebyshev distance 2 touches its leader after the rule |
| Day09.FollowAfterLeaderMove | src/day_09.rs:118-127 | a leader that moves one king step from a touching follower is touched again after the rule |
| Day09.FollowExamples | src/day_09.rs:214-230 | the cases of the source's unit test, among them (3,1),(1,1) → (2,1), (2,1),(1,3) → (2,2) and (3,2),(1,3) → (2,2) |
| Day09.MoveHead | src/day_09.rs:120-125 | a head step moves the head exactly one cell |
| Day09.PropagateKeepsTaut | src/day_09.rs:158-166 | after one king step of the leader, one pass down the chain in leader-to-follower order leaves every link touching |
| Day09.StepRopeKeepsTaut | src/day_09.rs:151-167 | a unit step keeps every link of the rope touching |
| Day09.RopeStaysTaut | src/day_09.rs:150-169 | on every input, every link of the rope touches after every instruction |
| Day09.RepeatVisited | src/day_09.rs:151-168 | the visited set only grows, by at most one cell per unit step, and is non-empty after a step |
| Day09.RunVisited | src/day_09.rs:150-169 | the same over all instructions; no unit step leaves the set unchanged |
| Day09.TailVisitsBounds | src/day_09.rs:116-131 | the count is at most the number of unit steps, and 0 iff there is no unit step (empty input included) |
| Day09.PairStep | src/day_09.rs:119-127 | the source's head and tail update is one unit step of a two-knot rope |
| Day09.PropagateAt | src/day_09.rs:158-166 | knot i after the pass follows the already moved knot i − 1 |
| Day09.PropagateNine | src/day_09.rs:158-166 | the nine follow calls on the source's knot variables are the pass down a nine-knot chain |
| Day09.TenStep | src/day_09.rs:152-167 | the source's ten-variable update is one unit step of a ten-knot rope |
| Day09.Part1 | src/day_09.rs:110-132 | the two-variable simulation returns the number of distinct tail cells of a two-knot rope; parse errors fail |
| Day09.PairInstruction | src/day_09.rs:119-128 | one instruction's unit steps on head and tail are its steps of the two-knot rope |
| Day09.Part2 | src/day_09.rs:134-172 | the ten-variable simulation returns the number of distinct tail cells of a ten-knot rope; parse errors fail |
| Day09.TenInstruction | src/day_09.rs:151-168 | one instruction's unit steps on the ten variables are its steps of the ten-knot rope |
| Day09.TenUnitStep | src/day_09.rs:152-167 | one pass of the inner loop body is one unit step of the ten-knot rope |
| Day09Examples.ExampleParses | src/day_09.rs:178-185 | the sample reads as its eight instructions |
| Day09Examples.ExampleTwoKnots | src/day_09.rs:232-235 | part 1 of the sample is 13 |
| Day09Examples.ExampleTenKnots | src/day_09.rs:237-239 | part 2 of the sample is 1 |

## Left out

- Input is taken as its list of lines (`seq<string>`), not as one text. The text is the
  lines joined by single newlines. Days 2, 3, 4, 7 and 9 take the list that `lines()`
  gives. Days 1 and 5 model `split("\n\n")` and `lines()` on the list:
  `Text.Paragraphs` pairs up newlines as `split("\n\n")` does, so a run of blank lines
  is read as the source reads it. A `"\r"` before a newline, which `lines()` also
  strips, is not modelled.
- Strings are sequences of Unicode scalar values, and lengths are counted in characters.
  Whitespace is Unicode's White_Space set, as `char::is_whitespace` uses.
- Day05.StacksOf: compares and divides the lines' widths in characters, while `len()` at
  `src/day_05.rs:22` and `:25` counts UTF-8 bytes. Drawings with non-ASCII characters
  are therefore not modelled as the source reads them. The source's `chars().get(i)`
  over a byte range can also fail on them, and the model has no such error.
- Integers are mathematical. The `i64`, `usize` and `u8` widths, overflow and wrap-around
  are not modelled. The one exception is day 6 part 2's subtraction, stated as a
  precondition.
- `sscanf!` is modelled over a restricted grammar. Day 4 and day 5 read unsigned decimal
  fields separated by exactly the literal text. A day 7 "dir" line takes the rest of the
  line as its name, and a file line takes a number, one space and the rest as its name.
- Day04.ParseRange: accepts only unsigned numbers, while the source's `{i64}` fields
  also take a sign; its contract gives only the error message, and the round-trip
  lemmas state the rest.
- Day04.ParseLine: its contract gives only the error message; `ParseFormattedLine`
  states what it reads.
- Day02.Part1: its contract states only when it succeeds. The value is the two column
  sums, whose meaning `ScoreIsRoundTotal` states.
- HashMap/HashSet hashing and iteration order are left out: maps and sets are Dafny
  `map`/`set`, since only membership and cardinality matter. Day 7 part 1 sums over the
  folder set in an arbitrary order, which does not change the sum.
- `Rc<RefCell<…>>` in day 7 is left out. The folder and file maps are plain values, as
  nothing is shared between two keys.
- Day 8: the grid shape guessed with an `f64` square root in `parse_input_data`
  (`src/day_08.rs:3-14`) is not modelled. The heights are given as a two-dimensional
  array of naturals.
- Day07.Part1: when the file system is not well formed (only a "dir /" line can cause
  this), the source's recursion never returns. The model returns an error instead.
- Day06.Part2: requires every character but the last to be a lowercase ASCII letter.
  Otherwise `*char_j as usize - 97` would underflow or index out of the table. The
  requires also excludes streams that the source answers without panicking, because it
  stops before reaching the bad character. For example, the source returns 14 for
  "abcdefghijklmnZZ" and never reads a 'Z'. The panic on a bad character is not
  modelled as an error.
- The part-2 placeholders of days 2, 3, 5, 7 and 8 return constants or the input length.
  They are not modelled, and neither are their unit tests, which expect values the
  placeholders do not produce.
- Day 9: the second sample of part 2 (`LARGER_EXAMPLE`, 36) is not proved. Its
  step-by-step simulation is too large for this proof style. The first sample (1) and
  part 1's sample (13) are proved.
- Day 9 is not generalised to ropes of any length. Both simulations keep the source's
  own variables and are proved equal to the rope of 2 and of 10 knots.

## Findings

| source | as written | input that shows it | evidently intended | confidence | as-written member | corrected member |
|---|---|---|---|---|---|---|
| src/day_06.rs:33 | `for i in 14..characters.len()` never examines the window that ends at the last character | "aabcdefghijklmn" (15 characters): the only distinct 14-character window ends at 15, so the loop finds nothing and panics | the window ending at the last character is examined too, giving 15, as part 1's search does | not executed | Day06.MarkerBeforeEnd (shown by Day06.LastWindowMissed) | Day06.Marker |

`Day06.Part2` models the loop as written, so its result is `MarkerBeforeEnd(cs, 14)`.
`Day06.MarkerBeforeEndAgrees` shows the two searches agree whenever the truncated one
succeeds.
