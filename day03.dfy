/** Day 3: rucksacks. Each line lists the items of one rucksack, split into two halves;
    an item's priority comes from its letter, the item found in both halves is the
    duplicate, and the answer is the sum of the duplicates' priorities. */
module Day03 {
  import opened Wrappers

  const NoDuplicate := "No duplicate found"

  predicate IsItem(c: char) { 'a' <= c <= 'z' || 'A' <= c <= 'Z' }

  /** 'a'..'z' have priorities 1..26 and 'A'..'Z' have 27..52; anything else is rejected. */
  function Priority(c: char): (r: Result<nat>)
    ensures r.Ok? <==> IsItem(c)
    ensures r.Ok? ==> 1 <= r.value <= 52
  {
    if 'a' <= c <= 'z' then Ok(c as int - 'a' as int + 1)
    else if 'A' <= c <= 'Z' then Ok(c as int - 'A' as int + 27)
    else Err("Invalid character")
  }

  /** The letter of a priority: the inverse of the mapping. */
  function ItemOf(p: nat): (c: char)
    requires 1 <= p <= 52
    ensures IsItem(c)
  {
    if p <= 26 then ('a' as int + p - 1) as char else ('A' as int + p - 27) as char
  }

  lemma ItemOfPriority(c: char)
    requires IsItem(c)
    ensures ItemOf(Priority(c).value) == c
  {
  }

  lemma PriorityOfItemOf(p: nat)
    requires 1 <= p <= 52
    ensures Priority(ItemOf(p)) == Ok(p)
  {
  }

  /** Different letters have different priorities. */
  lemma PriorityInjective(c: char, d: char)
    requires IsItem(c) && IsItem(d) && c != d
    ensures Priority(c).value != Priority(d).value
  {
    ItemOfPriority(c);
    ItemOfPriority(d);
  }

  predicate AllItems(line: string)
  {
    forall i :: 0 <= i < |line| ==> IsItem(line[i])
  }

  predicate Priorities(list: seq<nat>)
  {
    forall k :: 0 <= k < |list| ==> 1 <= list[k] <= 52
  }

  /** One rucksack: the priority of every character, or an error on the first one that is
      not a letter. */
  function ParseBackpack(line: string): (r: Result<seq<nat>>)
    ensures r.Ok? <==> AllItems(line)
    ensures r.Ok? ==> |r.value| == |line| && Priorities(r.value)
  {
    if line == [] then Ok([])
    else
      match Priority(line[0])
      case Err(e) => Err(e)
      case Ok(first) =>
        match ParseBackpack(line[1..])
        case Err(e) => Err(e)
        case Ok(rest) => Ok([first] + rest)
  }

  /** Each entry of a parsed rucksack is the priority of the character at its place. */
  lemma {:induction false} ParseBackpackValues(line: string)
    requires AllItems(line)
    ensures forall i :: 0 <= i < |line| ==> Priority(line[i]) == Ok(ParseBackpack(line).value[i])
  {
    if line != [] {
      ParseBackpackValues(line[1..]);
    }
  }

  function ParseInputData(lines: seq<string>): (r: Result<seq<seq<nat>>>)
    ensures r.Ok? <==> forall k :: 0 <= k < |lines| ==> ParseBackpack(lines[k]).Ok?
    ensures r.Ok? ==> |r.value| == |lines|
                      && forall k :: 0 <= k < |lines| ==> ParseBackpack(lines[k]) == Ok(r.value[k])
  {
    if lines == [] then Ok([])
    else
      match ParseBackpack(lines[0])
      case Err(e) => Err(e)
      case Ok(first) =>
        match ParseInputData(lines[1..])
        case Err(e) => Err(e)
        case Ok(rest) => Ok([first] + rest)
  }

  // ---------------------------------------------------------------- the duplicate

  /** The first element of list[k..] that also occurs in the first `half` elements. */
  function SharedFrom(list: seq<nat>, half: nat, k: nat): (r: Result<nat>)
    requires half <= k <= |list|
    ensures r.Ok? ==> r.value in list[..half]
                      && exists j :: k <= j < |list| && list[j] == r.value
                                     && forall m :: k <= m < j ==> list[m] !in list[..half]
    ensures r.Err? <==> forall m :: k <= m < |list| ==> list[m] !in list[..half]
    ensures r.Err? ==> r.message == NoDuplicate
    decreases |list| - k
  {
    if k == |list| then Err(NoDuplicate)
    else if list[k] in list[..half] then Ok(list[k])
    else SharedFrom(list, half, k + 1)
  }

  /** The first element of the second half, in order, that also occurs in the first half.
      The first half has |list| / 2 elements, so for an odd length the second half is the
      longer one. */
  function Duplicate(list: seq<nat>): Result<nat>
  {
    SharedFrom(list, |list| / 2, |list| / 2)
  }

  /** A duplicate occurs in both halves, and there is none exactly when no element of the
      first half equals one of the second. */
  lemma DuplicateSpec(list: seq<nat>)
    ensures Duplicate(list).Ok? ==> Duplicate(list).value in list[..|list| / 2]
                                     && Duplicate(list).value in list[|list| / 2..]
    ensures Duplicate(list).Err? <==> forall a, b :: 0 <= a < |list| / 2 <= b < |list| ==> list[a] != list[b]
    ensures Duplicate(list).Err? ==> Duplicate(list).message == NoDuplicate
  {
    var half := |list| / 2;
    var r := Duplicate(list);
    if r.Ok? {
      var j :| half <= j < |list| && list[j] == r.value;
      assert list[half..][j - half] == r.value;
    } else {
      forall a, b | 0 <= a < half <= b < |list|
        ensures list[a] != list[b]
      {
        assert list[..half][a] == list[a];
      }
    }
    if forall a, b :: 0 <= a < half <= b < |list| ==> list[a] != list[b] {
      forall m | half <= m < |list|
        ensures list[m] !in list[..half]
      {
        assert forall a :: 0 <= a < half ==> list[..half][a] != list[m];
      }
    }
  }

  /** The element at index j is the duplicate when it occurs in the first half and no
      element of the second half before it does. */
  lemma DuplicateAt(list: seq<nat>, a: nat, j: nat)
    requires a < |list| / 2 <= j < |list| && list[a] == list[j]
    requires forall m, b :: |list| / 2 <= m < j && 0 <= b < |list| / 2 ==> list[m] != list[b]
    ensures Duplicate(list) == Ok(list[j])
  {
    var half := |list| / 2;
    assert list[..half][a] == list[j];
    forall k | half <= k <= j
      ensures SharedFrom(list, half, k) == Ok(list[j])
    {
      DuplicateFrom(list, j, k);
    }
  }

  lemma {:induction false} DuplicateFrom(list: seq<nat>, j: nat, k: nat)
    requires |list| / 2 <= k <= j < |list| && list[j] in list[..|list| / 2]
    requires forall m, b :: |list| / 2 <= m < j && 0 <= b < |list| / 2 ==> list[m] != list[b]
    ensures SharedFrom(list, |list| / 2, k) == Ok(list[j])
    decreases j - k
  {
    if k < j {
      assert list[k] !in list[..|list| / 2];
      DuplicateFrom(list, j, k + 1);
    }
  }

  lemma DuplicateIsPriority(list: seq<nat>)
    requires Priorities(list) && Duplicate(list).Ok?
    ensures 1 <= Duplicate(list).value <= 52
  {
    DuplicateSpec(list);
    var v := Duplicate(list).value;
    var half := |list| / 2;
    assert v in list[half..];
    var i :| 0 <= i < |list[half..]| && list[half..][i] == v;
    assert list[half + i] == v;
  }

  /** The first loop of the source's search: a 52-entry table, indexed by priority minus
      one, in which exactly the priorities of the first `half` elements are marked. */
  method MarkFirstHalf(list: seq<nat>, half: nat) returns (hitTable: array<bool>)
    requires Priorities(list) && half <= |list|
    ensures fresh(hitTable) && hitTable.Length == 52
    ensures forall p :: 0 <= p < 52 ==> (hitTable[p] <==> p + 1 in list[..half])
  {
    hitTable := new bool[52](_ => false);
    for k := 0 to half
      invariant forall p :: 0 <= p < 52 ==> (hitTable[p] <==> p + 1 in list[..k])
    {
      assert list[..k + 1] == list[..k] + [list[k]];
      hitTable[list[k] - 1] := true;
    }
  }

  /** The source's search: marks the first half, then returns the first element of the
      second half whose entry is marked. */
  method FindDuplicateNumber(list: seq<nat>) returns (r: Result<nat>)
    requires Priorities(list)
    ensures r == Duplicate(list)
  {
    var half := |list| / 2;
    var hitTable := MarkFirstHalf(list, half);
    for k := half to |list|
      invariant SharedFrom(list, half, k) == SharedFrom(list, half, half)
    {
      if hitTable[list[k] - 1] {
        return Ok(list[k]);
      }
    }
    return Err(NoDuplicate);
  }

  // ---------------------------------------------------------------- part 1

  /** The duplicates' priorities added up; a rucksack without a duplicate is an error. */
  function SumDuplicates(backpacks: seq<seq<nat>>): (r: Result<int>)
    ensures r.Ok? <==> forall k :: 0 <= k < |backpacks| ==> Duplicate(backpacks[k]).Ok?
    ensures r.Err? ==> r.message == NoDuplicate
  {
    if backpacks == [] then Ok(0)
    else
      match Duplicate(backpacks[0])
      case Err(e) => Err(e)
      case Ok(first) =>
        match SumDuplicates(backpacks[1..])
        case Err(e) => Err(e)
        case Ok(rest) => Ok(first + rest)
  }

  /** Every duplicate is a priority, so the answer lies between one and 52 per rucksack. */
  lemma {:induction false} SumDuplicatesBounds(backpacks: seq<seq<nat>>)
    requires forall k :: 0 <= k < |backpacks| ==> Priorities(backpacks[k])
    requires SumDuplicates(backpacks).Ok?
    ensures |backpacks| <= SumDuplicates(backpacks).value <= 52 * |backpacks|
    decreases |backpacks|
  {
    if backpacks != [] {
      DuplicateIsPriority(backpacks[0]);
      SumDuplicatesBounds(backpacks[1..]);
    }
  }

  function Sum(values: seq<nat>): nat
  {
    if values == [] then 0 else values[0] + Sum(values[1..])
  }

  /** The answer is the sum of the duplicates, one per rucksack. */
  lemma {:induction false} SumDuplicatesIsSum(backpacks: seq<seq<nat>>, duplicates: seq<nat>)
    requires |duplicates| == |backpacks|
    requires forall k :: 0 <= k < |backpacks| ==> Duplicate(backpacks[k]) == Ok(duplicates[k])
    ensures SumDuplicates(backpacks) == Ok(Sum(duplicates))
    decreases |backpacks|
  {
    if backpacks != [] {
      SumDuplicatesIsSum(backpacks[1..], duplicates[1..]);
    }
  }

  /** No character of the second half before index j occurs in the first half. */
  predicate NoneSharedBefore(line: string, j: nat)
  {
    forall m, b :: |line| / 2 <= m < j && m < |line| && 0 <= b < |line| / 2 ==> line[m] != line[b]
  }

  /** The duplicate of a rucksack read from a line is the priority of the first letter of
      the second half that also occurs in the first half. */
  lemma {:induction false} LineDuplicate(line: string, a: nat, j: nat)
    requires AllItems(line)
    requires a < |line| / 2 <= j < |line| && line[a] == line[j]
    requires NoneSharedBefore(line, j)
    ensures ParseBackpack(line).Ok?
    ensures Duplicate(ParseBackpack(line).value) == Ok(Priority(line[j]).value)
  {
    var list := ParseBackpack(line).value;
    ParseBackpackValues(line);
    forall m, b | |list| / 2 <= m < j && 0 <= b < |list| / 2
      ensures list[m] != list[b]
    {
      PriorityInjective(line[m], line[b]);
    }
    DuplicateAt(list, a, j);
  }

  function Part1(lines: seq<string>): Result<int>
  {
    match ParseInputData(lines)
    case Err(e) => Err(e)
    case Ok(backpacks) => SumDuplicates(backpacks)
  }

  /** The answer exists exactly when every line is made of letters and has a duplicate. */
  lemma Part1Succeeds(lines: seq<string>)
    ensures Part1(lines).Ok? <==> forall k :: 0 <= k < |lines| ==>
              ParseBackpack(lines[k]).Ok? && Duplicate(ParseBackpack(lines[k]).value).Ok?
  {
  }

  lemma Part1Bounds(lines: seq<string>)
    requires Part1(lines).Ok?
    ensures |lines| <= Part1(lines).value <= 52 * |lines|
  {
    SumDuplicatesBounds(ParseInputData(lines).value);
  }

  /** Part 1 is the sum of the rucksacks' duplicates. */
  lemma {:induction false} Part1IsSum(lines: seq<string>, duplicates: seq<nat>)
    requires |duplicates| == |lines|
    requires forall k :: 0 <= k < |lines| ==> ParseBackpack(lines[k]).Ok?
    requires forall k :: 0 <= k < |lines| ==> Duplicate(ParseBackpack(lines[k]).value) == Ok(duplicates[k])
    ensures Part1(lines) == Ok(Sum(duplicates))
  {
    var backpacks := ParseInputData(lines).value;
    SumDuplicatesIsSum(backpacks, duplicates);
  }

  lemma {:induction false} SumDuplicatesCons(first: seq<nat>, others: seq<seq<nat>>)
    requires Duplicate(first).Ok? && SumDuplicates(others).Ok?
    ensures SumDuplicates([first] + others) == Ok(Duplicate(first).value + SumDuplicates(others).value)
  {
    var backpacks := [first] + others;
    assert backpacks[0] == first && backpacks[1..] == others;
  }

  lemma {:induction false} ParseInputDataCons(line: string, rest: seq<string>)
    requires ParseBackpack(line).Ok? && ParseInputData(rest).Ok?
    ensures ParseInputData([line] + rest) == Ok([ParseBackpack(line).value] + ParseInputData(rest).value)
  {
    var lines := [line] + rest;
    assert lines[0] == line && lines[1..] == rest;
  }

  /** A successful part 1 comes from a successful parse whose duplicates sum to the
      answer. */
  lemma {:induction false} Part1Parses(lines: seq<string>, p: int)
    requires Part1(lines) == Ok(p)
    ensures ParseInputData(lines).Ok? && SumDuplicates(ParseInputData(lines).value) == Ok(p)
  {
  }

  /** A rucksack in front of the others adds its duplicate to the answer. */
  lemma {:induction false} Part1Cons(line: string, rest: seq<string>, d: nat, p: int)
    requires ParseBackpack(line).Ok? && Duplicate(ParseBackpack(line).value) == Ok(d)
    requires Part1(rest) == Ok(p)
    ensures Part1([line] + rest) == Ok(d + p)
  {
    Part1Parses(rest, p);
    var first, others := ParseBackpack(line).value, ParseInputData(rest).value;
    ParseInputDataCons(line, rest);
    SumDuplicatesCons(first, others);
  }
}
