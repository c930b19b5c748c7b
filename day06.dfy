/** Day 6: the first position of a marker in a character stream, a marker being a window
    of 4 (start of packet) or 14 (start of message) pairwise distinct characters. The
    answer is the number of characters read when the window is complete. */
module Day06 {
  import opened Wrappers

  const NoMarker := "Unable to find a solution"

  predicate Distinct(s: string)
  {
    forall a, b :: 0 <= a < b < |s| ==> s[a] != s[b]
  }

  /** The window of the `n` characters that end just before index `end`. */
  function Window(cs: string, n: nat, end: nat): string
    requires n <= end <= |cs|
  {
    cs[end - n..end]
  }

  /** The smallest end in [end, last] whose window of `n` characters is distinct. */
  function FindMarker(cs: string, n: nat, end: nat, last: nat): (r: Result<nat>)
    requires n <= end && last <= |cs|
    ensures r.Ok? ==> end <= r.value <= last && Distinct(Window(cs, n, r.value))
                      && forall e :: end <= e < r.value ==> !Distinct(Window(cs, n, e))
    ensures r.Err? ==> r.message == NoMarker && forall e :: end <= e <= last ==> !Distinct(Window(cs, n, e))
    decreases last + 1 - end
  {
    if end > last then Err(NoMarker)
    else if Distinct(Window(cs, n, end)) then Ok(end)
    else FindMarker(cs, n, end + 1, last)
  }

  /** The first marker of `n` characters, windows ending anywhere up to the end of the
      stream being examined. */
  function Marker(cs: string, n: nat): (r: Result<nat>)
    ensures r.Ok? ==> n <= r.value <= |cs| && Distinct(Window(cs, n, r.value))
                      && forall e :: n <= e < r.value ==> !Distinct(Window(cs, n, e))
    ensures r.Err? <==> forall e :: n <= e <= |cs| ==> !Distinct(Window(cs, n, e))
    ensures r.Err? ==> r.message == NoMarker
  {
    if |cs| < n then Err(NoMarker) else FindMarker(cs, n, n, |cs|)
  }

  /** The search of the start-of-message part as written: its outer loop stops one short,
      so a window ending at the last character is never examined. */
  function MarkerBeforeEnd(cs: string, n: nat): (r: Result<nat>)
    ensures r.Ok? ==> n <= r.value < |cs| && Distinct(Window(cs, n, r.value))
                      && forall e :: n <= e < r.value ==> !Distinct(Window(cs, n, e))
    ensures r.Err? <==> forall e :: n <= e < |cs| ==> !Distinct(Window(cs, n, e))
    ensures r.Err? ==> r.message == NoMarker
  {
    if |cs| < n + 1 then Err(NoMarker) else FindMarker(cs, n, n, |cs| - 1)
  }

  /** The two searches agree unless the only markers end at the very last character. */
  lemma MarkerBeforeEndAgrees(cs: string, n: nat)
    requires MarkerBeforeEnd(cs, n).Ok?
    ensures Marker(cs, n) == MarkerBeforeEnd(cs, n)
  {
    var e := MarkerBeforeEnd(cs, n).value;
    assert Marker(cs, n).Ok? by {
      assert Distinct(Window(cs, n, e));
    }
  }

  /** A distinct window with no distinct window ending before it is the one the searches
      find. */
  lemma FirstMarker(cs: string, n: nat, end: nat)
    requires n <= end <= |cs| && Distinct(Window(cs, n, end))
    requires forall e :: n <= e < end ==> !Distinct(Window(cs, n, e))
    ensures Marker(cs, n) == Ok(end)
  {
  }

  lemma FirstMarkerBeforeEnd(cs: string, n: nat, end: nat)
    requires n <= end < |cs| && Distinct(Window(cs, n, end))
    requires forall e :: n <= e < end ==> !Distinct(Window(cs, n, e))
    ensures MarkerBeforeEnd(cs, n) == Ok(end)
  {
  }

  /** A stream whose only 14-character marker ends at its last character: the search as
      written misses it. */
  lemma LastWindowMissed()
    ensures MarkerBeforeEnd("aabcdefghijklmn", 14).Err?
    ensures Marker("aabcdefghijklmn", 14) == Ok(15)
  {
    var cs := "aabcdefghijklmn";
    assert !Distinct(Window(cs, 14, 14)) by {
      assert Window(cs, 14, 14)[0] == Window(cs, 14, 14)[1];
    }
    assert Distinct(Window(cs, 14, 15)) by {
      var w := Window(cs, 14, 15);
      assert forall k :: 0 <= k < 14 ==> w[k] == cs[k + 1];
      assert forall k :: 0 <= k < 14 ==> w[k] as int == 'a' as int + k;
    }
  }

  /** Start of packet: at each index i from 3 on, compares the four characters ending at i
      pairwise and returns i + 1 on the first distinct four. */
  method Part1(cs: string) returns (r: Result<nat>)
    ensures r == Marker(cs, 4)
  {
    var i := 3;
    while i < |cs|
      invariant 3 <= i && (i <= |cs| || i == 3)
      invariant forall e :: 4 <= e <= i ==> !Distinct(Window(cs, 4, e))
    {
      var c0, c1, c2, c3 := cs[i], cs[i - 1], cs[i - 2], cs[i - 3];
      ghost var w := Window(cs, 4, i + 1);
      assert w == [c3, c2, c1, c0];
      if c0 != c1 && c0 != c2 && c0 != c3 && c1 != c2 && c1 != c3 && c2 != c3 {
        assert Distinct(w);
        return Ok(i + 1);
      }
      assert !Distinct(w) by {
        if c0 == c1 { assert w[3] == w[2]; }
        else if c0 == c2 { assert w[3] == w[1]; }
        else if c0 == c3 { assert w[3] == w[0]; }
        else if c1 == c2 { assert w[2] == w[1]; }
        else if c1 == c3 { assert w[2] == w[0]; }
        else { assert w[1] == w[0]; }
      }
      i := i + 1;
    }
    return Err(NoMarker);
  }

  /** A window holding the same character twice is not a marker. */
  lemma Repeated(cs: string, start: nat, end: nat, m: nat, j: nat)
    requires start <= m < j < end <= |cs| && cs[m] == cs[j]
    ensures !Distinct(cs[start..end])
  {
    assert cs[start..end][m - start] == cs[start..end][j - start];
  }

  /** A distinct window grows by a character it does not hold yet. */
  lemma DistinctExtend(cs: string, start: nat, j: nat)
    requires start <= j < |cs| && Distinct(cs[start..j])
    requires forall m :: start <= m < j ==> cs[m] != cs[j]
    ensures Distinct(cs[start..j + 1])
  {
    var w := cs[start..j + 1];
    forall a, b | 0 <= a < b < |w|
      ensures w[a] != w[b]
    {
      if b < |w| - 1 {
        assert w[a] == cs[start..j][a] && w[b] == cs[start..j][b];
      }
    }
  }

  predicate Lowercase(c: char) { 'a' <= c <= 'z' }

  function LetterIndex(c: char): nat
    requires Lowercase(c)
  {
    c as int - 'a' as int
  }

  /** The inner loop of start of message: marks the letters of the 14 characters ending
      before `end` in a fresh 26-entry table and gives up (the source's `continue 'outer`)
      on the first letter already marked. */
  method ScanWindow(cs: string, end: nat) returns (distinct: bool)
    requires 14 <= end <= |cs|
    requires forall k :: end - 14 <= k < end ==> Lowercase(cs[k])
    ensures distinct <==> Distinct(Window(cs, 14, end))
  {
    var hitTable := new bool[26](_ => false);
    var start := end - 14;
    for j := start to end
      invariant forall m :: start <= m < j ==> hitTable[LetterIndex(cs[m])]
      invariant forall c :: 0 <= c < 26 && hitTable[c] ==> exists m :: start <= m < j && LetterIndex(cs[m]) == c
      invariant Distinct(cs[start..j])
    {
      var index := LetterIndex(cs[j]);
      if hitTable[index] {
        ghost var m :| start <= m < j && LetterIndex(cs[m]) == index;
        Repeated(cs, start, end, m, j);
        return false;
      }
      hitTable[index] := true;
      DistinctExtend(cs, start, j);
    }
    return true;
  }

  /** Start of message: for each end i in [14, |cs|) scans the window ending before i and
      returns i on the first distinct one. Every character the search may look at must be
      a lowercase letter, since the table index is the character code minus 97. */
  method Part2(cs: string) returns (r: Result<nat>)
    requires forall k :: 0 <= k < |cs| - 1 ==> Lowercase(cs[k])
    ensures r == MarkerBeforeEnd(cs, 14)
  {
    var i := 14;
    while i < |cs|
      invariant 14 <= i && (i <= |cs| || i == 14)
      invariant forall e :: 14 <= e < i ==> !Distinct(Window(cs, 14, e))
    {
      var end := i;
      i := i + 1;
      var distinct := ScanWindow(cs, end);
      if !distinct {
        continue;
      }
      FirstMarkerBeforeEnd(cs, 14, end);
      return Ok(end);
    }
    return Err(NoMarker);
  }
}
