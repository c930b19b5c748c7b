/** Text helpers shared by the parsers: decimal numbers as Rust's `str::parse` reads them,
    `split` on a separator, `join`, and `split_whitespace`. */
module Text {
  import opened Wrappers

  predicate IsDigit(c: char) { '0' <= c <= '9' }

  predicate AllDigits(s: string) { forall i :: 0 <= i < |s| ==> IsDigit(s[i]) }

  function DigitValue(c: char): (d: nat)
    requires IsDigit(c)
    ensures d < 10
  {
    c as int - '0' as int
  }

  function DigitChar(d: nat): (c: char)
    requires d < 10
    ensures IsDigit(c) && DigitValue(c) == d
  {
    ('0' as int + d) as char
  }

  /** The value of a string of decimal digits, most significant first. */
  function DigitsValue(s: string): nat
    requires AllDigits(s)
    decreases |s|
  {
    if s == [] then 0 else 10 * DigitsValue(s[..|s| - 1]) + DigitValue(s[|s| - 1])
  }

  /** An unsigned decimal number: one or more digits and nothing else. */
  function ParseNat(s: string): (r: Option<nat>)
    ensures r.Some? <==> s != [] && AllDigits(s)
  {
    if s != [] && AllDigits(s) then Some(DigitsValue(s)) else None
  }

  /** A signed decimal number as `i64::from_str` accepts it: an optional `+` or `-`
      followed by one or more digits. */
  function ParseInt(s: string): (r: Option<int>)
    ensures r.Some? <==>
              || (s != [] && AllDigits(s))
              || (|s| >= 2 && (s[0] == '-' || s[0] == '+') && AllDigits(s[1..]))
  {
    if |s| >= 1 && (s[0] == '-' || s[0] == '+') then
      match ParseNat(s[1..])
      case None => None
      case Some(n) => Some(if s[0] == '-' then -(n as int) else n)
    else
      match ParseNat(s)
      case None => None
      case Some(n) => Some(n)
  }

  /** The shortest decimal spelling of `n`. */
  function NatToString(n: nat): (s: string)
    ensures s != [] && AllDigits(s)
    decreases n
  {
    if n < 10 then [DigitChar(n)] else NatToString(n / 10) + [DigitChar(n % 10)]
  }

  function IntToString(i: int): (s: string)
    ensures s != []
  {
    if i < 0 then "-" + NatToString(-i) else NatToString(i)
  }

  lemma {:induction false} DigitsValueOfNatToString(n: nat)
    ensures DigitsValue(NatToString(n)) == n
    decreases n
  {
    var s := NatToString(n);
    if n >= 10 {
      DigitsValueOfNatToString(n / 10);
      assert s[..|s| - 1] == NatToString(n / 10);
    }
  }

  lemma ParseNatOfNatToString(n: nat)
    ensures ParseNat(NatToString(n)) == Some(n)
  {
    DigitsValueOfNatToString(n);
  }

  /** Printing an integer and reading it back gives the integer. */
  lemma ParseIntOfIntToString(i: int)
    ensures ParseInt(IntToString(i)) == Some(i)
  {
    var m: nat := if i < 0 then -i else i;
    ParseNatOfNatToString(m);
    if i < 0 {
      assert IntToString(i)[1..] == NatToString(m);
    }
  }

  /** The position of the first `x` in `s`. */
  function IndexOf<T(==)>(s: seq<T>, x: T): (i: nat)
    requires x in s
    ensures i < |s| && s[i] == x && x !in s[..i]
  {
    if s[0] == x then 0 else 1 + IndexOf(s[1..], x)
  }

  /** `parts` joined with one `sep` between neighbours, as Rust's `join`. */
  function JoinWith<T>(parts: seq<seq<T>>, sep: T): seq<T>
  {
    if |parts| == 0 then []
    else if |parts| == 1 then parts[0]
    else parts[0] + [sep] + JoinWith(parts[1..], sep)
  }

  /** An element of a joined sequence is a separator between two parts or an element of
      one of the parts. */
  lemma {:induction false} JoinWithMembers<T>(parts: seq<seq<T>>, sep: T, x: T)
    ensures x in JoinWith(parts, sep) <==> (x == sep && |parts| >= 2) || exists i :: 0 <= i < |parts| && x in parts[i]
    decreases |parts|
  {
    if |parts| >= 2 {
      JoinWithMembers(parts[1..], sep, x);
      assert forall i :: 1 <= i < |parts| ==> parts[i] == parts[1..][i - 1];
      if x in JoinWith(parts[1..], sep) && x != sep && |parts| == 2 {
        assert x in parts[1..][0];
      }
    }
  }

  /** The pieces of `s` between the occurrences of `sep`, as Rust's `split`: never empty,
      and an empty piece stands wherever two separators are adjacent or `s` starts or
      ends with one. */
  function SplitOn<T(==)>(s: seq<T>, sep: T): (r: seq<seq<T>>)
    ensures |r| >= 1
    ensures forall i :: 0 <= i < |r| ==> sep !in r[i]
    ensures JoinWith(r, sep) == s
    decreases |s|
  {
    if sep !in s then [s]
    else
      var i := IndexOf(s, sep);
      var rest := SplitOn(s[i + 1..], sep);
      assert ([s[..i]] + rest)[1..] == rest;
      assert s == s[..i] + [sep] + s[i + 1..];
      [s[..i]] + rest
  }

  lemma {:induction false} SplitOnJoinWith<T>(parts: seq<seq<T>>, sep: T)
    requires |parts| >= 1
    requires forall i :: 0 <= i < |parts| ==> sep !in parts[i]
    ensures SplitOn(JoinWith(parts, sep), sep) == parts
    decreases |parts|
  {
    if |parts| > 1 {
      var s := JoinWith(parts, sep);
      var rest := JoinWith(parts[1..], sep);
      assert s == parts[0] + [sep] + rest;
      IndexOfAfter(parts[0], sep, rest);
      assert s[..|parts[0]|] == parts[0];
      assert s[|parts[0]| + 1..] == rest;
      SplitOnJoinWith(parts[1..], sep);
    }
  }

  /** The first `x` in `a + [x] + b` is the one after `a` when `a` holds none. */
  lemma {:induction false} IndexOfAfter<T>(a: seq<T>, x: T, b: seq<T>)
    requires x !in a
    ensures x in a + [x] + b
    ensures IndexOf(a + [x] + b, x) == |a|
    decreases |a|
  {
    var s := a + [x] + b;
    assert s[|a|] == x;
    if a != [] {
      assert s[0] == a[0] != x;
      assert s[1..] == a[1..] + [x] + b;
      IndexOfAfter(a[1..], x, b);
    }
  }

  // ---------------------------------------------------------------- paragraphs

  /* A text is modelled by its lines, the text being the lines joined by newlines. Rust's
     `split("\n\n")` on that text cuts at two newlines in a row, leftmost first and
     without overlap: after line i when line i + 1 is blank and is not the last line. The
     newline after the blank line is then used up, so a run of blank lines of even length
     leaves one blank line at the start of the next piece. */

  /** The first cut at or after line `from`: a line whose next line is blank and not the
      last line; |ls| when there is none. */
  function ParagraphCut(ls: seq<string>, from: nat): (i: nat)
    requires from <= |ls|
    ensures from <= i <= |ls|
    ensures i < |ls| ==> i + 2 < |ls| && ls[i + 1] == ""
    ensures forall k :: from < k <= i && k < |ls| - 1 ==> ls[k] != ""
    decreases |ls| - from
  {
    if from + 2 >= |ls| then |ls|
    else if ls[from + 1] == "" then from
    else ParagraphCut(ls, from + 1)
  }

  /** The pieces of `split("\n\n")`, each as its list of lines: joined with the blank
      separator lines they restore the input, and a piece holds a blank line only first or,
      in the last piece, last. */
  function SplitParagraphs(ls: seq<string>): (r: seq<seq<string>>)
    ensures |r| >= 1
    ensures JoinWith(r, "") == ls
    ensures forall g, k :: 0 <= g < |r| && 0 < k < |r[g]| - 1 ==> r[g][k] != ""
    ensures forall g :: 0 <= g < |r| - 1 && |r[g]| > 1 ==> r[g][|r[g]| - 1] != ""
    decreases |ls|
  {
    var i := ParagraphCut(ls, 0);
    if i == |ls| then [ls]
    else
      var rest := SplitParagraphs(ls[i + 2..]);
      assert ([ls[..i + 1]] + rest)[1..] == rest;
      assert ls == ls[..i + 1] + [""] + ls[i + 2..];
      [ls[..i + 1]] + rest
  }

  /** The lines `str::lines` yields for the text some lines make: all of them, except that
      a last empty line only ends the line before it, and an empty text has none. */
  function TextLines(ls: seq<string>): (r: seq<string>)
    ensures ls != [] && ls[|ls| - 1] == "" ==> r == ls[..|ls| - 1]
    ensures ls == [] || ls[|ls| - 1] != "" ==> r == ls
  {
    if ls != [] && ls[|ls| - 1] == "" then ls[..|ls| - 1] else ls
  }

  /** `TextLines` of every piece. */
  function MapTextLines(ps: seq<seq<string>>): (r: seq<seq<string>>)
    ensures |r| == |ps|
    ensures forall g :: 0 <= g < |ps| ==> r[g] == TextLines(ps[g])
  {
    if ps == [] then [] else [TextLines(ps[0])] + MapTextLines(ps[1..])
  }

  /** The lines of every piece of `split("\n\n")`, as `.lines()` reads them. */
  function Paragraphs(ls: seq<string>): (r: seq<seq<string>>)
    ensures |r| == |SplitParagraphs(ls)| >= 1
    ensures forall g :: 0 <= g < |r| ==> r[g] == TextLines(SplitParagraphs(ls)[g])
  {
    MapTextLines(SplitParagraphs(ls))
  }

  /** A piece without blank lines, a blank line and more lines: the piece is cut off first. */
  lemma ParagraphsCons(p: seq<string>, rest: seq<string>)
    requires p != [] && "" !in p && rest != []
    ensures SplitParagraphs(p + [""] + rest) == [p] + SplitParagraphs(rest)
  {
    var ls := p + [""] + rest;
    var i := ParagraphCut(ls, 0);
    assert ls[|p|] == "";
    assert forall k :: 0 < k < |p| ==> ls[k] == p[k];
    assert i == |p| - 1;
    assert ls[..i + 1] == p;
    assert ls[i + 2..] == rest;
  }

  /** Without a cut the lines are one piece. */
  lemma ParagraphsLast(ls: seq<string>)
    requires ParagraphCut(ls, 0) == |ls|
    ensures SplitParagraphs(ls) == [ls] && Paragraphs(ls) == [TextLines(ls)]
  {
  }

  /** Lines without blanks stay one piece. */
  lemma ParagraphsOfOne(p: seq<string>)
    requires "" !in p
    ensures SplitParagraphs(p) == [p] && Paragraphs(p) == [p]
  {
    assert forall k :: 0 < k < |p| - 1 ==> p[k] != "";
  }

  /** Non-empty groups of non-blank lines, separated by single blank lines, split back into
      the same groups. */
  lemma {:induction false} ParagraphsOfJoin(parts: seq<seq<string>>)
    requires |parts| >= 1
    requires forall g :: 0 <= g < |parts| ==> parts[g] != [] && "" !in parts[g]
    ensures SplitParagraphs(JoinWith(parts, "")) == parts
    ensures Paragraphs(JoinWith(parts, "")) == parts
    decreases |parts|
  {
    if |parts| == 1 {
      ParagraphsOfOne(parts[0]);
    } else {
      var rest := JoinWith(parts[1..], "");
      assert rest != [] by {
        assert parts[1..][0] == parts[1];
        assert JoinWith(parts[1..], "") == parts[1] || |parts[1..][0]| <= |rest|;
      }
      ParagraphsCons(parts[0], rest);
      ParagraphsOfJoin(parts[1..]);
      assert [parts[0]] + parts[1..] == parts;
    }
    var ps := SplitParagraphs(JoinWith(parts, ""));
    assert forall g :: 0 <= g < |ps| ==> TextLines(ps[g]) == ps[g];
  }

  /** Every line of a paragraph is a line of the input. */
  lemma ParagraphLineInInput(ls: seq<string>, g: nat, x: string)
    requires g < |Paragraphs(ls)| && x in Paragraphs(ls)[g]
    ensures x in ls
  {
    var ps := SplitParagraphs(ls);
    assert x in ps[g];
    JoinWithMembers(ps, "", x);
  }

  /** Every non-blank line of the input is a line of some paragraph. */
  lemma {:induction false} InputLineInParagraph(ls: seq<string>, k: nat)
    requires k < |ls| && ls[k] != ""
    ensures exists g :: 0 <= g < |Paragraphs(ls)| && ls[k] in Paragraphs(ls)[g]
    decreases |ls|
  {
    var i := ParagraphCut(ls, 0);
    if i == |ls| {
      ParagraphsLast(ls);
      assert TextLines(ls)[k] == ls[k];
    } else {
      ParagraphsStep(ls, i);
      var r, rest := Paragraphs(ls), ls[i + 2..];
      if k <= i {
        var first := ls[..i + 1];
        assert TextLines(first) == first && first[k] == ls[k];
        assert ls[k] in r[0];
      } else {
        assert k != i + 1 && rest[k - i - 2] == ls[k];
        InputLineInParagraph(rest, k - i - 2);
        var later := Paragraphs(rest);
        var g :| 0 <= g < |later| && ls[k] in later[g];
        assert r[g + 1] == later[g];
      }
    }
  }

  /** A cut at line `i` splits off the first paragraph. */
  lemma ParagraphsStep(ls: seq<string>, i: nat)
    requires i == ParagraphCut(ls, 0) < |ls|
    ensures Paragraphs(ls) == [TextLines(ls[..i + 1])] + Paragraphs(ls[i + 2..])
  {
    var ps := SplitParagraphs(ls);
    assert ps == [ls[..i + 1]] + SplitParagraphs(ls[i + 2..]);
    assert ps[1..] == SplitParagraphs(ls[i + 2..]);
  }

  /** No line is blank after a blank line, and the first line is not blank. */
  predicate SingleBlanks(ls: seq<string>)
  {
    && (ls != [] ==> ls[0] != "")
    && forall k :: 0 < k < |ls| && ls[k] == "" ==> ls[k - 1] != ""
  }

  /** With single blank lines, the piece before the first cut has no blank line, and the
      lines after the separator have single blank lines again. */
  lemma SingleBlanksCut(ls: seq<string>, i: nat)
    requires SingleBlanks(ls) && i == ParagraphCut(ls, 0) < |ls|
    ensures "" !in ls[..i + 1] && SingleBlanks(ls[i + 2..])
  {
    var first, rest := ls[..i + 1], ls[i + 2..];
    assert forall k :: 0 <= k < |first| ==> first[k] == ls[k];
    assert rest[0] == ls[i + 2];
    forall k | 0 < k < |rest| && rest[k] == ""
      ensures rest[k - 1] != ""
    {
      assert rest[k] == ls[i + 2 + k] && rest[k - 1] == ls[i + 1 + k];
    }
  }

  /** With single blank lines no paragraph holds a blank line: the blank lines are
      exactly the separators. */
  lemma {:induction false} ParagraphsOfSingleBlanks(ls: seq<string>)
    requires SingleBlanks(ls)
    ensures forall g :: 0 <= g < |Paragraphs(ls)| ==> "" !in Paragraphs(ls)[g]
    decreases |ls|
  {
    var i := ParagraphCut(ls, 0);
    if i == |ls| {
      assert SplitParagraphs(ls) == [ls];
      assert "" !in TextLines(ls);
    } else {
      SingleBlanksCut(ls, i);
      ParagraphsOfSingleBlanks(ls[i + 2..]);
      ParagraphsStep(ls, i);
    }
  }

  /** Unicode's White_Space characters, which `char::is_whitespace` and so
      `split_whitespace` recognise. */
  predicate IsWhitespace(c: char)
  {
    || '\t' <= c <= '\r' || c == ' ' || c == '\U{0085}' || c == '\U{00A0}' || c == '\U{1680}'
    || '\U{2000}' <= c <= '\U{200A}' || c == '\U{2028}' || c == '\U{2029}' || c == '\U{202F}'
    || c == '\U{205F}' || c == '\U{3000}'
  }

  predicate IsWord(w: string) { w != [] && forall i :: 0 <= i < |w| ==> !IsWhitespace(w[i]) }

  /** The length of the longest prefix of `s` without whitespace. */
  function WordLength(s: string): (n: nat)
    ensures n <= |s|
    ensures forall i :: 0 <= i < n ==> !IsWhitespace(s[i])
    ensures n < |s| ==> IsWhitespace(s[n])
  {
    if s == [] || IsWhitespace(s[0]) then 0 else 1 + WordLength(s[1..])
  }

  /** The maximal runs of non-whitespace characters, as Rust's `split_whitespace`. */
  function Words(s: string): (r: seq<string>)
    ensures forall i :: 0 <= i < |r| ==> IsWord(r[i])
    decreases |s|
  {
    if s == [] then []
    else if IsWhitespace(s[0]) then Words(s[1..])
    else
      var n := WordLength(s);
      [s[..n]] + Words(s[n..])
  }

  /** Whitespace before a line never changes its words. */
  lemma {:induction false} WordsSkipsLeadingSpace(pad: string, s: string)
    requires forall i :: 0 <= i < |pad| ==> IsWhitespace(pad[i])
    ensures Words(pad + s) == Words(s)
    decreases |pad|
  {
    if pad != [] {
      assert (pad + s)[0] == pad[0];
      assert (pad + s)[1..] == pad[1..] + s;
      WordsSkipsLeadingSpace(pad[1..], s);
    } else {
      assert pad + s == s;
    }
  }

  /** Words separated by single spaces split back into the same words. */
  lemma {:induction false} WordsOfJoin(ws: seq<string>)
    requires forall i :: 0 <= i < |ws| ==> IsWord(ws[i])
    ensures Words(JoinWith(ws, ' ')) == ws
    decreases |ws|
  {
    if |ws| == 1 {
      assert JoinWith(ws, ' ') == ws[0];
      assert WordLength(ws[0]) == |ws[0]| by { WordLengthOfWord(ws[0], []); assert ws[0] + [] == ws[0]; }
      assert ws[0][|ws[0]|..] == [];
      assert ws[0][..|ws[0]|] == ws[0];
      assert ws == [ws[0]];
    } else if |ws| > 1 {
      var s := JoinWith(ws, ' ');
      var rest := JoinWith(ws[1..], ' ');
      assert s == ws[0] + ([' '] + rest);
      WordLengthOfWord(ws[0], [' '] + rest);
      assert s[..|ws[0]|] == ws[0];
      assert s[|ws[0]|..] == [' '] + rest;
      assert Words([' '] + rest) == Words(rest) by {
        assert ([' '] + rest)[1..] == rest;
      }
      WordsOfJoin(ws[1..]);
    }
  }

  lemma {:induction false} WordLengthOfWord(w: string, tail: string)
    requires IsWord(w)
    requires tail == [] || IsWhitespace(tail[0])
    ensures WordLength(w + tail) == |w|
    decreases |w|
  {
    if |w| > 1 {
      assert (w + tail)[1..] == w[1..] + tail;
      WordLengthOfWord(w[1..], tail);
    } else {
      assert (w + tail)[1..] == tail;
    }
  }
}
