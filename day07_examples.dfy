/** The two sample sessions of the puzzle, replayed line by line. The file system after
    each listing is written with `WithFolder` and `WithFile`, the effect of one "dir" or
    file line on the current folder. */
module Day07Examples {
  import opened Wrappers
  import Text
  import opened Day07

  // ---------------------------------------------------------------- one line at a time

  /** The file system once the folder `full` is listed in `current`. */
  function WithFolder(fs: FileSystem, current: string, full: string): (r: FileSystem)
    requires current in fs.folders && full != current
    ensures r.files == fs.files && r.folders.Keys == fs.folders.Keys + {full}
    ensures r.folders[current] == fs.folders[current].(subfolders := fs.folders[current].subfolders + {full})
    ensures r.folders[full] == EmptyFolder(full)
  {
    var folder := fs.folders[current];
    FileSystem(fs.folders[full := EmptyFolder(full)][current := folder.(subfolders := folder.subfolders + {full})], fs.files)
  }

  /** The file system once the file `full` of `size` bytes is listed in `current`. */
  function WithFile(fs: FileSystem, current: string, full: string, size: nat): (r: FileSystem)
    requires current in fs.folders
    ensures r.files == fs.files[full := File(full, size)] && r.folders.Keys == fs.folders.Keys
    ensures r.folders[current] == fs.folders[current].(files := fs.folders[current].files + {full})
  {
    var folder := fs.folders[current];
    FileSystem(fs.folders[current := folder.(files := folder.files + {full})], fs.files[full := File(full, size)])
  }

  /** Listing a folder changes no other folder. */
  lemma WithFolderElsewhere(fs: FileSystem, current: string, full: string, k: string)
    requires current in fs.folders && full != current && k in fs.folders && k != current && k != full
    ensures WithFolder(fs, current, full).folders[k] == fs.folders[k]
  {
  }

  /** Listing a file changes no other folder. */
  lemma WithFileElsewhere(fs: FileSystem, current: string, full: string, size: nat, k: string)
    requires current in fs.folders && k in fs.folders && k != current
    ensures WithFile(fs, current, full, size).folders[k] == fs.folders[k]
  {
  }

  lemma ExecuteFolder(shell: Shell, name: string, current: string, full: string)
    requires current == BuildCurrentFullPath(shell.stack) && full == BuildFullPath(shell.stack, name)
    requires current in shell.fs.folders && full != current
    ensures Execute(shell, Directory(name)) == Ok(Shell(shell.stack, WithFolder(shell.fs, current, full)))
  {
  }

  lemma ExecuteFile(shell: Shell, size: nat, name: string, current: string, full: string)
    requires current == BuildCurrentFullPath(shell.stack) && full == BuildFullPath(shell.stack, name)
    requires current in shell.fs.folders
    ensures Execute(shell, FileEntry(size, name)) == Ok(Shell(shell.stack, WithFile(shell.fs, current, full, size)))
  {
  }

  /** In the root, a name not starting with "/" is appended to "/". */
  lemma RootChild(name: string)
    requires name != [] && name[0] != '/'
    ensures BuildCurrentFullPath(["/"]) == "/"
    ensures BuildFullPath(["/"], name) == "/" + name
  {
    RootPaths(name);
  }

  /** Below the root, the current folder is "/" and the rest of the stack joined by "/". */
  lemma BelowRoot(stack: seq<string>, joined: string, name: string)
    requires |stack| >= 2 && stack[0] == "/" && Text.JoinWith(stack[1..], '/') == joined
    ensures BuildCurrentFullPath(stack) == "/" + joined
    ensures BuildFullPath(stack, name) == "/" + joined + "/" + name
  {
    NestedPaths(stack, name);
  }

  // ---------------------------------------------------------------- sums of sizes

  lemma SumOverAdd(keys: set<string>, values: map<string, nat>, x: string)
    requires keys <= values.Keys && x in values && x !in keys
    ensures SumOver(keys + {x}, values) == SumOver(keys, values) + values[x]
  {
    SumOverRemove(keys + {x}, values, x);
    assert keys + {x} - {x} == keys;
  }

  lemma SumOverOne(values: map<string, nat>, a: string)
    requires a in values
    ensures SumOver({a}, values) == values[a]
  {
    SumOverAdd({}, values, a);
    assert {} + {a} == {a};
  }

  lemma SumOverTwo(values: map<string, nat>, a: string, b: string)
    requires a in values && b in values && a != b
    ensures SumOver({a, b}, values) == values[a] + values[b]
  {
    SumOverOne(values, a);
    SumOverAdd({a}, values, b);
    assert {a} + {b} == {a, b};
  }

  lemma SumOverThree(values: map<string, nat>, a: string, b: string, c: string)
    requires a in values && b in values && c in values && a != b && a != c && b != c
    ensures SumOver({a, b, c}, values) == values[a] + values[b] + values[c]
  {
    SumOverTwo(values, a, b);
    SumOverAdd({a, b}, values, c);
    assert {a, b} + {c} == {a, b, c};
  }

  lemma SumOverFour(values: map<string, nat>, a: string, b: string, c: string, d: string)
    requires a in values && b in values && c in values && d in values
    requires a != b && a != c && a != d && b != c && b != d && c != d
    ensures SumOver({a, b, c, d}, values) == values[a] + values[b] + values[c] + values[d]
  {
    SumOverThree(values, a, b, c);
    SumOverAdd({a, b, c}, values, d);
    assert {a, b, c} + {d} == {a, b, c, d};
  }

  /** A number of two or more digits is spelled as the number without its last digit,
      followed by that digit. */
  lemma AppendDigit(n: nat, s: string, c: char)
    requires n >= 10 && Text.NatToString(n / 10) == s && Text.IsDigit(c) && Text.DigitValue(c) == n % 10
    ensures Text.NatToString(n) == s + [c]
  {
  }

  /** Lines that each print the matching command parse back to those commands. */
  lemma ParsePrinted(block: seq<string>, cmds: seq<Command>)
    requires |block| == |cmds|
    requires forall k | 0 <= k < |cmds| :: WellFormedCommand(cmds[k]) && block[k] == FormatCommand(cmds[k])
    ensures forall k | 0 <= k < |block| :: ParseCommand(block[k]) == Ok(cmds[k])
  {
    forall k | 0 <= k < |block| ensures ParseCommand(block[k]) == Ok(cmds[k]) {
      ParseFormattedCommand(cmds[k]);
    }
  }

  /** Lines that parse to `cmds`, each taking `shells[k]` to `shells[k + 1]`, replay from
      the first shell to the last. */
  lemma {:induction false} ReplayBlock(shells: seq<Shell>, block: seq<string>, cmds: seq<Command>)
    requires |cmds| == |block| && |shells| == |block| + 1
    requires forall k | 0 <= k < |block| :: ParseCommand(block[k]) == Ok(cmds[k])
    requires forall k | 0 <= k < |block| :: Execute(shells[k], cmds[k]) == Ok(shells[k + 1])
    ensures Replay(shells[0], block) == Ok(shells[|block|])
    decreases |block|
  {
    if block != [] {
      ReplayBlock(shells[1..], block[1..], cmds[1..]);
    }
  }

  /** Six lines, each taking one shell to the next. */
  lemma ReplaySix(block: seq<string>, cmds: seq<Command>, s0: Shell, s1: Shell, s2: Shell, s3: Shell, s4: Shell,
                  s5: Shell, s6: Shell)
    requires |block| == 6 && |cmds| == 6
    requires forall k | 0 <= k < 6 :: ParseCommand(block[k]) == Ok(cmds[k])
    requires Execute(s0, cmds[0]) == Ok(s1) && Execute(s1, cmds[1]) == Ok(s2) && Execute(s2, cmds[2]) == Ok(s3)
    requires Execute(s3, cmds[3]) == Ok(s4) && Execute(s4, cmds[4]) == Ok(s5) && Execute(s5, cmds[5]) == Ok(s6)
    ensures Replay(s0, block) == Ok(s6)
  {
    ReplayBlock([s0, s1, s2, s3, s4, s5, s6], block, cmds);
  }

  /** Replaying two pieces one after the other. */
  lemma {:induction false} ReplayAppend(shell: Shell, a: seq<string>, b: seq<string>, mid: Shell)
    requires Replay(shell, a) == Ok(mid)
    ensures Replay(shell, a + b) == Replay(mid, b)
    decreases |a|
  {
    if a != [] {
      assert (a + b)[0] == a[0] && (a + b)[1..] == a[1..] + b;
      match ParseCommand(a[0])
      case Ok(c) =>
        match Execute(shell, c)
        case Ok(next) =>
          ReplayAppend(next, a[1..], b, mid);
    } else {
      assert a + b == b;
    }
  }

  /** Replaying four pieces one after the other. */
  lemma ReplayFour(s0: Shell, a: seq<string>, b: seq<string>, c: seq<string>, d: seq<string>,
                   s1: Shell, s2: Shell, s3: Shell, s4: Shell)
    requires Replay(s0, a) == Ok(s1) && Replay(s1, b) == Ok(s2) && Replay(s2, c) == Ok(s3) && Replay(s3, d) == Ok(s4)
    ensures Replay(s0, a + b + c + d) == Ok(s4)
  {
    ReplayAppend(s0, a, b, s1);
    ReplayAppend(s0, a + b, c, s2);
    ReplayAppend(s0, a + b + c, d, s3);
  }

  /** A session is "$ cd /" and the lines replayed from the start. */
  lemma ParsedFrom(lines: seq<string>, rest: seq<string>, last: Shell)
    requires lines == ["$ cd /"] + rest && Replay(Start, rest) == Ok(last)
    ensures Parsed(lines) == Ok(last.fs)
  {
    assert lines[0] == "$ cd /" && lines[1..] == rest;
  }

  // ---------------------------------------------------------------- the first sample

  // The listing of the root, then "$ cd a".
  const RootBlock := ["$ ls", "dir a", "14848514 b.txt", "8504156 c.dat", "dir d", "$ cd a"]
  // The listing of "/a", then "$ cd e".
  const BlockA := ["$ ls", "dir e", "29116 f", "2557 g", "62596 h.lst", "$ cd e"]
  // The listing of "/a/e", then back up to the root and into "d".
  const BlockE := ["$ ls", "584 i", "$ cd ..", "$ cd ..", "$ cd d"]
  // The listing of "/d".
  const BlockD := ["$ ls", "4060174 j", "8033020 d.log", "5626152 d.ext", "7214296 k1000"]

  /** The session of the first sample, 23 lines. */
  const Example := ["$ cd /"] + (RootBlock + BlockA + BlockE + BlockD)

  const RootCommands := [List, Directory("a"), FileEntry(14848514, "b.txt"), FileEntry(8504156, "c.dat"),
                         Directory("d"), ChangeDir("a")]
  const CommandsA := [List, Directory("e"), FileEntry(29116, "f"), FileEntry(2557, "g"),
                      FileEntry(62596, "h.lst"), ChangeDir("e")]
  const CommandsE := [List, FileEntry(584, "i"), ChangeDir(".."), ChangeDir(".."), ChangeDir("d")]
  const CommandsD := [List, FileEntry(4060174, "j"), FileEntry(8033020, "d.log"), FileEntry(5626152, "d.ext"),
                      FileEntry(7214296, "k1000")]


  lemma Spell14848514()
    ensures Text.NatToString(14848514) == "14848514"
  {
    AppendDigit(14, "1", '4');
    AppendDigit(148, "14", '8');
    AppendDigit(1484, "148", '4');
    AppendDigit(14848, "1484", '8');
    AppendDigit(148485, "14848", '5');
    AppendDigit(1484851, "148485", '1');
    AppendDigit(14848514, "1484851", '4');
  }
  lemma Spell8504156()
    ensures Text.NatToString(8504156) == "8504156"
  {
    AppendDigit(85, "8", '5');
    AppendDigit(850, "85", '0');
    AppendDigit(8504, "850", '4');
    AppendDigit(85041, "8504", '1');
    AppendDigit(850415, "85041", '5');
    AppendDigit(8504156, "850415", '6');
  }
  lemma Spell29116()
    ensures Text.NatToString(29116) == "29116"
  {
    AppendDigit(29, "2", '9');
    AppendDigit(291, "29", '1');
    AppendDigit(2911, "291", '1');
    AppendDigit(29116, "2911", '6');
  }
  lemma Spell2557()
    ensures Text.NatToString(2557) == "2557"
  {
    AppendDigit(25, "2", '5');
    AppendDigit(255, "25", '5');
    AppendDigit(2557, "255", '7');
  }
  lemma Spell62596()
    ensures Text.NatToString(62596) == "62596"
  {
    AppendDigit(62, "6", '2');
    AppendDigit(625, "62", '5');
    AppendDigit(6259, "625", '9');
    AppendDigit(62596, "6259", '6');
  }
  lemma Spell584()
    ensures Text.NatToString(584) == "584"
  {
    AppendDigit(58, "5", '8');
    AppendDigit(584, "58", '4');
  }
  lemma Spell4060174()
    ensures Text.NatToString(4060174) == "4060174"
  {
    AppendDigit(40, "4", '0');
    AppendDigit(406, "40", '6');
    AppendDigit(4060, "406", '0');
    AppendDigit(40601, "4060", '1');
    AppendDigit(406017, "40601", '7');
    AppendDigit(4060174, "406017", '4');
  }
  lemma Spell8033020()
    ensures Text.NatToString(8033020) == "8033020"
  {
    AppendDigit(80, "8", '0');
    AppendDigit(803, "80", '3');
    AppendDigit(8033, "803", '3');
    AppendDigit(80330, "8033", '0');
    AppendDigit(803302, "80330", '2');
    AppendDigit(8033020, "803302", '0');
  }
  lemma Spell5626152()
    ensures Text.NatToString(5626152) == "5626152"
  {
    AppendDigit(56, "5", '6');
    AppendDigit(562, "56", '2');
    AppendDigit(5626, "562", '6');
    AppendDigit(56261, "5626", '1');
    AppendDigit(562615, "56261", '5');
    AppendDigit(5626152, "562615", '2');
  }
  lemma Spell7214296()
    ensures Text.NatToString(7214296) == "7214296"
  {
    AppendDigit(72, "7", '2');
    AppendDigit(721, "72", '1');
    AppendDigit(7214, "721", '4');
    AppendDigit(72142, "7214", '2');
    AppendDigit(721429, "72142", '9');
    AppendDigit(7214296, "721429", '6');
  }
  lemma RootPrinted0(block: seq<string>, cmds: seq<Command>)
    requires block == RootBlock && cmds == RootCommands
    ensures forall k | 0 <= k < 3 :: WellFormedCommand(cmds[k]) && block[k] == FormatCommand(cmds[k])
  {
    Spell14848514();
  }
  lemma RootPrinted3(block: seq<string>, cmds: seq<Command>)
    requires block == RootBlock && cmds == RootCommands
    ensures forall k | 3 <= k < 6 :: WellFormedCommand(cmds[k]) && block[k] == FormatCommand(cmds[k])
  {
    Spell8504156();
  }
  lemma RootParsed(block: seq<string>, cmds: seq<Command>)
    requires block == RootBlock && cmds == RootCommands
    ensures |block| == |cmds| && forall k | 0 <= k < |block| :: ParseCommand(block[k]) == Ok(cmds[k])
  {
    RootPrinted0(block, cmds);
    RootPrinted3(block, cmds);
    ParsePrinted(block, cmds);
  }
  lemma APrinted0(block: seq<string>, cmds: seq<Command>)
    requires block == BlockA && cmds == CommandsA
    ensures forall k | 0 <= k < 3 :: WellFormedCommand(cmds[k]) && block[k] == FormatCommand(cmds[k])
  {
    Spell29116();
  }
  lemma APrinted3(block: seq<string>, cmds: seq<Command>)
    requires block == BlockA && cmds == CommandsA
    ensures forall k | 3 <= k < 4 :: WellFormedCommand(cmds[k]) && block[k] == FormatCommand(cmds[k])
  {
    Spell2557();
  }
  lemma APrinted4(block: seq<string>, cmds: seq<Command>)
    requires block == BlockA && cmds == CommandsA
    ensures forall k | 4 <= k < 6 :: WellFormedCommand(cmds[k]) && block[k] == FormatCommand(cmds[k])
  {
    Spell62596();
  }
  lemma AParsed(block: seq<string>, cmds: seq<Command>)
    requires block == BlockA && cmds == CommandsA
    ensures |block| == |cmds| && forall k | 0 <= k < |block| :: ParseCommand(block[k]) == Ok(cmds[k])
  {
    APrinted0(block, cmds);
    APrinted3(block, cmds);
    APrinted4(block, cmds);
    ParsePrinted(block, cmds);
  }
  lemma EPrinted0(block: seq<string>, cmds: seq<Command>)
    requires block == BlockE && cmds == CommandsE
    ensures forall k | 0 <= k < 5 :: WellFormedCommand(cmds[k]) && block[k] == FormatCommand(cmds[k])
  {
    Spell584();
  }
  lemma EParsed(block: seq<string>, cmds: seq<Command>)
    requires block == BlockE && cmds == CommandsE
    ensures |block| == |cmds| && forall k | 0 <= k < |block| :: ParseCommand(block[k]) == Ok(cmds[k])
  {
    EPrinted0(block, cmds);
    ParsePrinted(block, cmds);
  }
  lemma DPrinted0(block: seq<string>, cmds: seq<Command>)
    requires block == BlockD && cmds == CommandsD
    ensures forall k | 0 <= k < 2 :: WellFormedCommand(cmds[k]) && block[k] == FormatCommand(cmds[k])
  {
    Spell4060174();
  }
  lemma DPrinted2(block: seq<string>, cmds: seq<Command>)
    requires block == BlockD && cmds == CommandsD
    ensures forall k | 2 <= k < 3 :: WellFormedCommand(cmds[k]) && block[k] == FormatCommand(cmds[k])
  {
    Spell8033020();
  }
  lemma DPrinted3(block: seq<string>, cmds: seq<Command>)
    requires block == BlockD && cmds == CommandsD
    ensures forall k | 3 <= k < 4 :: WellFormedCommand(cmds[k]) && block[k] == FormatCommand(cmds[k])
  {
    Spell5626152();
  }
  lemma DPrinted4(block: seq<string>, cmds: seq<Command>)
    requires block == BlockD && cmds == CommandsD
    ensures forall k | 4 <= k < 5 :: WellFormedCommand(cmds[k]) && block[k] == FormatCommand(cmds[k])
  {
    Spell7214296();
  }
  lemma DParsed(block: seq<string>, cmds: seq<Command>)
    requires block == BlockD && cmds == CommandsD
    ensures |block| == |cmds| && forall k | 0 <= k < |block| :: ParseCommand(block[k]) == Ok(cmds[k])
  {
    DPrinted0(block, cmds);
    DPrinted2(block, cmds);
    DPrinted3(block, cmds);
    DPrinted4(block, cmds);
    ParsePrinted(block, cmds);
  }

  /** The first three lines of the root listing, from any shell in the root. */
  lemma RootSteps0(s0: Shell, cmds: seq<Command>, f1: FileSystem, f2: FileSystem)
    requires s0.stack == ["/"] && "/" in s0.fs.folders && cmds == RootCommands
    requires f1 == WithFolder(s0.fs, "/", "/a") && f2 == WithFile(f1, "/", "/b.txt", 14848514)
    ensures Execute(s0, cmds[0]) == Ok(s0)
    ensures Execute(s0, cmds[1]) == Ok(Shell(s0.stack, f1))
    ensures Execute(Shell(s0.stack, f1), cmds[2]) == Ok(Shell(s0.stack, f2))
  {
    RootChild("a");
    ExecuteFolder(s0, "a", "/", "/a");
    RootChild("b.txt");
    ExecuteFile(Shell(["/"], f1), 14848514, "b.txt", "/", "/b.txt");
  }

  /** The last three lines of the root listing. */
  lemma RootSteps3(s0: Shell, cmds: seq<Command>, f2: FileSystem, f3: FileSystem, f4: FileSystem)
    requires s0.stack == ["/"] && "/" in f2.folders && cmds == RootCommands
    requires f3 == WithFile(f2, "/", "/c.dat", 8504156) && f4 == WithFolder(f3, "/", "/d")
    ensures Execute(Shell(s0.stack, f2), cmds[3]) == Ok(Shell(s0.stack, f3))
    ensures Execute(Shell(s0.stack, f3), cmds[4]) == Ok(Shell(s0.stack, f4))
    ensures Execute(Shell(s0.stack, f4), cmds[5]) == Ok(Shell(s0.stack + ["a"], f4))
  {
    RootChild("c.dat");
    ExecuteFile(Shell(["/"], f2), 8504156, "c.dat", "/", "/c.dat");
    RootChild("d");
    ExecuteFolder(Shell(["/"], f3), "d", "/", "/d");
  }

  /** The root listing, from any shell in the root: "/a", two files and "/d". */
  lemma ReplayRootBlock(s0: Shell, block: seq<string>, cmds: seq<Command>)
    requires s0.stack == ["/"] && "/" in s0.fs.folders
    requires cmds == RootCommands && |block| == |cmds|
    requires forall k | 0 <= k < |block| :: ParseCommand(block[k]) == Ok(cmds[k])
    ensures var f1 := WithFolder(s0.fs, "/", "/a");
            var f2 := WithFile(f1, "/", "/b.txt", 14848514);
            var f3 := WithFile(f2, "/", "/c.dat", 8504156);
            Replay(s0, block) == Ok(Shell(["/", "a"], WithFolder(f3, "/", "/d")))
  {
    var f1 := WithFolder(s0.fs, "/", "/a");
    var f2 := WithFile(f1, "/", "/b.txt", 14848514);
    var f3 := WithFile(f2, "/", "/c.dat", 8504156);
    var f4 := WithFolder(f3, "/", "/d");
    RootSteps0(s0, cmds, f1, f2);
    RootSteps3(s0, cmds, f2, f3, f4);
    ReplaySix(block, cmds, s0, s0, Shell(s0.stack, f1), Shell(s0.stack, f2), Shell(s0.stack, f3), Shell(s0.stack, f4),
              Shell(s0.stack + ["a"], f4));
    assert s0.stack + ["a"] == ["/", "a"];
  }

  /** The first three lines of the listing of "/a". */
  lemma ASteps0(s0: Shell, cmds: seq<Command>, f1: FileSystem, f2: FileSystem)
    requires s0.stack == ["/", "a"] && "/a" in s0.fs.folders && cmds == CommandsA
    requires f1 == WithFolder(s0.fs, "/a", "/a/e") && f2 == WithFile(f1, "/a", "/a/f", 29116)
    ensures Execute(s0, cmds[0]) == Ok(s0)
    ensures Execute(s0, cmds[1]) == Ok(Shell(s0.stack, f1))
    ensures Execute(Shell(s0.stack, f1), cmds[2]) == Ok(Shell(s0.stack, f2))
  {
    assert Text.JoinWith(s0.stack[1..], '/') == "a";
    BelowRoot(s0.stack, "a", "e");
    ExecuteFolder(s0, "e", "/a", "/a/e");
    BelowRoot(s0.stack, "a", "f");
    ExecuteFile(Shell(s0.stack, f1), 29116, "f", "/a", "/a/f");
  }

  /** The last three lines of the listing of "/a". */
  lemma ASteps3(s0: Shell, cmds: seq<Command>, f2: FileSystem, f3: FileSystem, f4: FileSystem)
    requires s0.stack == ["/", "a"] && "/a" in f2.folders && cmds == CommandsA
    requires f3 == WithFile(f2, "/a", "/a/g", 2557) && f4 == WithFile(f3, "/a", "/a/h.lst", 62596)
    ensures Execute(Shell(s0.stack, f2), cmds[3]) == Ok(Shell(s0.stack, f3))
    ensures Execute(Shell(s0.stack, f3), cmds[4]) == Ok(Shell(s0.stack, f4))
    ensures Execute(Shell(s0.stack, f4), cmds[5]) == Ok(Shell(s0.stack + ["e"], f4))
  {
    assert Text.JoinWith(s0.stack[1..], '/') == "a";
    BelowRoot(s0.stack, "a", "g");
    ExecuteFile(Shell(s0.stack, f2), 2557, "g", "/a", "/a/g");
    BelowRoot(s0.stack, "a", "h.lst");
    ExecuteFile(Shell(s0.stack, f3), 62596, "h.lst", "/a", "/a/h.lst");
  }

  /** The listing of "/a": "/a/e" and three files, then "$ cd e". */
  lemma ReplayBlockA(s0: Shell, block: seq<string>, cmds: seq<Command>)
    requires s0.stack == ["/", "a"] && "/a" in s0.fs.folders
    requires cmds == CommandsA && |block| == |cmds|
    requires forall k | 0 <= k < |block| :: ParseCommand(block[k]) == Ok(cmds[k])
    ensures var f1 := WithFolder(s0.fs, "/a", "/a/e");
            var f2 := WithFile(f1, "/a", "/a/f", 29116);
            var f3 := WithFile(f2, "/a", "/a/g", 2557);
            Replay(s0, block) == Ok(Shell(["/", "a", "e"], WithFile(f3, "/a", "/a/h.lst", 62596)))
  {
    var f1 := WithFolder(s0.fs, "/a", "/a/e");
    var f2 := WithFile(f1, "/a", "/a/f", 29116);
    var f3 := WithFile(f2, "/a", "/a/g", 2557);
    var f4 := WithFile(f3, "/a", "/a/h.lst", 62596);
    ASteps0(s0, cmds, f1, f2);
    ASteps3(s0, cmds, f2, f3, f4);
    ReplaySix(block, cmds, s0, s0, Shell(s0.stack, f1), Shell(s0.stack, f2), Shell(s0.stack, f3), Shell(s0.stack, f4),
              Shell(s0.stack + ["e"], f4));
    assert s0.stack + ["e"] == ["/", "a", "e"];
  }

  /** Five lines, each taking one shell to the next. */
  lemma ReplayFive(block: seq<string>, cmds: seq<Command>, s0: Shell, s1: Shell, s2: Shell, s3: Shell, s4: Shell,
                   s5: Shell)
    requires |block| == 5 && |cmds| == 5
    requires forall k | 0 <= k < 5 :: ParseCommand(block[k]) == Ok(cmds[k])
    requires Execute(s0, cmds[0]) == Ok(s1) && Execute(s1, cmds[1]) == Ok(s2) && Execute(s2, cmds[2]) == Ok(s3)
    requires Execute(s3, cmds[3]) == Ok(s4) && Execute(s4, cmds[4]) == Ok(s5)
    ensures Replay(s0, block) == Ok(s5)
  {
    ReplayBlock([s0, s1, s2, s3, s4, s5], block, cmds);
  }

  /** The lines of "/a/e": a file, twice up, then into "d". */
  lemma ESteps(s0: Shell, cmds: seq<Command>, f1: FileSystem)
    requires s0.stack == ["/", "a", "e"] && "/a/e" in s0.fs.folders && cmds == CommandsE
    requires f1 == WithFile(s0.fs, "/a/e", "/a/e/i", 584)
    ensures Execute(s0, cmds[0]) == Ok(s0)
    ensures Execute(s0, cmds[1]) == Ok(Shell(s0.stack, f1))
    ensures Execute(Shell(s0.stack, f1), cmds[2]) == Ok(Shell(s0.stack[..2], f1))
    ensures Execute(Shell(s0.stack[..2], f1), cmds[3]) == Ok(Shell(s0.stack[..1], f1))
    ensures Execute(Shell(s0.stack[..1], f1), cmds[4]) == Ok(Shell(s0.stack[..1] + ["d"], f1))
  {
    assert s0.stack[1..][1..] == ["e"] && s0.stack[..2][..1] == s0.stack[..1];
    assert Text.JoinWith(s0.stack[1..], '/') == "a/e";
    BelowRoot(s0.stack, "a/e", "i");
    ExecuteFile(s0, 584, "i", "/a/e", "/a/e/i");
  }

  /** The listing of "/a/e", then "$ cd ..", "$ cd .." and "$ cd d". */
  lemma ReplayBlockE(s0: Shell, block: seq<string>, cmds: seq<Command>)
    requires s0.stack == ["/", "a", "e"] && "/a/e" in s0.fs.folders
    requires cmds == CommandsE && |block| == |cmds|
    requires forall k | 0 <= k < |block| :: ParseCommand(block[k]) == Ok(cmds[k])
    ensures Replay(s0, block) == Ok(Shell(["/", "d"], WithFile(s0.fs, "/a/e", "/a/e/i", 584)))
  {
    var f1 := WithFile(s0.fs, "/a/e", "/a/e/i", 584);
    ESteps(s0, cmds, f1);
    ReplayFive(block, cmds, s0, s0, Shell(s0.stack, f1), Shell(s0.stack[..2], f1), Shell(s0.stack[..1], f1),
               Shell(s0.stack[..1] + ["d"], f1));
    assert s0.stack[..1] + ["d"] == ["/", "d"];
  }

  /** The first three lines of the listing of "/d". */
  lemma DSteps0(s0: Shell, cmds: seq<Command>, f1: FileSystem, f2: FileSystem)
    requires s0.stack == ["/", "d"] && "/d" in s0.fs.folders && cmds == CommandsD
    requires f1 == WithFile(s0.fs, "/d", "/d/j", 4060174) && f2 == WithFile(f1, "/d", "/d/d.log", 8033020)
    ensures Execute(s0, cmds[0]) == Ok(s0)
    ensures Execute(s0, cmds[1]) == Ok(Shell(s0.stack, f1))
    ensures Execute(Shell(s0.stack, f1), cmds[2]) == Ok(Shell(s0.stack, f2))
  {
    assert Text.JoinWith(s0.stack[1..], '/') == "d";
    BelowRoot(s0.stack, "d", "j");
    ExecuteFile(s0, 4060174, "j", "/d", "/d/j");
    BelowRoot(s0.stack, "d", "d.log");
    ExecuteFile(Shell(s0.stack, f1), 8033020, "d.log", "/d", "/d/d.log");
  }

  /** The last two lines of the listing of "/d". */
  lemma DSteps3(s0: Shell, cmds: seq<Command>, f2: FileSystem, f3: FileSystem, f4: FileSystem)
    requires s0.stack == ["/", "d"] && "/d" in f2.folders && cmds == CommandsD
    requires f3 == WithFile(f2, "/d", "/d/d.ext", 5626152) && f4 == WithFile(f3, "/d", "/d/k1000", 7214296)
    ensures Execute(Shell(s0.stack, f2), cmds[3]) == Ok(Shell(s0.stack, f3))
    ensures Execute(Shell(s0.stack, f3), cmds[4]) == Ok(Shell(s0.stack, f4))
  {
    assert Text.JoinWith(s0.stack[1..], '/') == "d";
    BelowRoot(s0.stack, "d", "d.ext");
    ExecuteFile(Shell(s0.stack, f2), 5626152, "d.ext", "/d", "/d/d.ext");
    BelowRoot(s0.stack, "d", "k1000");
    ExecuteFile(Shell(s0.stack, f3), 7214296, "k1000", "/d", "/d/k1000");
  }

  /** The listing of "/d": four files. */
  lemma ReplayBlockD(s0: Shell, block: seq<string>, cmds: seq<Command>)
    requires s0.stack == ["/", "d"] && "/d" in s0.fs.folders
    requires cmds == CommandsD && |block| == |cmds|
    requires forall k | 0 <= k < |block| :: ParseCommand(block[k]) == Ok(cmds[k])
    ensures var f1 := WithFile(s0.fs, "/d", "/d/j", 4060174);
            var f2 := WithFile(f1, "/d", "/d/d.log", 8033020);
            var f3 := WithFile(f2, "/d", "/d/d.ext", 5626152);
            Replay(s0, block) == Ok(Shell(["/", "d"], WithFile(f3, "/d", "/d/k1000", 7214296)))
  {
    var f1 := WithFile(s0.fs, "/d", "/d/j", 4060174);
    var f2 := WithFile(f1, "/d", "/d/d.log", 8033020);
    var f3 := WithFile(f2, "/d", "/d/d.ext", 5626152);
    var f4 := WithFile(f3, "/d", "/d/k1000", 7214296);
    DSteps0(s0, cmds, f1, f2);
    DSteps3(s0, cmds, f2, f3, f4);
    ReplayFive(block, cmds, s0, s0, Shell(s0.stack, f1), Shell(s0.stack, f2), Shell(s0.stack, f3), Shell(s0.stack, f4));
  }

  // ---------------------------------------------------------------- the first sample, assembled

  /** A session made of "$ cd /" and four pieces, each replayed from where the one before
      it ends. */
  lemma ParsedFromFour(lines: seq<string>, a: seq<string>, b: seq<string>, c: seq<string>, d: seq<string>,
                       s1: Shell, s2: Shell, s3: Shell, s4: Shell)
    requires lines == ["$ cd /"] + (a + b + c + d)
    requires Replay(Start, a) == Ok(s1) && Replay(s1, b) == Ok(s2) && Replay(s2, c) == Ok(s3) && Replay(s3, d) == Ok(s4)
    ensures Parsed(lines) == Ok(s4.fs)
  {
    ReplayFour(Start, a, b, c, d, s1, s2, s3, s4);
    ParsedFrom(lines, a + b + c + d, s4);
  }

  // ---------------------------------------------------------------- the tree of the first sample

  const Subfolders: set<string> := {"/a", "/d"}
  const RootFiles: set<string> := {"/b.txt", "/c.dat"}
  const FilesOfA: set<string> := {"/a/f", "/a/g", "/a/h.lst"}
  const FilesOfE: set<string> := {"/a/e/i"}
  const FilesOfD: set<string> := {"/d/j", "/d/d.log", "/d/d.ext", "/d/k1000"}
  const AllFolders: set<string> := {"/", "/a", "/d", "/a/e"}

  const FilesAfterRoot := map["/b.txt" := File("/b.txt", 14848514), "/c.dat" := File("/c.dat", 8504156)]
  const FilesAfterA := FilesAfterRoot["/a/f" := File("/a/f", 29116)]["/a/g" := File("/a/g", 2557)]
                                     ["/a/h.lst" := File("/a/h.lst", 62596)]
  const FilesAfterE := FilesAfterA["/a/e/i" := File("/a/e/i", 584)]
  const AllFiles := FilesAfterE["/d/j" := File("/d/j", 4060174)]["/d/d.log" := File("/d/d.log", 8033020)]
                               ["/d/d.ext" := File("/d/d.ext", 5626152)]["/d/k1000" := File("/d/k1000", 7214296)]

  /** The tree once the root is listed: "/a" and "/d" still empty. */
  predicate AfterRoot(fs: FileSystem)
  {
    && fs.folders.Keys == {"/", "/a", "/d"}
    && fs.folders["/"] == Folder("/", Subfolders, RootFiles)
    && fs.folders["/a"] == EmptyFolder("/a") && fs.folders["/d"] == EmptyFolder("/d")
    && fs.files == FilesAfterRoot
  }

  /** The tree once "/a" is listed. */
  predicate AfterA(fs: FileSystem)
  {
    && fs.folders.Keys == AllFolders
    && fs.folders["/"] == Folder("/", Subfolders, RootFiles)
    && fs.folders["/a"] == Folder("/a", {"/a/e"}, FilesOfA)
    && fs.folders["/a/e"] == EmptyFolder("/a/e") && fs.folders["/d"] == EmptyFolder("/d")
    && fs.files == FilesAfterA
  }

  /** The tree once "/a/e" is listed. */
  predicate AfterE(fs: FileSystem)
  {
    && fs.folders.Keys == AllFolders
    && fs.folders["/"] == Folder("/", Subfolders, RootFiles)
    && fs.folders["/a"] == Folder("/a", {"/a/e"}, FilesOfA)
    && fs.folders["/a/e"] == Folder("/a/e", {}, FilesOfE) && fs.folders["/d"] == EmptyFolder("/d")
    && fs.files == FilesAfterE
  }

  /** The whole tree of the first sample. */
  predicate ExampleTree(fs: FileSystem)
  {
    && fs.folders.Keys == AllFolders
    && fs.folders["/"] == Folder("/", Subfolders, RootFiles)
    && fs.folders["/a"] == Folder("/a", {"/a/e"}, FilesOfA)
    && fs.folders["/a/e"] == Folder("/a/e", {}, FilesOfE)
    && fs.folders["/d"] == Folder("/d", {}, FilesOfD)
    && fs.files == AllFiles
  }

  lemma ListRoot(s: FileSystem, f1: FileSystem, f2: FileSystem, f3: FileSystem, f4: FileSystem)
    requires s.folders == map["/" := EmptyFolder("/")] && s.files == map[]
    requires f1 == WithFolder(s, "/", "/a") && f2 == WithFile(f1, "/", "/b.txt", 14848514)
    requires f3 == WithFile(f2, "/", "/c.dat", 8504156) && f4 == WithFolder(f3, "/", "/d")
    ensures AfterRoot(f4)
  {
    assert {"/"} + {"/a"} + {"/d"} == {"/", "/a", "/d"};
    WithFileElsewhere(f1, "/", "/b.txt", 14848514, "/a");
    WithFileElsewhere(f2, "/", "/c.dat", 8504156, "/a");
    WithFolderElsewhere(f3, "/", "/d", "/a");
    assert {} + {"/a"} + {"/d"} == Subfolders;
    assert {} + {"/b.txt"} + {"/c.dat"} == RootFiles;
  }

  lemma ListA(s: FileSystem, f1: FileSystem, f2: FileSystem, f3: FileSystem, f4: FileSystem)
    requires AfterRoot(s)
    requires f1 == WithFolder(s, "/a", "/a/e") && f2 == WithFile(f1, "/a", "/a/f", 29116)
    requires f3 == WithFile(f2, "/a", "/a/g", 2557) && f4 == WithFile(f3, "/a", "/a/h.lst", 62596)
    ensures AfterA(f4)
  {
    assert {"/", "/a", "/d"} + {"/a/e"} == AllFolders;
    WithFolderElsewhere(s, "/a", "/a/e", "/");
    WithFolderElsewhere(s, "/a", "/a/e", "/d");
    WithFileElsewhere(f1, "/a", "/a/f", 29116, "/");
    WithFileElsewhere(f1, "/a", "/a/f", 29116, "/d");
    WithFileElsewhere(f1, "/a", "/a/f", 29116, "/a/e");
    WithFileElsewhere(f2, "/a", "/a/g", 2557, "/");
    WithFileElsewhere(f2, "/a", "/a/g", 2557, "/d");
    WithFileElsewhere(f2, "/a", "/a/g", 2557, "/a/e");
    WithFileElsewhere(f3, "/a", "/a/h.lst", 62596, "/");
    WithFileElsewhere(f3, "/a", "/a/h.lst", 62596, "/d");
    WithFileElsewhere(f3, "/a", "/a/h.lst", 62596, "/a/e");
    assert {} + {"/a/e"} == {"/a/e"};
    assert {} + {"/a/f"} + {"/a/g"} + {"/a/h.lst"} == FilesOfA;
  }

  lemma ListE(s: FileSystem, f1: FileSystem)
    requires AfterA(s) && f1 == WithFile(s, "/a/e", "/a/e/i", 584)
    ensures AfterE(f1)
  {
    WithFileElsewhere(s, "/a/e", "/a/e/i", 584, "/");
    WithFileElsewhere(s, "/a/e", "/a/e/i", 584, "/a");
    WithFileElsewhere(s, "/a/e", "/a/e/i", 584, "/d");
    assert {} + {"/a/e/i"} == FilesOfE;
  }

  lemma ListD(s: FileSystem, f1: FileSystem, f2: FileSystem, f3: FileSystem, f4: FileSystem)
    requires AfterE(s)
    requires f1 == WithFile(s, "/d", "/d/j", 4060174) && f2 == WithFile(f1, "/d", "/d/d.log", 8033020)
    requires f3 == WithFile(f2, "/d", "/d/d.ext", 5626152) && f4 == WithFile(f3, "/d", "/d/k1000", 7214296)
    ensures ExampleTree(f4)
  {
    WithFileElsewhere(s, "/d", "/d/j", 4060174, "/");
    WithFileElsewhere(s, "/d", "/d/j", 4060174, "/a");
    WithFileElsewhere(s, "/d", "/d/j", 4060174, "/a/e");
    WithFileElsewhere(f1, "/d", "/d/d.log", 8033020, "/");
    WithFileElsewhere(f1, "/d", "/d/d.log", 8033020, "/a");
    WithFileElsewhere(f1, "/d", "/d/d.log", 8033020, "/a/e");
    WithFileElsewhere(f2, "/d", "/d/d.ext", 5626152, "/");
    WithFileElsewhere(f2, "/d", "/d/d.ext", 5626152, "/a");
    WithFileElsewhere(f2, "/d", "/d/d.ext", 5626152, "/a/e");
    WithFileElsewhere(f3, "/d", "/d/k1000", 7214296, "/");
    WithFileElsewhere(f3, "/d", "/d/k1000", 7214296, "/a");
    WithFileElsewhere(f3, "/d", "/d/k1000", 7214296, "/a/e");
    assert {} + {"/d/j"} + {"/d/d.log"} + {"/d/d.ext"} + {"/d/k1000"} == FilesOfD;
  }

  // ---------------------------------------------------------------- the first sample, replayed

  lemma RootStage(s0: Shell, block: seq<string>)
    requires s0 == Start && block == RootBlock
    ensures Replay(s0, block).Ok? && Replay(s0, block).value.stack == ["/", "a"] && AfterRoot(Replay(s0, block).value.fs)
  {
    RootParsed(block, RootCommands);
    ReplayRootBlock(s0, block, RootCommands);
    var f1 := WithFolder(s0.fs, "/", "/a");
    var f2 := WithFile(f1, "/", "/b.txt", 14848514);
    var f3 := WithFile(f2, "/", "/c.dat", 8504156);
    ListRoot(s0.fs, f1, f2, f3, WithFolder(f3, "/", "/d"));
  }

  lemma StageA(s0: Shell, block: seq<string>)
    requires s0.stack == ["/", "a"] && AfterRoot(s0.fs) && block == BlockA
    ensures Replay(s0, block).Ok? && Replay(s0, block).value.stack == ["/", "a", "e"] && AfterA(Replay(s0, block).value.fs)
  {
    AParsed(block, CommandsA);
    ReplayBlockA(s0, block, CommandsA);
    var f1 := WithFolder(s0.fs, "/a", "/a/e");
    var f2 := WithFile(f1, "/a", "/a/f", 29116);
    var f3 := WithFile(f2, "/a", "/a/g", 2557);
    ListA(s0.fs, f1, f2, f3, WithFile(f3, "/a", "/a/h.lst", 62596));
  }

  lemma StageE(s0: Shell, block: seq<string>)
    requires s0.stack == ["/", "a", "e"] && AfterA(s0.fs) && block == BlockE
    ensures Replay(s0, block).Ok? && Replay(s0, block).value.stack == ["/", "d"] && AfterE(Replay(s0, block).value.fs)
  {
    EParsed(block, CommandsE);
    ReplayBlockE(s0, block, CommandsE);
    ListE(s0.fs, WithFile(s0.fs, "/a/e", "/a/e/i", 584));
  }

  lemma StageD(s0: Shell, block: seq<string>)
    requires s0.stack == ["/", "d"] && AfterE(s0.fs) && block == BlockD
    ensures Replay(s0, block).Ok? && ExampleTree(Replay(s0, block).value.fs)
  {
    DParsed(block, CommandsD);
    ReplayBlockD(s0, block, CommandsD);
    var f1 := WithFile(s0.fs, "/d", "/d/j", 4060174);
    var f2 := WithFile(f1, "/d", "/d/d.log", 8033020);
    var f3 := WithFile(f2, "/d", "/d/d.ext", 5626152);
    ListD(s0.fs, f1, f2, f3, WithFile(f3, "/d", "/d/k1000", 7214296));
  }

  /** The first sample describes the tree `ExampleTree`. */
  lemma ExampleParsed(lines: seq<string>)
    requires lines == Example
    ensures Parsed(lines).Ok? && ExampleTree(Parsed(lines).value)
  {
    RootStage(Start, RootBlock);
    var s1 := Replay(Start, RootBlock).value;
    StageA(s1, BlockA);
    var s2 := Replay(s1, BlockA).value;
    StageE(s2, BlockE);
    var s3 := Replay(s2, BlockE).value;
    StageD(s3, BlockD);
    var s4 := Replay(s3, BlockD).value;
    ParsedFromFour(lines, RootBlock, BlockA, BlockE, BlockD, s1, s2, s3, s4);
  }

  // ---------------------------------------------------------------- the sizes of the first sample

  lemma ExampleTreeWf(fs: FileSystem)
    requires ExampleTree(fs)
    ensures Wf(fs)
  {
    assert FolderWf(fs, "/");
    assert FolderWf(fs, "/a");
    assert FolderWf(fs, "/a/e");
    assert FolderWf(fs, "/d");
  }

  /** "/a/e" holds the 584 bytes of its one file. */
  lemma SizeOfE(fs: FileSystem)
    requires ExampleTree(fs) && Wf(fs)
    ensures FolderSize(fs, "/a/e") == 584
  {
    SumOverOne(FileSizes(fs), "/a/e/i");
    assert SumOver({}, SubfolderSizes(fs, "/a/e")) == 0;
  }

  /** "/d" holds its four files, 24933642 bytes. */
  lemma SizeOfD(fs: FileSystem)
    requires ExampleTree(fs) && Wf(fs)
    ensures FolderSize(fs, "/d") == 24933642
  {
    SumOverFour(FileSizes(fs), "/d/j", "/d/d.log", "/d/d.ext", "/d/k1000");
    assert SumOver({}, SubfolderSizes(fs, "/d")) == 0;
  }

  /** "/a" holds its three files and "/a/e", 94853 bytes. */
  lemma SizeOfA(fs: FileSystem)
    requires ExampleTree(fs) && Wf(fs)
    ensures FolderSize(fs, "/a") == 94853
  {
    SizeOfE(fs);
    SumOverThree(FileSizes(fs), "/a/f", "/a/g", "/a/h.lst");
    SumOverOne(SubfolderSizes(fs, "/a"), "/a/e");
  }

  /** The root holds its two files, "/a" and "/d", 48381165 bytes. */
  lemma SizeOfRoot(fs: FileSystem)
    requires ExampleTree(fs) && Wf(fs)
    ensures FolderSize(fs, "/") == 48381165
  {
    SizeOfA(fs);
    SizeOfD(fs);
    SumOverTwo(FileSizes(fs), "/b.txt", "/c.dat");
    SumOverTwo(SubfolderSizes(fs, "/"), "/a", "/d");
  }

  /** Only "/a" and "/a/e" are within the limit: 94853 + 584. */
  lemma ExampleTreeTotal(fs: FileSystem)
    requires ExampleTree(fs)
    ensures Wf(fs) && SmallFoldersTotal(fs) == 95437
  {
    ExampleTreeWf(fs);
    SizeOfRoot(fs);
    SizeOfA(fs);
    SizeOfE(fs);
    SizeOfD(fs);
    SumOverFour(SmallFolderSizes(fs), "/", "/a", "/d", "/a/e");
  }

  /** Part 1 on the first sample: 95437. */
  lemma ExampleTotal(lines: seq<string>)
    requires lines == Example
    ensures Parsed(lines).Ok? && Wf(Parsed(lines).value)
    ensures SmallFoldersTotal(Parsed(lines).value) == 95437
  {
    ExampleParsed(lines);
    ExampleTreeTotal(Parsed(lines).value);
  }

  // ---------------------------------------------------------------- the second sample

  /** The six lines after "$ cd /" of the second sample: a file "zzz" in the root and
      another "zzz" in "/a". */
  const SecondBlock := ["$ ls", "dir a", "42 zzz", "$ cd a", "$ ls", "1000 zzz"]

  const SecondExample := ["$ cd /"] + SecondBlock

  const SecondCommands := [List, Directory("a"), FileEntry(42, "zzz"), ChangeDir("a"), List, FileEntry(1000, "zzz")]

  lemma SecondPrinted(block: seq<string>, cmds: seq<Command>)
    requires block == SecondBlock && cmds == SecondCommands
    ensures |block| == |cmds| && forall k | 0 <= k < |block| :: ParseCommand(block[k]) == Ok(cmds[k])
  {
    AppendDigit(42, "4", '2');
    AppendDigit(10, "1", '0');
    AppendDigit(100, "10", '0');
    AppendDigit(1000, "100", '0');
    ParsePrinted(block, cmds);
  }

  lemma SecondSteps(s0: Shell, cmds: seq<Command>, f1: FileSystem, f2: FileSystem, f3: FileSystem)
    requires s0.stack == ["/"] && "/" in s0.fs.folders && cmds == SecondCommands
    requires f1 == WithFolder(s0.fs, "/", "/a") && f2 == WithFile(f1, "/", "/zzz", 42)
    requires f3 == WithFile(f2, "/a", "/a/zzz", 1000)
    ensures Execute(s0, cmds[0]) == Ok(s0)
    ensures Execute(s0, cmds[1]) == Ok(Shell(s0.stack, f1))
    ensures Execute(Shell(s0.stack, f1), cmds[2]) == Ok(Shell(s0.stack, f2))
    ensures Execute(Shell(s0.stack, f2), cmds[3]) == Ok(Shell(s0.stack + ["a"], f2))
    ensures Execute(Shell(s0.stack + ["a"], f2), cmds[4]) == Ok(Shell(s0.stack + ["a"], f2))
    ensures Execute(Shell(s0.stack + ["a"], f2), cmds[5]) == Ok(Shell(s0.stack + ["a"], f3))
  {
    RootChild("a");
    ExecuteFolder(s0, "a", "/", "/a");
    RootChild("zzz");
    ExecuteFile(Shell(["/"], f1), 42, "zzz", "/", "/zzz");
    var nested := s0.stack + ["a"];
    assert Text.JoinWith(nested[1..], '/') == "a";
    BelowRoot(nested, "a", "zzz");
    ExecuteFile(Shell(nested, f2), 1000, "zzz", "/a", "/a/zzz");
  }

  /** The tree of the second sample: two files of the same name in different folders. */
  predicate SecondTree(fs: FileSystem)
  {
    && fs.folders.Keys == {"/", "/a"}
    && fs.folders["/"] == Folder("/", {"/a"}, {"/zzz"})
    && fs.folders["/a"] == Folder("/a", {}, {"/a/zzz"})
    && fs.files == map["/zzz" := File("/zzz", 42), "/a/zzz" := File("/a/zzz", 1000)]
  }

  lemma ListSecond(s: FileSystem, f1: FileSystem, f2: FileSystem, f3: FileSystem)
    requires s.folders == map["/" := EmptyFolder("/")] && s.files == map[]
    requires f1 == WithFolder(s, "/", "/a") && f2 == WithFile(f1, "/", "/zzz", 42)
    requires f3 == WithFile(f2, "/a", "/a/zzz", 1000)
    ensures SecondTree(f3)
  {
    assert {"/"} + {"/a"} == {"/", "/a"};
    WithFileElsewhere(f1, "/", "/zzz", 42, "/a");
    WithFileElsewhere(f2, "/a", "/a/zzz", 1000, "/");
    assert {} + {"/a"} == {"/a"};
    assert {} + {"/zzz"} == {"/zzz"};
    assert {} + {"/a/zzz"} == {"/a/zzz"};
  }

  /** The second sample describes the tree `SecondTree`. */
  lemma SecondParsed(lines: seq<string>)
    requires lines == SecondExample
    ensures Parsed(lines).Ok? && SecondTree(Parsed(lines).value)
  {
    var s0 := Start;
    var f1 := WithFolder(s0.fs, "/", "/a");
    var f2 := WithFile(f1, "/", "/zzz", 42);
    var f3 := WithFile(f2, "/a", "/a/zzz", 1000);
    SecondPrinted(SecondBlock, SecondCommands);
    SecondSteps(s0, SecondCommands, f1, f2, f3);
    ReplaySix(SecondBlock, SecondCommands, s0, s0, Shell(s0.stack, f1), Shell(s0.stack, f2),
              Shell(s0.stack + ["a"], f2), Shell(s0.stack + ["a"], f2), Shell(s0.stack + ["a"], f3));
    ListSecond(s0.fs, f1, f2, f3);
    ParsedFrom(lines, SecondBlock, Shell(s0.stack + ["a"], f3));
  }

  /** Both folders are within the limit: "/a" holds 1000 bytes and the root 42 more. */
  lemma SecondTreeTotal(fs: FileSystem)
    requires SecondTree(fs)
    ensures Wf(fs) && SmallFoldersTotal(fs) == 2042
  {
    assert FolderWf(fs, "/") && FolderWf(fs, "/a");
    SumOverOne(FileSizes(fs), "/a/zzz");
    assert SumOver({}, SubfolderSizes(fs, "/a")) == 0;
    assert FolderSize(fs, "/a") == 1000;
    SumOverOne(FileSizes(fs), "/zzz");
    SumOverOne(SubfolderSizes(fs, "/"), "/a");
    assert FolderSize(fs, "/") == 1042;
    SumOverTwo(SmallFolderSizes(fs), "/", "/a");
  }

  /** Part 1 on the second sample: 2042, the file "zzz" of the root and the file "zzz" of
      "/a" counted apart. */
  lemma SecondTotal(lines: seq<string>)
    requires lines == SecondExample
    ensures Parsed(lines).Ok? && Wf(Parsed(lines).value)
    ensures SmallFoldersTotal(Parsed(lines).value) == 2042
  {
    SecondParsed(lines);
    SecondTreeTotal(Parsed(lines).value);
  }
}
