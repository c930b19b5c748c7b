/** Day 7: a terminal session (`$ cd`, `$ ls` and their output) is replayed into a file
    system whose folders and files are keyed by their full path, and the answer sums the
    total sizes of the folders holding at most 100000 bytes. */
module Day07 {
  import opened Wrappers
  import Text

  datatype Folder = Folder(name: string, subfolders: set<string>, files: set<string>)

  datatype File = File(name: string, size: nat)

  /** Folders and files by full path; a folder lists the full paths of its children. */
  datatype FileSystem = FileSystem(folders: map<string, Folder>, files: map<string, File>)

  function EmptyFolder(name: string): Folder
  {
    Folder(name, {}, {})
  }

  // ---------------------------------------------------------------- paths

  /** The stack joined with "/" begins with "//" whenever it holds more than the root,
      and one of the two slashes is dropped. */
  function StripDoubleSlash(path: string): (r: string)
    ensures "//" <= path ==> r == path[1..]
    ensures !("//" <= path) ==> r == path
  {
    if "//" <= path then path[1..] else path
  }

  function BuildFullPath(stack: seq<string>, name: string): string
  {
    var joined := Text.JoinWith(stack, '/');
    StripDoubleSlash((if joined != "/" then joined + "/" else joined) + name)
  }

  function BuildCurrentFullPath(stack: seq<string>): string
  {
    StripDoubleSlash(Text.JoinWith(stack, '/'))
  }

  /** In the root, the current folder is "/" and a child is "/" followed by its name
      (a name that already starts with "/" is kept as it is). */
  lemma RootPaths(name: string)
    ensures BuildCurrentFullPath(["/"]) == "/"
    ensures BuildFullPath(["/"], name) == if "/" <= name then name else "/" + name
  {
    var line := "/" + name;
    if "/" <= name {
      assert "//" <= line;
      assert line[1..] == name;
    }
  }

  lemma JoinBelowRoot(stack: seq<string>)
    requires |stack| >= 2 && stack[0] == "/"
    ensures Text.JoinWith(stack, '/') == "//" + Text.JoinWith(stack[1..], '/')
  {
    assert Text.JoinWith(stack, '/') == stack[0] + ['/'] + Text.JoinWith(stack[1..], '/');
  }

  /** Below the root, the current folder is "/c1/.../ck" for the stack "/", c1, ..., ck,
      and a child named `name` is that path followed by "/" and `name`. */
  lemma NestedPaths(stack: seq<string>, name: string)
    requires |stack| >= 2 && stack[0] == "/"
    ensures BuildCurrentFullPath(stack) == "/" + Text.JoinWith(stack[1..], '/')
    ensures BuildFullPath(stack, name) == BuildCurrentFullPath(stack) + "/" + name
  {
    var rest := Text.JoinWith(stack[1..], '/');
    JoinBelowRoot(stack);
    StrippedPaths("//" + rest, rest, name);
  }

  lemma StrippedPaths(joined: string, rest: string, name: string)
    requires joined == "//" + rest
    ensures StripDoubleSlash(joined) == "/" + rest
    ensures StripDoubleSlash(joined + "/" + name) == "/" + rest + "/" + name
  {
    assert joined[1..] == "/" + rest;
    var line := joined + "/" + name;
    assert line == "//" + (rest + "/" + name);
    assert line[1..] == "/" + rest + "/" + name;
  }

  /** A child path is strictly longer than the path of the folder it is created in,
      except for a folder named "/" created in the root, which is the root itself. */
  lemma FullPathLonger(stack: seq<string>, name: string)
    requires name != []
    requires !(Text.JoinWith(stack, '/') == "/" && name == "/")
    ensures |BuildFullPath(stack, name)| > |BuildCurrentFullPath(stack)|
  {
    var joined := Text.JoinWith(stack, '/');
    if joined != "/" {
      var line := joined + "/" + name;
      if "//" <= joined {
        assert "//" <= line;
      } else if joined == [] {
        assert line == "/" + name;
      }
    }
  }

  // ---------------------------------------------------------------- terminal lines

  /** One line of the session, classified the way the replay reads it. */
  datatype Command =
    | ChangeDir(target: string)
    | List
    | Directory(name: string)
    | FileEntry(size: nat, name: string)

  lemma SplitChangeDir(target: string)
    ensures Text.SplitOn("$ cd " + target, ' ') == ["$", "cd"] + Text.SplitOn(target, ' ')
  {
    var line := "$ cd " + target;
    assert line[0] == '$' && line[1..][0] == ' ';
    assert Text.IndexOf(line, ' ') == 1;
    assert line[..1] == "$";
    var tail := line[2..];
    assert tail == "cd " + target;
    assert tail[0] == 'c' && tail[1..][0] == 'd' && tail[1..][1..][0] == ' ';
    assert Text.IndexOf(tail, ' ') == 2;
    assert tail[..2] == "cd";
    assert tail[3..] == target;
  }

  /** The folder name of a "$ cd " line: the third field of the line split on spaces,
      that is, everything after "$ cd " up to the next space. */
  function ChangeDirTarget(line: string): (target: string)
    requires "$ cd " <= line
    ensures ' ' !in target
    ensures "$ cd " + target <= line
    ensures |line| == 5 + |target| || line[5 + |target|] == ' '
  {
    var rest := line[5..];
    assert line == "$ cd " + rest;
    SplitChangeDir(rest);
    FirstField(rest);
    Text.SplitOn(line, ' ')[2]
  }

  /** The first field of a split on spaces is the longest space-free prefix. */
  lemma FirstField(s: string)
    ensures var first := Text.SplitOn(s, ' ')[0];
            first <= s && (|s| == |first| || s[|first|] == ' ')
  {
    var fields := Text.SplitOn(s, ' ');
    if |fields| > 1 {
      assert s == fields[0] + [' '] + Text.JoinWith(fields[1..], ' ');
      assert s[|fields[0]|] == ' ';
    } else {
      assert s == fields[0];
    }
  }

  /** `$ cd` takes the third space-separated field, `$ ls` is skipped, `dir` takes the
      rest of the line as a name, and anything else must be a size, a space and a name. */
  function ParseCommand(line: string): (r: Result<Command>)
    ensures r == Ok(List) <==> "$ ls" <= line
    ensures (r.Ok? && r.value.ChangeDir?) <==> "$ cd " <= line
    ensures r.Ok? && r.value.ChangeDir? ==> r.value.target == ChangeDirTarget(line)
    ensures r.Ok? && r.value.Directory? ==> r.value.name != [] && line == "dir " + r.value.name
    ensures r.Ok? && r.value.FileEntry? ==>
              var n := |r.value.name|;
              && 0 < n < |line| && line[|line| - n - 1] == ' ' && line[|line| - n..] == r.value.name
              && Text.ParseNat(line[..|line| - n - 1]) == Some(r.value.size)
  {
    if "$ cd " <= line then
      assert !("$ ls" <= line) by { assert line[2] == 'c'; }
      Ok(ChangeDir(ChangeDirTarget(line)))
    else if "$ ls" <= line then Ok(List)
    else if "dir " <= line then
      if |line| > 4 then Ok(Directory(line[4..])) else Err("Unable to parse dir line")
    else if ' ' in line then
      var i := Text.IndexOf(line, ' ');
      match Text.ParseNat(line[..i])
      case None => Err("Unable to parse file line")
      case Some(size) => if i + 1 < |line| then Ok(FileEntry(size, line[i + 1..])) else Err("Unable to parse file line")
    else Err("Unable to parse file line")
  }

  predicate WellFormedCommand(c: Command)
  {
    match c
    case ChangeDir(target) => ' ' !in target
    case List => true
    case Directory(name) => name != []
    case FileEntry(_, name) => name != []
  }

  /** The line the terminal prints for a command or an entry of a listing. */
  function FormatCommand(c: Command): string
  {
    match c
    case ChangeDir(target) => "$ cd " + target
    case List => "$ ls"
    case Directory(name) => "dir " + name
    case FileEntry(size, name) => Text.NatToString(size) + " " + name
  }

  lemma ParseFormattedChangeDir(target: string)
    requires ' ' !in target
    ensures ParseCommand(FormatCommand(ChangeDir(target))) == Ok(ChangeDir(target))
  {
    var line := FormatCommand(ChangeDir(target));
    assert line[5..] == target;
    SplitChangeDir(target);
    Text.SplitOnJoinWith([target], ' ');
  }

  lemma ParseFormattedFileEntry(size: nat, name: string)
    requires name != []
    ensures ParseCommand(FormatCommand(FileEntry(size, name))) == Ok(FileEntry(size, name))
  {
    var line := FormatCommand(FileEntry(size, name));
    var digits := Text.NatToString(size);
    assert Text.IsDigit(line[0]) by { assert line[0] == digits[0]; }
    assert !("$ cd " <= line) && !("$ ls" <= line) && !("dir " <= line);
    assert line[|digits|] == ' ';
    assert ' ' in line;
    assert ' ' !in digits by {
      forall j | 0 <= j < |digits| ensures digits[j] != ' ' {
        assert Text.IsDigit(digits[j]);
      }
    }
    assert line[..|digits|] == digits;
    assert Text.IndexOf(line, ' ') == |digits|;
    assert line[|digits| + 1..] == name;
    Text.ParseNatOfNatToString(size);
  }

  /** Every well-formed command is read back from the line that prints it. */
  lemma ParseFormattedCommand(c: Command)
    requires WellFormedCommand(c)
    ensures ParseCommand(FormatCommand(c)) == Ok(c)
  {
    var line := FormatCommand(c);
    match c
    case ChangeDir(target) =>
      ParseFormattedChangeDir(target);
    case List =>
    case Directory(name) =>
      assert !("$ cd " <= line) by { assert line[0] == 'd'; }
      assert !("$ ls" <= line) by { assert line[0] == 'd'; }
    case FileEntry(size, name) =>
      ParseFormattedFileEntry(size, name);
  }

  // ---------------------------------------------------------------- replaying the session

  /** The directory stack and the file system built so far. */
  datatype Shell = Shell(stack: seq<string>, fs: FileSystem)

  /** `Vec::pop`: removes the last entry, and does nothing on an empty stack. */
  function Pop(stack: seq<string>): (r: seq<string>)
    ensures stack != [] ==> stack == r + [stack[|stack| - 1]]
    ensures stack == [] ==> r == []
  {
    if stack == [] then [] else stack[..|stack| - 1]
  }

  /** The effect of one command. A listed folder or file is (re)registered under its full
      path; registering it in the current folder fails if that folder is unknown. */
  function Execute(shell: Shell, c: Command): (r: Result<Shell>)
    ensures c.ChangeDir? ==> r == Ok(shell.(stack := if c.target == ".." then Pop(shell.stack) else shell.stack + [c.target]))
    ensures c.List? ==> r == Ok(shell)
    ensures c.Directory? ==>
              var full := BuildFullPath(shell.stack, c.name);
              var current := BuildCurrentFullPath(shell.stack);
              && (r.Ok? <==> current in shell.fs.folders || current == full)
              && (r.Ok? ==>
                    && r.value.stack == shell.stack
                    && r.value.fs.files == shell.fs.files
                    && r.value.fs.folders.Keys == shell.fs.folders.Keys + {full}
                    && full in r.value.fs.folders[current].subfolders
                    && r.value.fs.folders[full].files == {}
                    && (full != current ==> r.value.fs.folders[full] == EmptyFolder(full))
                    && forall j | j in shell.fs.folders && j != full && j != current ::
                         r.value.fs.folders[j] == shell.fs.folders[j])
    ensures c.FileEntry? ==>
              var full := BuildFullPath(shell.stack, c.name);
              var current := BuildCurrentFullPath(shell.stack);
              && (r.Ok? <==> current in shell.fs.folders)
              && (r.Ok? ==>
                    && r.value.stack == shell.stack
                    && r.value.fs.files == shell.fs.files[full := File(full, c.size)]
                    && r.value.fs.folders.Keys == shell.fs.folders.Keys
                    && r.value.fs.folders[current].files == shell.fs.folders[current].files + {full}
                    && r.value.fs.folders[current].subfolders == shell.fs.folders[current].subfolders
                    && forall j | j in shell.fs.folders && j != current ::
                         r.value.fs.folders[j] == shell.fs.folders[j])
  {
    match c
    case ChangeDir(target) =>
      Ok(shell.(stack := if target == ".." then Pop(shell.stack) else shell.stack + [target]))
    case List => Ok(shell)
    case Directory(name) =>
      var full := BuildFullPath(shell.stack, name);
      var folders := shell.fs.folders[full := EmptyFolder(full)];
      var current := BuildCurrentFullPath(shell.stack);
      if current !in folders then Err("Unable to get current folder")
      else
        var folder := folders[current];
        Ok(shell.(fs := shell.fs.(folders := folders[current := folder.(subfolders := folder.subfolders + {full})])))
    case FileEntry(size, name) =>
      var full := BuildFullPath(shell.stack, name);
      var files := shell.fs.files[full := File(full, size)];
      var current := BuildCurrentFullPath(shell.stack);
      if current !in shell.fs.folders then Err("Unable to get current folder")
      else
        var folder := shell.fs.folders[current];
        Ok(Shell(shell.stack, FileSystem(shell.fs.folders[current := folder.(files := folder.files + {full})], files)))
  }

  /** The lines one after the other; the first line that fails ends the replay. */
  function Replay(shell: Shell, lines: seq<string>): Result<Shell>
    decreases |lines|
  {
    if lines == [] then Ok(shell)
    else
      match ParseCommand(lines[0])
      case Err(e) => Err(e)
      case Ok(c) =>
        match Execute(shell, c)
        case Err(e) => Err(e)
        case Ok(next) => Replay(next, lines[1..])
  }

  /** After the mandatory "$ cd /": in the root, which is registered and empty. */
  const Start := Shell(["/"], FileSystem(map["/" := EmptyFolder("/")], map[]))

  /** The file system a whole session describes. */
  function Parsed(lines: seq<string>): (r: Result<FileSystem>)
    ensures r.Ok? ==> |lines| >= 1 && lines[0] == "$ cd /"
  {
    if lines == [] then Err("Unable to get first line")
    else if lines[0] != "$ cd /" then Err("First line is not cd /")
    else
      match Replay(Start, lines[1..])
      case Err(e) => Err(e)
      case Ok(shell) => Ok(shell.fs)
  }

  /** Folders and files are only ever added or overwritten, never removed. */
  lemma {:induction false} ReplayKeepsKeys(shell: Shell, lines: seq<string>)
    ensures Replay(shell, lines).Ok? ==>
              && shell.fs.folders.Keys <= Replay(shell, lines).value.fs.folders.Keys
              && shell.fs.files.Keys <= Replay(shell, lines).value.fs.files.Keys
    decreases |lines|
  {
    if lines != [] {
      match ParseCommand(lines[0])
      case Err(_) =>
      case Ok(c) =>
        match Execute(shell, c)
        case Err(_) =>
        case Ok(next) =>
          ReplayKeepsKeys(next, lines[1..]);
    }
  }

  /** The root is always registered in a parsed file system. */
  lemma ParsedHasRoot(lines: seq<string>)
    ensures Parsed(lines).Ok? ==> "/" in Parsed(lines).value.folders
  {
    if lines != [] && lines[0] == "$ cd /" {
      ReplayKeepsKeys(Start, lines[1..]);
    }
  }

  /** `parse_input_data`: the session replayed in place on a stack and two maps. */
  method ParseInputData(lines: seq<string>) returns (r: Result<FileSystem>)
    ensures r == Parsed(lines)
  {
    if |lines| == 0 {
      return Err("Unable to get first line");
    }
    if lines[0] != "$ cd /" {
      return Err("First line is not cd /");
    }
    var folders: map<string, Folder> := map["/" := EmptyFolder("/")];
    var files: map<string, File> := map[];
    var stack: seq<string> := ["/"];
    for k := 1 to |lines|
      invariant Replay(Shell(stack, FileSystem(folders, files)), lines[k..]) == Replay(Start, lines[1..])
    {
      ghost var before := Shell(stack, FileSystem(folders, files));
      assert lines[k..][0] == lines[k] && lines[k..][1..] == lines[k + 1..];
      var command := ParseCommand(lines[k]);
      if command.Err? {
        return Err(command.message);
      }
      match command.value {
        case ChangeDir(target) =>
          if target == ".." {
            if stack != [] {
              stack := stack[..|stack| - 1];
            }
          } else {
            stack := stack + [target];
          }
        case List =>
        case Directory(name) =>
          var fullPath := BuildFullPath(stack, name);
          folders := folders[fullPath := EmptyFolder(fullPath)];
          var currentFullPath := BuildCurrentFullPath(stack);
          if currentFullPath !in folders {
            return Err("Unable to get current folder");
          }
          var current := folders[currentFullPath];
          folders := folders[currentFullPath := current.(subfolders := current.subfolders + {fullPath})];
        case FileEntry(size, name) =>
          var fullPath := BuildFullPath(stack, name);
          files := files[fullPath := File(fullPath, size)];
          var currentFullPath := BuildCurrentFullPath(stack);
          if currentFullPath !in folders {
            return Err("Unable to get current folder");
          }
          var current := folders[currentFullPath];
          folders := folders[currentFullPath := current.(files := current.files + {fullPath})];
      }
      assert Execute(before, command.value) == Ok(Shell(stack, FileSystem(folders, files)));
    }
    assert lines[|lines|..] == [];
    return Ok(FileSystem(folders, files));
  }

  // ---------------------------------------------------------------- well-formed file systems

  /** Every file a folder lists is registered, and every subfolder is registered under a
      strictly longer path: this is what lets the size recursion stop. */
  predicate FolderWf(fs: FileSystem, k: string)
    requires k in fs.folders
  {
    && fs.folders[k].files <= fs.files.Keys
    && forall s | s in fs.folders[k].subfolders :: s in fs.folders && |s| > |k|
  }

  predicate Wf(fs: FileSystem)
  {
    forall k {:trigger FolderWf(fs, k)} | k in fs.folders :: FolderWf(fs, k)
  }

  lemma ExecuteKeepsWf(shell: Shell, c: Command)
    requires Wf(shell.fs)
    requires c.Directory? ==> c.name != [] && c.name != "/"
    ensures Execute(shell, c).Ok? ==> Wf(Execute(shell, c).value.fs)
  {
    if Execute(shell, c).Ok? {
      var next := Execute(shell, c).value.fs;
      if c.Directory? {
        FullPathLonger(shell.stack, c.name);
      }
      forall j | j in next.folders
        ensures FolderWf(next, j)
      {
        if j in shell.fs.folders {
          assert FolderWf(shell.fs, j);
        }
      }
    }
  }

  lemma {:induction false} ReplayKeepsWf(shell: Shell, lines: seq<string>)
    requires Wf(shell.fs)
    requires forall i :: 0 <= i < |lines| ==> lines[i] != "dir /"
    ensures Replay(shell, lines).Ok? ==> Wf(Replay(shell, lines).value.fs)
    decreases |lines|
  {
    if lines != [] {
      match ParseCommand(lines[0])
      case Err(_) =>
      case Ok(c) =>
        ExecuteKeepsWf(shell, c);
        match Execute(shell, c)
        case Err(_) =>
        case Ok(next) =>
          assert forall i :: 0 <= i < |lines[1..]| ==> lines[1..][i] == lines[i + 1];
          ReplayKeepsWf(next, lines[1..]);
    }
  }

  /** A session without a "dir /" line always describes a well-formed file system. */
  lemma ParsedIsWf(lines: seq<string>)
    requires forall i :: 0 <= i < |lines| ==> lines[i] != "dir /"
    ensures Parsed(lines).Ok? ==> Wf(Parsed(lines).value)
  {
    if lines != [] && lines[0] == "$ cd /" {
      assert forall i :: 0 <= i < |lines[1..]| ==> lines[1..][i] == lines[i + 1];
      ReplayKeepsWf(Start, lines[1..]);
    }
  }

  /** With "dir /" in the root, the root becomes its own subfolder, and the source's size
      recursion would never end. */
  lemma RootInsideItself()
    ensures Parsed(["$ cd /", "dir /"]).Ok?
    ensures "/" in Parsed(["$ cd /", "dir /"]).value.folders["/"].subfolders
    ensures !Wf(Parsed(["$ cd /", "dir /"]).value)
  {
    var lines := ["$ cd /", "dir /"];
    assert ParseCommand("dir /") == Ok(Directory("/")) by {
      ParseFormattedCommand(Directory("/"));
      assert FormatCommand(Directory("/")) == "dir /";
    }
    RootPaths("/");
    assert lines[1..][1..] == [];
    assert !FolderWf(Parsed(lines).value, "/");
  }

  // ---------------------------------------------------------------- sizes

  ghost function Pick(keys: set<string>): (k: string)
    requires keys != {}
    ensures k in keys
  {
    var k :| k in keys; k
  }

  /** The sum of `values` over `keys`. */
  ghost function SumOver(keys: set<string>, values: map<string, nat>): nat
    requires keys <= values.Keys
    decreases |keys|
  {
    if keys == {} then 0
    else
      var k := Pick(keys);
      values[k] + SumOver(keys - {k}, values)
  }

  lemma {:induction false} SumOverRemove(keys: set<string>, values: map<string, nat>, x: string)
    requires keys <= values.Keys && x in keys
    ensures SumOver(keys, values) == values[x] + SumOver(keys - {x}, values)
    decreases |keys|
  {
    var k := Pick(keys);
    if k != x {
      SumOverRemove(keys - {k}, values, x);
      SumOverRemove(keys - {x}, values, k);
      assert keys - {k} - {x} == keys - {x} - {k};
    }
  }

  /** A sum of entries bounded by `b` is at most `b` times the number of keys. */
  lemma {:induction false} SumOverAtMost(keys: set<string>, values: map<string, nat>, b: nat)
    requires keys <= values.Keys
    requires forall k | k in keys :: values[k] <= b
    ensures SumOver(keys, values) <= b * |keys|
    decreases |keys|
  {
    if keys != {} {
      var k := Pick(keys);
      SumOverAtMost(keys - {k}, values, b);
      assert |keys - {k}| == |keys| - 1;
      assert b * |keys| == b * |keys - {k}| + b;
    }
  }

  ghost function LongerKeys(fs: FileSystem, k: string): set<string>
  {
    set j | j in fs.folders && |j| > |k|
  }

  lemma LongerKeysShrink(fs: FileSystem, k: string, s: string)
    requires s in fs.folders && |s| > |k|
    ensures LongerKeys(fs, s) < LongerKeys(fs, k)
  {
    assert s in LongerKeys(fs, k) - LongerKeys(fs, s);
  }

  ghost function FileSizes(fs: FileSystem): (m: map<string, nat>)
    ensures m.Keys == fs.files.Keys
  {
    map f | f in fs.files :: fs.files[f].size
  }

  /** The size of a folder: its own files, plus the sizes of its subfolders. */
  ghost function FolderSize(fs: FileSystem, k: string): nat
    requires Wf(fs) && k in fs.folders
    decreases LongerKeys(fs, k), 1
  {
    assert FolderWf(fs, k);
    SumOver(fs.folders[k].files, FileSizes(fs)) + SumOver(fs.folders[k].subfolders, SubfolderSizes(fs, k))
  }

  ghost function SubfolderSizes(fs: FileSystem, k: string): (m: map<string, nat>)
    requires Wf(fs) && k in fs.folders
    ensures m.Keys == fs.folders[k].subfolders
    decreases LongerKeys(fs, k), 0
  {
    assert FolderWf(fs, k);
    map s | s in fs.folders[k].subfolders :: LongerKeysShrink(fs, k, s); FolderSize(fs, s)
  }

  /** A folder is at least as large as each of its files and each of its subfolders. */
  lemma FolderSizeCoversChildren(fs: FileSystem, k: string)
    requires Wf(fs) && k in fs.folders
    ensures forall f | f in fs.folders[k].files :: f in fs.files && fs.files[f].size <= FolderSize(fs, k)
    ensures forall s | s in fs.folders[k].subfolders :: s in fs.folders && FolderSize(fs, s) <= FolderSize(fs, k)
  {
    assert FolderWf(fs, k);
    var folder := fs.folders[k];
    forall f | f in folder.files
      ensures f in fs.files && fs.files[f].size <= FolderSize(fs, k)
    {
      SumOverRemove(folder.files, FileSizes(fs), f);
    }
    forall s | s in folder.subfolders
      ensures s in fs.folders && FolderSize(fs, s) <= FolderSize(fs, k)
    {
      SumOverRemove(folder.subfolders, SubfolderSizes(fs, k), s);
    }
  }

  /** `compute_folder_size`: its files' sizes and then each subfolder's, recursively. */
  method ComputeFolderSize(fs: FileSystem, k: string) returns (size: nat)
    requires Wf(fs) && k in fs.folders
    ensures size == FolderSize(fs, k)
    decreases LongerKeys(fs, k)
  {
    assert FolderWf(fs, k);
    var folder := fs.folders[k];
    ghost var fileSizes := FileSizes(fs);
    size := 0;
    var pending := folder.files;
    while pending != {}
      invariant pending <= folder.files
      invariant size + SumOver(pending, fileSizes) == SumOver(folder.files, fileSizes)
      decreases |pending|
    {
      var f :| f in pending;
      SumOverRemove(pending, fileSizes, f);
      size := size + fs.files[f].size;
      pending := pending - {f};
    }
    ghost var subSizes := SubfolderSizes(fs, k);
    var subfolders := folder.subfolders;
    while subfolders != {}
      invariant subfolders <= folder.subfolders
      invariant size + SumOver(subfolders, subSizes) == FolderSize(fs, k)
      decreases |subfolders|
    {
      var s :| s in subfolders;
      SumOverRemove(subfolders, subSizes, s);
      LongerKeysShrink(fs, k, s);
      var subSize := ComputeFolderSize(fs, s);
      size := size + subSize;
      subfolders := subfolders - {s};
    }
  }

  // ---------------------------------------------------------------- part 1

  const SizeLimit := 100000

  /** What a folder contributes to the answer: its size if within the limit, else 0. */
  ghost function SmallSize(fs: FileSystem, k: string): nat
    requires Wf(fs) && k in fs.folders
  {
    var size := FolderSize(fs, k);
    if size <= SizeLimit then size else 0
  }

  ghost function SmallFolderSizes(fs: FileSystem): (m: map<string, nat>)
    requires Wf(fs)
    ensures m.Keys == fs.folders.Keys
    ensures forall k | k in m :: m[k] == SmallSize(fs, k)
  {
    map k | k in fs.folders :: SmallSize(fs, k)
  }

  /** The sum of the sizes of all folders of at most `SizeLimit` bytes. */
  ghost function SmallFoldersTotal(fs: FileSystem): nat
    requires Wf(fs)
  {
    SumOver(fs.folders.Keys, SmallFolderSizes(fs))
  }

  /** Every folder within the limit is part of the total. */
  lemma SmallFolderCounted(fs: FileSystem, k: string)
    requires Wf(fs) && k in fs.folders && FolderSize(fs, k) <= SizeLimit
    ensures FolderSize(fs, k) <= SmallFoldersTotal(fs)
  {
    SumOverRemove(fs.folders.Keys, SmallFolderSizes(fs), k);
  }

  /** The total is at most the limit times the number of folders. */
  lemma SmallFoldersTotalAtMost(fs: FileSystem)
    requires Wf(fs)
    ensures SmallFoldersTotal(fs) <= SizeLimit * |fs.folders.Keys|
  {
    SumOverAtMost(fs.folders.Keys, SmallFolderSizes(fs), SizeLimit);
  }

  method SumSmallFolders(fs: FileSystem) returns (total: nat)
    requires Wf(fs)
    ensures total == SmallFoldersTotal(fs)
  {
    total := SumSizes(fs, SmallFolderSizes(fs));
  }

  /** The loop of `SumSmallFolders`, over a map that holds each folder's contribution. */
  method SumSizes(fs: FileSystem, ghost small: map<string, nat>) returns (total: nat)
    requires Wf(fs)
    requires small.Keys == fs.folders.Keys
    requires forall k | k in small :: small[k] == SmallSize(fs, k)
    ensures total == SumOver(fs.folders.Keys, small)
  {
    total := 0;
    var pending := fs.folders.Keys;
    while pending != {}
      invariant pending <= fs.folders.Keys
      invariant total + SumOver(pending, small) == SumOver(fs.folders.Keys, small)
      decreases |pending|
    {
      var k :| k in pending;
      SumOverRemove(pending, small, k);
      var size := ComputeFolderSize(fs, k);
      if size <= SizeLimit {
        total := total + size;
      }
      pending := pending - {k};
    }
  }

  /** `day_7_part_1`. A file system that is not well formed is rejected: on it the
      source's size recursion does not terminate. */
  method Part1(lines: seq<string>) returns (r: Result<int>)
    ensures Parsed(lines).Err? ==> r == Err(Parsed(lines).message)
    ensures Parsed(lines).Ok? && !Wf(Parsed(lines).value) ==> r.Err?
    ensures Parsed(lines).Ok? && Wf(Parsed(lines).value) ==> r == Ok(SmallFoldersTotal(Parsed(lines).value))
  {
    var parsed := ParseInputData(lines);
    if parsed.Err? {
      return Err(parsed.message);
    }
    var fs := parsed.value;
    if !Wf(fs) {
      return Err("Folder contains itself");
    }
    var total := SumSmallFolders(fs);
    return Ok(total);
  }
}
