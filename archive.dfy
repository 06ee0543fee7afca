/** The source archiver (zip_project.py:4-23): a top-down walk of the
    project directory that prunes build and output directories in place and
    writes every admitted file into the archive under its path relative to
    the project root. The directory tree is an input; the archive is the
    sequence of entries written, in order. */
module Archive {

  /** zip_project.py:4-7. */
  const ZipName: string := "DSP_Project_Source.zip"
  const Extensions: seq<string> := [".py", ".md", ".txt", ".gitignore"]
  const ExcludedFiles: seq<string> := [ZipName]
  const ExcludedDirs: seq<string> := ["__pycache__", "outputs", ".git"]

  /** A directory as the walk sees it: its name, the names of its files and
      its subdirectories, both in listing order. */
  datatype Folder = Folder(name: string, files: seq<string>, subfolders: seq<Folder>)

  /** An archive entry: the directories from the root down to the file, and
      the file's name; its archive name is these joined by '/'. */
  datatype Entry = Entry(dirs: seq<string>, file: string)

  /** The index of the last '.' in s, or -1 when there is none. */
  function LastDot(s: string): (d: int)
    ensures -1 <= d < |s|
    ensures d >= 0 ==> s[d] == '.'
    ensures forall k :: d < k < |s| ==> s[k] != '.'
  {
    if |s| == 0 then -1
    else if s[|s| - 1] == '.' then |s| - 1
    else LastDot(s[..|s| - 1])
  }

  /** The second half of `os.path.splitext(name)` for a base name: from the
      last dot to the end, unless every character before that dot is itself
      a dot (a leading dot starts a hidden name, not an extension). */
  function Extension(name: string): (ext: string)
    ensures ext != [] ==>
              && |ext| <= |name| && ext == name[|name| - |ext|..]
              && ext[0] == '.' && (forall k :: 1 <= k < |ext| ==> ext[k] != '.')
              && (exists k :: 0 <= k < |name| - |ext| && name[k] != '.')
    ensures ext == [] ==>
              forall d :: 0 <= d < |name| && name[d] == '.' && (forall k :: d < k < |name| ==> name[k] != '.') ==>
                forall k :: 0 <= k < d ==> name[k] == '.'
  {
    var d := LastDot(name);
    if d >= 0 && exists k :: 0 <= k < d && name[k] != '.' then name[d..] else []
  }

  /** `dirs[:] = [d for d in dirs if d not in excluded_dirs]`. */
  predicate Pruned(dir: string) {
    dir in ExcludedDirs
  }

  /** zip_project.py:15-20: the archive itself is skipped; any other file is
      written when its extension is listed or it is named `.gitignore`. */
  predicate Admitted(file: string) {
    file !in ExcludedFiles && (Extension(file) in Extensions || file == ".gitignore")
  }

  function Size(f: Folder): nat {
    1 + SizeAll(f.subfolders)
  }

  function SizeAll(fs: seq<Folder>): nat {
    if |fs| == 0 then 0 else Size(fs[0]) + SizeAll(fs[1..])
  }

  /** The subdirectories the walk goes on into, in listing order. */
  function Kept(fs: seq<Folder>): (kept: seq<Folder>)
    ensures SizeAll(kept) <= SizeAll(fs)
    ensures forall x :: x in kept <==> x in fs && !Pruned(x.name)
  {
    if |fs| == 0 then []
    else if Pruned(fs[0].name) then Kept(fs[1..])
    else [fs[0]] + Kept(fs[1..])
  }

  /** The entries written for the files of one directory at `path`. */
  function FilesOf(path: seq<string>, files: seq<string>): (entries: seq<Entry>)
    ensures forall e :: e in entries <==> e.dirs == path && e.file in files && Admitted(e.file)
  {
    if |files| == 0 then []
    else
      var last := files[|files| - 1];
      FilesOf(path, files[..|files| - 1]) + (if Admitted(last) then [Entry(path, last)] else [])
  }

  /** The entries written for directory f at `path` and everything below
      it: its own files first, then each kept subdirectory in turn. */
  function Visit(path: seq<string>, f: Folder): seq<Entry>
    decreases Size(f), 1
  {
    FilesOf(path, f.files) + VisitAll(path, Kept(f.subfolders))
  }

  function VisitAll(path: seq<string>, fs: seq<Folder>): seq<Entry>
    decreases SizeAll(fs), 2
  {
    if |fs| == 0 then []
    else Visit(path + [fs[0].name], fs[0]) + VisitAll(path, fs[1..])
  }

  /** A directory still to be walked, with its path from the root. */
  datatype Frame = Frame(path: seq<string>, folder: Folder)

  /** What the walk will still write for the frames on its stack, top
      first. */
  function Pending(stack: seq<Frame>): seq<Entry> {
    if |stack| == 0 then []
    else Visit(stack[0].path, stack[0].folder) + Pending(stack[1..])
  }

  function StackSize(stack: seq<Frame>): nat {
    if |stack| == 0 then 0 else Size(stack[0].folder) + StackSize(stack[1..])
  }

  /** The frames of the kept subdirectories of the directory at `root`. */
  function Children(root: seq<string>, kept: seq<Folder>): (frames: seq<Frame>)
    ensures |frames| == |kept|
  {
    seq(|kept|, i requires 0 <= i < |kept| => Frame(root + [kept[i].name], kept[i]))
  }

  lemma {:induction false} PushChildren(root: seq<string>, kept: seq<Folder>, rest: seq<Frame>)
    ensures Pending(Children(root, kept) + rest) == VisitAll(root, kept) + Pending(rest)
    ensures StackSize(Children(root, kept) + rest) == SizeAll(kept) + StackSize(rest)
    decreases |kept|
  {
    if |kept| > 0 {
      var stack := Children(root, kept) + rest;
      assert stack[0] == Frame(root + [kept[0].name], kept[0]);
      assert stack[1..] == Children(root, kept[1..]) + rest;
      PushChildren(root, kept[1..], rest);
    } else {
      assert Children(root, kept) + rest == rest;
    }
  }

  lemma Regroup<T>(a: seq<T>, b: seq<T>, c: seq<T>, d: seq<T>)
    ensures a + b + (c + d) == a + (b + c) + d
  {
  }

  /** The inner loop of zip_project.py:14-23: the admitted files of one
      directory are appended to the archive in listing order. */
  method WriteFiles(archive: seq<Entry>, root: seq<string>, files: seq<string>) returns (written: seq<Entry>)
    ensures written == archive + FilesOf(root, files)
  {
    written := archive;
    for j := 0 to |files|
      invariant written == archive + FilesOf(root, files[..j])
    {
      var file := files[j];
      assert files[..j + 1][..j] == files[..j];
      if file in ExcludedFiles {
        continue;
      }
      var ext := Extension(file);
      if ext in Extensions || file == ".gitignore" {
        written := written + [Entry(root, file)];
      }
    }
    assert files[..|files|] == files;
  }

  /** The walk loop of zip_project.py:10-23 over the tree rooted at `top`.
      The pending directories form a stack: the next directory is taken
      from the top, its subdirectory list is pruned in place, its admitted
      files are written in listing order, and the kept subdirectories are
      pushed so that the first is walked next. The archive written is the
      preorder of the pruned tree. */
  method ZipProject(top: Folder) returns (archive: seq<Entry>)
    ensures archive == Visit([], top)
  {
    archive := [];
    var stack := [Frame([], top)];
    while |stack| > 0
      invariant archive + Pending(stack) == Visit([], top)
      decreases StackSize(stack)
    {
      ghost var before, remaining := archive, stack;
      var frame := stack[0];
      stack := stack[1..];
      var root, files := frame.path, frame.folder.files;
      var dirs := frame.folder.subfolders;
      dirs := Kept(dirs);
      archive := WriteFiles(archive, root, files);
      PushChildren(root, dirs, stack);
      calc {
        archive + Pending(Children(root, dirs) + stack);
        before + FilesOf(root, files) + (VisitAll(root, dirs) + Pending(stack));
        { Regroup(before, FilesOf(root, files), VisitAll(root, dirs), Pending(stack)); }
        before + (FilesOf(root, files) + VisitAll(root, dirs)) + Pending(stack);
        before + Visit(root, frame.folder) + Pending(stack);
        { assert remaining[0] == frame && remaining[1..] == stack; }
        before + Pending(remaining);
      }
      assert StackSize(remaining) == Size(frame.folder) + StackSize(stack);
      stack := Children(root, dirs) + stack;
    }
  }

  /** `file` lies in directory f at the relative path `dirs`, reached
      through directories the walk does not prune. */
  ghost predicate Located(f: Folder, dirs: seq<string>, file: string)
    decreases dirs
  {
    if |dirs| == 0 then file in f.files
    else exists sub :: sub in f.subfolders && sub.name == dirs[0] && !Pruned(dirs[0]) && Located(sub, dirs[1..], file)
  }

  /** Entry e belongs below directory f at `path`. */
  ghost predicate InTree(path: seq<string>, f: Folder, e: Entry) {
    && |path| <= |e.dirs| && e.dirs[..|path|] == path
    && Admitted(e.file) && Located(f, e.dirs[|path|..], e.file)
  }

  /** An entry below directory f is one of its own admitted files or lies
      below one of its kept subdirectories. */
  lemma InTreeSplit(path: seq<string>, f: Folder, e: Entry)
    ensures InTree(path, f, e) <==>
              || (e.dirs == path && e.file in f.files && Admitted(e.file))
              || exists sub :: sub in Kept(f.subfolders) && InTree(path + [sub.name], sub, e)
  {
    var kept := Kept(f.subfolders);
    var n := |path|;
    if n < |e.dirs| && e.dirs[..n] == path {
      var rest := e.dirs[n..];
      assert rest[1..] == e.dirs[n + 1..];
      forall sub | sub in kept
        ensures InTree(path + [sub.name], sub, e) <==>
                  sub.name == rest[0] && Admitted(e.file) && Located(sub, rest[1..], e.file)
      {
        if sub.name == rest[0] {
          assert e.dirs[..n + 1] == path + [sub.name];
        } else {
          assert e.dirs[..n + 1][n] != (path + [sub.name])[n];
        }
      }
    } else {
      forall sub | sub in kept ensures !InTree(path + [sub.name], sub, e) {
        if n + 1 <= |e.dirs| {
          assert e.dirs[..n + 1][..n] == e.dirs[..n];
          assert (path + [sub.name])[..n] == path;
        }
      }
      if n == |e.dirs| {
        assert e.dirs[..n] == e.dirs;
      }
    }
  }

  lemma {:induction false} VisitMembers(path: seq<string>, f: Folder, e: Entry)
    ensures e in Visit(path, f) <==> InTree(path, f, e)
    decreases Size(f), 1
  {
    VisitAllMembers(path, Kept(f.subfolders), e);
    InTreeSplit(path, f, e);
  }

  lemma {:induction false} VisitAllMembers(path: seq<string>, fs: seq<Folder>, e: Entry)
    ensures e in VisitAll(path, fs) <==> exists sub :: sub in fs && InTree(path + [sub.name], sub, e)
    decreases SizeAll(fs), 2
  {
    if |fs| > 0 {
      VisitMembers(path + [fs[0].name], fs[0], e);
      VisitAllMembers(path, fs[1..], e);
      assert forall sub :: sub in fs <==> sub == fs[0] || sub in fs[1..];
    }
  }

  /** What ends up in the archive: exactly the admitted files that lie
      below the project root along directories that are not pruned. */
  lemma ArchiveMembership(top: Folder, e: Entry)
    ensures e in Visit([], top) <==> Admitted(e.file) && Located(top, e.dirs, e.file)
  {
    VisitMembers([], top, e);
    assert e.dirs[0..] == e.dirs;
  }

  lemma {:induction false} LocatedAvoidsPruned(f: Folder, dirs: seq<string>, file: string)
    requires Located(f, dirs, file)
    ensures forall k :: 0 <= k < |dirs| ==> !Pruned(dirs[k])
    decreases dirs
  {
    if |dirs| > 0 {
      var sub :| sub in f.subfolders && sub.name == dirs[0] && !Pruned(dirs[0]) && Located(sub, dirs[1..], file);
      LocatedAvoidsPruned(sub, dirs[1..], file);
      assert forall k :: 1 <= k < |dirs| ==> dirs[k] == dirs[1..][k - 1];
    }
  }

  /** Nothing below `__pycache__`, `outputs` or `.git` is archived, at any
      depth, and the archive never contains a file named like itself. */
  lemma ArchiveAvoidsExcluded(top: Folder, e: Entry)
    requires e in Visit([], top)
    ensures forall k :: 0 <= k < |e.dirs| ==> e.dirs[k] !in ExcludedDirs
    ensures e.file != ZipName
  {
    ArchiveMembership(top, e);
    LocatedAvoidsPruned(top, e.dirs, e.file);
  }

  /** A dot with no dot after it is the last dot. */
  lemma {:induction false} LastDotAt(s: string, d: nat)
    requires d < |s| && s[d] == '.' && forall k :: d < k < |s| ==> s[k] != '.'
    ensures LastDot(s) == d
    decreases |s|
  {
    if d < |s| - 1 {
      LastDotAt(s[..|s| - 1], d);
    }
  }

  /** The extension of a name whose last dot sits at d: the name from d on
      when some character before d is not a dot, and none otherwise. */
  lemma ExtensionAt(name: string, d: nat)
    requires d < |name| && name[d] == '.' && forall k :: d < k < |name| ==> name[k] != '.'
    ensures (exists k :: 0 <= k < d && name[k] != '.') ==> Extension(name) == name[d..]
    ensures (forall k :: 0 <= k < d ==> name[k] == '.') ==> Extension(name) == []
  {
    LastDotAt(name, d);
  }

  /** The archive's own name has extension `.zip`, which is not listed, so
      the explicit skip of zip_project.py:15-16 never changes the outcome:
      admission is decided by the extension and name rule alone. */
  lemma ArchiveSkipRedundant(file: string)
    ensures Extension(ZipName) == ".zip"
    ensures Admitted(file) <==> Extension(file) in Extensions || file == ".gitignore"
  {
    var zip := ZipName;
    assert zip[0] != '.';
    ExtensionAt(zip, 18);
    assert zip[18..] == ".zip";
  }

  /** The leading dot of `.gitignore` does not start an extension, so only
      the name clause admits that file. */
  lemma HiddenGitignore()
    ensures Extension(".gitignore") == [] && Admitted(".gitignore")
  {
    ExtensionAt(".gitignore", 0);
  }

  /** `foo.gitignore` is admitted by its extension. */
  lemma SuffixGitignore()
    ensures Extension("foo.gitignore") == ".gitignore" && Admitted("foo.gitignore")
  {
    var named := "foo.gitignore";
    assert named[0] != '.';
    ExtensionAt(named, 3);
    assert named[3..] == ".gitignore";
  }

  /** Extensions are compared case-sensitively. */
  lemma UpperCaseExtension()
    ensures Extension("NOTES.TXT") == ".TXT" && !Admitted("NOTES.TXT")
  {
    var upper := "NOTES.TXT";
    assert upper[0] != '.';
    ExtensionAt(upper, 5);
    assert upper[5..] == ".TXT";
  }

  predicate NoRepeats<T(==)>(s: seq<T>) {
    forall i, j :: 0 <= i < j < |s| ==> s[i] != s[j]
  }

  lemma NoRepeatsConcat<T>(a: seq<T>, b: seq<T>)
    requires NoRepeats(a) && NoRepeats(b) && forall x :: x in a ==> x !in b
    ensures NoRepeats(a + b)
  {
    var c := a + b;
    forall i, j | 0 <= i < j < |c| ensures c[i] != c[j] {
      if j < |a| {
        assert c[i] == a[i] && c[j] == a[j];
      } else if i < |a| {
        assert c[i] == a[i] && a[i] in a && c[j] == b[j - |a|] && b[j - |a|] in b;
      } else {
        assert c[i] == b[i - |a|] && c[j] == b[j - |a|];
      }
    }
  }

  lemma {:induction false} FilesOfNoRepeats(path: seq<string>, files: seq<string>)
    requires NoRepeats(files)
    ensures NoRepeats(FilesOf(path, files))
  {
    if |files| > 0 {
      var init := files[..|files| - 1];
      var last := files[|files| - 1];
      assert NoRepeats(init) by {
        forall i, j | 0 <= i < j < |init| ensures init[i] != init[j] {
          assert init[i] == files[i] && init[j] == files[j];
        }
      }
      FilesOfNoRepeats(path, init);
      assert last !in init by {
        forall k | 0 <= k < |init| ensures init[k] != last {
          assert init[k] == files[k];
        }
      }
      NoRepeatsConcat(FilesOf(path, init), if Admitted(last) then [Entry(path, last)] else []);
    }
  }

  /** No two of the directories fs share a name. */
  predicate DistinctNames(fs: seq<Folder>) {
    forall i, j :: 0 <= i < j < |fs| ==> fs[i].name != fs[j].name
  }

  /** Names are unique within each directory, as in a file system. */
  ghost predicate UniqueNames(f: Folder) {
    && NoRepeats(f.files)
    && DistinctNames(f.subfolders)
    && forall sub :: sub in f.subfolders ==> UniqueNames(sub)
  }

  lemma DistinctNamesTail(fs: seq<Folder>)
    requires |fs| > 0 && DistinctNames(fs)
    ensures DistinctNames(fs[1..])
    ensures forall x :: x in fs[1..] ==> x.name != fs[0].name
  {
    var tail := fs[1..];
    forall i, j | 0 <= i < j < |tail| ensures tail[i].name != tail[j].name {
      assert tail[i] == fs[i + 1] && tail[j] == fs[j + 1];
    }
    forall x | x in tail ensures x.name != fs[0].name {
      var k :| 0 <= k < |tail| && tail[k] == x;
      assert fs[k + 1] == x;
    }
  }

  lemma DistinctNamesCons(x: Folder, rest: seq<Folder>)
    requires DistinctNames(rest) && forall y :: y in rest ==> y.name != x.name
    ensures DistinctNames([x] + rest)
  {
    var s := [x] + rest;
    forall i, j | 0 <= i < j < |s| ensures s[i].name != s[j].name {
      assert s[j] == rest[j - 1] && rest[j - 1] in rest;
      if i > 0 {
        assert s[i] == rest[i - 1];
      }
    }
  }

  /** Pruning keeps the names of the remaining directories distinct. */
  lemma {:induction false} KeptUniqueNames(fs: seq<Folder>)
    requires DistinctNames(fs)
    ensures DistinctNames(Kept(fs))
  {
    if |fs| > 0 {
      DistinctNamesTail(fs);
      KeptUniqueNames(fs[1..]);
      if !Pruned(fs[0].name) {
        DistinctNamesCons(fs[0], Kept(fs[1..]));
      }
    }
  }

  /** In a tree with unique names each admitted file is written once. */
  lemma {:induction false} VisitNoRepeats(path: seq<string>, f: Folder)
    requires UniqueNames(f)
    ensures NoRepeats(Visit(path, f))
    decreases Size(f), 1
  {
    var kept := Kept(f.subfolders);
    KeptUniqueNames(f.subfolders);
    FilesOfNoRepeats(path, f.files);
    assert forall sub :: sub in kept ==> sub in f.subfolders;
    VisitAllNoRepeats(path, kept);
    forall e | e in FilesOf(path, f.files) ensures e !in VisitAll(path, kept) {
      VisitAllMembers(path, kept, e);
    }
    NoRepeatsConcat(FilesOf(path, f.files), VisitAll(path, kept));
  }

  lemma {:induction false} VisitAllNoRepeats(path: seq<string>, fs: seq<Folder>)
    requires DistinctNames(fs)
    requires forall sub :: sub in fs ==> UniqueNames(sub)
    ensures NoRepeats(VisitAll(path, fs))
    decreases SizeAll(fs), 2
  {
    if |fs| > 0 {
      var head := Visit(path + [fs[0].name], fs[0]);
      VisitNoRepeats(path + [fs[0].name], fs[0]);
      DistinctNamesTail(fs);
      VisitAllNoRepeats(path, fs[1..]);
      forall e | e in head ensures e !in VisitAll(path, fs[1..]) {
        VisitMembers(path + [fs[0].name], fs[0], e);
        VisitAllMembers(path, fs[1..], e);
        var n := |path|;
        assert e.dirs[..n + 1] == path + [fs[0].name];
        assert e.dirs[n] == e.dirs[..n + 1][n];
        forall sub | sub in fs[1..] ensures !InTree(path + [sub.name], sub, e) {
          assert (path + [sub.name])[n] != e.dirs[n];
        }
      }
      NoRepeatsConcat(head, VisitAll(path, fs[1..]));
    }
  }

  /** The archive names every admitted file once: nothing is written
      twice. */
  lemma ArchiveWrittenOnce(top: Folder)
    requires UniqueNames(top)
    ensures NoRepeats(Visit([], top))
  {
    VisitNoRepeats([], top);
  }
}
