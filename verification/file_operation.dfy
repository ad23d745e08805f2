/**
 `FileOpt`: list the files of a directory whose names fit `prefix*suffix`, and
 pick the one with the latest `os.path.getctime` (on POSIX the time of the last
 status change, on Windows the creation time). The directory listings and these
 ctimes are given as data instead of being read from the operating system.
 */
module FileOperation {
  import opened Outcomes
  import Fnmatch

  /** `FileOpt(p)`: `dir` is the default directory. */
  datatype FileOpt = FileOpt(dir: string)

  /** What the operating system, the pattern concatenation and `max` raise. */
  datatype FsError =
    | NoSuchPath(path: string)  // `os.listdir` or `os.path.getctime` on a missing path
    | TypeError                 // `prefix + '*' + suffix` with `prefix` or `suffix` None
    | EmptySequence             // `max()` of no candidates

  /** The file system as `FileOpt` sees it: each directory's entries in
      `os.listdir` order, and each path's ctime. */
  datatype FileSystem = FileSystem(listings: map<string, seq<string>>, ctimes: map<string, int>)

  /** Directory entries are bare names: none contains a `/`. */
  predicate BareNames(names: seq<string>) {
    forall i | 0 <= i < |names| :: '/' !in names[i]
  }

  /** The directory searched: `folder` unless it is the empty string. Python's
      `None` is not the empty string, so it reaches `os.listdir(None)`, which lists
      the current working directory, `.`. */
  function CheckPath(opt: FileOpt, folder: Option<string>): (p: string)
    ensures folder == None ==> p == "."
    ensures folder == Some("") ==> p == opt.dir
    ensures folder.Some? && folder.value != "" ==> p == folder.value
  {
    match folder
    case None => "."
    case Some(f) => if f != "" then f else opt.dir
  }

  /** `fnmatch.fnmatch(name, prefix + '*' + suffix)`. */
  predicate Wanted(name: string, prefix: string, suffix: string) {
    Fnmatch.Match(name, prefix + "*" + suffix)
  }

  /** The wanted entries of a listing, in listing order. */
  function Filter(names: seq<string>, prefix: string, suffix: string): (r: seq<string>)
    ensures |r| <= |names|
    ensures forall x | x in r :: x in names && Wanted(x, prefix, suffix)
    ensures forall x | x in names && Wanted(x, prefix, suffix) :: x in r
    decreases |names|
  {
    if |names| == 0 then []
    else
      var init := Filter(names[..|names| - 1], prefix, suffix);
      var last := names[|names| - 1];
      assert forall x | x in names[..|names| - 1] :: x in names;
      assert forall x | x in names :: x in names[..|names| - 1] || x == last;
      if Wanted(last, prefix, suffix) then init + [last] else init
  }

  /** `xs` is `ys` with some entries dropped and the rest kept in order. */
  predicate IsSubsequence(xs: seq<string>, ys: seq<string>)
    decreases |ys|
  {
    if |xs| == 0 then true
    else if |ys| == 0 then false
    else if xs[|xs| - 1] == ys[|ys| - 1] then IsSubsequence(xs[..|xs| - 1], ys[..|ys| - 1])
    else IsSubsequence(xs, ys[..|ys| - 1])
  }

  /** The matched files keep the listing's order. */
  lemma {:induction false} FilterIsSubsequence(names: seq<string>, prefix: string, suffix: string)
    ensures IsSubsequence(Filter(names, prefix, suffix), names)
    decreases |names|
  {
    if |names| > 0 {
      var init := names[..|names| - 1];
      var last := names[|names| - 1];
      var f := Filter(init, prefix, suffix);
      FilterIsSubsequence(init, prefix, suffix);
      if Wanted(last, prefix, suffix) {
        assert Filter(names, prefix, suffix) == f + [last];
        assert (f + [last])[..|f|] == f;
      } else {
        assert Filter(names, prefix, suffix) == f;
        if |f| > 0 {
          assert f[|f| - 1] in f;
        }
      }
    }
  }

  /** With a literal prefix and suffix a name is kept exactly when it starts with
      the prefix, ends with the suffix, and is at least as long as both together. */
  lemma FilterLiteral(names: seq<string>, prefix: string, suffix: string, x: string)
    requires '*' !in prefix && '*' !in suffix
    ensures x in Filter(names, prefix, suffix) <==>
              && x in names
              && |x| >= |prefix| + |suffix|
              && x[..|prefix|] == prefix
              && x[|x| - |suffix|..] == suffix
  {
    Fnmatch.WildcardMatch(x, prefix, suffix);
  }

  /** With no prefix and no suffix the pattern is `*`: every entry is kept. */
  lemma {:induction false} FilterEverything(names: seq<string>)
    ensures Filter(names, "", "") == names
    decreases |names|
  {
    if |names| > 0 {
      var last := names[|names| - 1];
      FilterEverything(names[..|names| - 1]);
      assert "" + "*" + "" == "*";
      Fnmatch.StarMatchesAll(last);
      assert names[..|names| - 1] + [last] == names;
    }
  }

  /** `find_files_by_wildcard`: the loop over `os.listdir(check_path)`. A `None`
      prefix or suffix makes the pattern concatenation raise on the first entry,
      so an empty listing still gives no matches. */
  method FindFilesByWildcard(opt: FileOpt, fs: FileSystem, folder: Option<string> := Some(""),
                             prefix: Option<string> := Some(""), suffix: Option<string> := Some(""))
    returns (r: Result<seq<string>, FsError>)
    ensures CheckPath(opt, folder) !in fs.listings ==> r == Err(NoSuchPath(CheckPath(opt, folder)))
    ensures CheckPath(opt, folder) in fs.listings && (prefix.None? || suffix.None?) ==>
              r == (if |fs.listings[CheckPath(opt, folder)]| > 0 then Err(TypeError) else Ok([]))
    ensures CheckPath(opt, folder) in fs.listings && prefix.Some? && suffix.Some? ==>
              r == Ok(Filter(fs.listings[CheckPath(opt, folder)], prefix.value, suffix.value))
  {
    var checkPath := CheckPath(opt, folder);
    if checkPath !in fs.listings {
      return Err(NoSuchPath(checkPath));
    }
    var fileList := fs.listings[checkPath];
    var matched: seq<string> := [];
    var i := 0;
    while i < |fileList|
      invariant 0 <= i <= |fileList|
      invariant prefix.None? || suffix.None? ==> i == 0 && matched == []
      invariant prefix.Some? && suffix.Some? ==> matched == Filter(fileList[..i], prefix.value, suffix.value)
    {
      if prefix.None? || suffix.None? {
        return Err(TypeError);
      }
      assert fileList[..i + 1][..i] == fileList[..i];
      if Wanted(fileList[i], prefix.value, suffix.value) {
        matched := matched + [fileList[i]];
      }
      i := i + 1;
    }
    if prefix.Some? && suffix.Some? {
      assert fileList[..|fileList|] == fileList;
    }
    return Ok(matched);
  }

  /** `[self.dir + '/' + i for i in file_list]`: always under the default
      directory, even when another `folder` was searched. */
  function Candidates(dir: string, names: seq<string>): (r: seq<string>)
    ensures |r| == |names|
    ensures forall i | 0 <= i < |names| :: r[i] == dir + "/" + names[i]
  {
    seq(|names|, i requires 0 <= i < |names| => dir + "/" + names[i])
  }

  /** `k` is what `max(paths, key=getctime)` picks: every path has a ctime,
      none is later than `paths[k]`, and all before `k` are earlier. */
  ghost predicate IsLatest(paths: seq<string>, ctimes: map<string, int>, k: nat) {
    && k < |paths|
    && (forall j | 0 <= j < |paths| :: paths[j] in ctimes)
    && (forall j | 0 <= j < |paths| :: ctimes[paths[j]] <= ctimes[paths[k]])
    && (forall j | 0 <= j < k :: ctimes[paths[j]] < ctimes[paths[k]])
  }

  /** Ties go to the first: at most one index is the latest. */
  lemma LatestIsUnique(paths: seq<string>, ctimes: map<string, int>, k1: nat, k2: nat)
    requires IsLatest(paths, ctimes, k1) && IsLatest(paths, ctimes, k2)
    ensures k1 == k2
  {
    assert ctimes[paths[k1]] == ctimes[paths[k2]];
  }

  /** `max(paths, key=os.path.getctime)`: the index of the chosen path. The key
      is taken in order, so the first path without a ctime raises;
      no paths at all raises too. */
  method MaxByCtime(paths: seq<string>, ctimes: map<string, int>) returns (r: Result<nat, FsError>)
    ensures |paths| == 0 ==> r == Err(EmptySequence)
    ensures r.Ok? ==> IsLatest(paths, ctimes, r.value)
    ensures r.Err? && |paths| > 0 ==>
              exists k | 0 <= k < |paths| ::
                && r.error == NoSuchPath(paths[k])
                && paths[k] !in ctimes
                && forall j | 0 <= j < k :: paths[j] in ctimes
    ensures (forall j | 0 <= j < |paths| :: paths[j] in ctimes) && |paths| > 0 ==> r.Ok?
  {
    if |paths| == 0 {
      return Err(EmptySequence);
    }
    if paths[0] !in ctimes {
      return Err(NoSuchPath(paths[0]));
    }
    var best := 0;
    var i := 1;
    while i < |paths|
      invariant 1 <= i <= |paths|
      invariant 0 <= best < i
      invariant forall j | 0 <= j < i :: paths[j] in ctimes
      invariant forall j | 0 <= j < i :: ctimes[paths[j]] <= ctimes[paths[best]]
      invariant forall j | 0 <= j < best :: ctimes[paths[j]] < ctimes[paths[best]]
    {
      if paths[i] !in ctimes {
        return Err(NoSuchPath(paths[i]));
      }
      if ctimes[paths[i]] > ctimes[paths[best]] {
        best := i;
      }
      i := i + 1;
    }
    return Ok(best);
  }

  /** `os.path.basename`: the text after the last `/`. */
  function Basename(p: string): (b: string)
    ensures '/' !in b
    ensures |b| <= |p| && p[|p| - |b|..] == b
    ensures |b| < |p| ==> p[|p| - |b| - 1] == '/'
    decreases |p|
  {
    if |p| == 0 || p[|p| - 1] == '/' then ""
    else Basename(p[..|p| - 1]) + [p[|p| - 1]]
  }

  /** The basename of a candidate path is the directory entry it was built from. */
  lemma {:induction false} BasenameOfCandidate(dir: string, name: string)
    requires '/' !in name
    ensures Basename(dir + "/" + name) == name
    decreases |name|
  {
    var p := dir + "/" + name;
    if |name| == 0 {
      assert p[|p| - 1] == '/';
    } else {
      var init, last := name[..|name| - 1], name[|name| - 1];
      assert name == init + [last];
      assert last in name;
      assert forall c | c in init :: c in name;
      assert p == (dir + "/" + init) + [last];
      assert p[..|p| - 1] == dir + "/" + init;
      BasenameOfCandidate(dir, init);
    }
  }

  /** `find_latest_file`. */
  method FindLatestFile(opt: FileOpt, fs: FileSystem, folder: Option<string> := Some(""),
                        prefix: Option<string> := Some(""), suffix: Option<string> := Some(""),
                        filenameOnly: bool := false)
    returns (r: Result<string, FsError>)
    ensures CheckPath(opt, folder) !in fs.listings ==> r == Err(NoSuchPath(CheckPath(opt, folder)))
    ensures CheckPath(opt, folder) in fs.listings && (prefix.None? || suffix.None?) ==>
              r == Err(if |fs.listings[CheckPath(opt, folder)]| > 0 then TypeError else EmptySequence)
    ensures CheckPath(opt, folder) in fs.listings && prefix.Some? && suffix.Some? ==>
              var names := Filter(fs.listings[CheckPath(opt, folder)], prefix.value, suffix.value);
              var paths := Candidates(opt.dir, names);
              && (|names| == 0 ==> r == Err(EmptySequence))
              && ((forall j | 0 <= j < |paths| :: paths[j] in fs.ctimes) && |names| > 0 ==> r.Ok?)
              && (r.Ok? ==>
                    exists k: nat | IsLatest(paths, fs.ctimes, k) ::
                      && r.value == (if filenameOnly then Basename(paths[k]) else paths[k])
                      && (filenameOnly && BareNames(fs.listings[CheckPath(opt, folder)]) ==>
                            r.value == names[k]))
    ensures r.Ok? ==> CheckPath(opt, folder) in fs.listings
  {
    var files :- FindFilesByWildcard(opt, fs, folder, prefix, suffix);
    var a := Candidates(opt.dir, files);
    var k :- MaxByCtime(a, fs.ctimes);
    var latest := a[k];
    if filenameOnly {
      var listing := fs.listings[CheckPath(opt, folder)];
      if BareNames(listing) {
        assert files[k] in files;
        assert files[k] in listing;
        BasenameOfCandidate(opt.dir, files[k]);
      }
      r := Ok(Basename(latest));
    } else {
      r := Ok(latest);
    }
  }
}
