/** reproducibility_methods/generate_command_line.py: rebuilding the recorded
    command so that it runs against the crate. Flags are dropped, value
    tokens are resolved through the results and the crate's file names,
    path tokens are mapped into the sub-directory's Result folder when they
    name a result and through the address mapper otherwise, and the
    launcher is chosen by whether SLURM is available. */
module CommandLine {
  import opened Common
  import opened Paths
  import opened Dicts
  import opened FileSystems
  import opened Tokens
  import opened Catalog
  import opened UtilsR
  import opened AddressMapper

  // commonsuffix

  /** x is the longest common suffix of a and b. */
  predicate LongestCommonSuffix(x: string, a: string, b: string) {
    EndsWith(a, x) && EndsWith(b, x)
    && (|x| == |a| || |x| == |b| || a[|a| - |x| - 1] != b[|b| - |x| - 1])
  }

  /** Two strings have one longest common suffix. */
  lemma {:induction false} LongestCommonSuffixUnique(x: string, y: string, a: string, b: string)
    requires LongestCommonSuffix(x, a, b) && LongestCommonSuffix(y, a, b)
    ensures x == y
  {
    assert |x| == |y|;
    assert x == a[|a| - |x|..] == y;
  }

  /** commonsuffix(path1, path2): the last directory component the two
      paths' parent directories share, computed on reversed strings. */
  function CommonSuffix(path1: string, path2: string): Option<string> {
    SuffixComponent(path1, Dirname(path1), Dirname(path2))
  }

  /** The body of commonsuffix once the parent directories a and b are
      taken: their reversed common prefix, reversed, kept when it is a
      component of path1. */
  function SuffixComponent(path1: string, a: string, b: string): Option<string> {
    var s := Reverse(CommonPrefix(Reverse(a), Reverse(b)));
    if s in Split(path1, '/') then Some(Basename(s)) else None
  }

  /** commonsuffix answers the longest common suffix of the two parent
      directories when that suffix is a whole component of path1, and None
      otherwise. */
  lemma {:induction false} CommonSuffixSpec(path1: string, path2: string, x: string)
    requires LongestCommonSuffix(x, Dirname(path1), Dirname(path2))
    ensures CommonSuffix(path1, path2) == if x in Split(path1, '/') then Some(x) else None
  {
    SuffixComponentSpec(path1, Dirname(path1), Dirname(path2), x);
  }

  lemma {:induction false} SuffixComponentSpec(path1: string, a: string, b: string, x: string)
    requires LongestCommonSuffix(x, a, b)
    ensures SuffixComponent(path1, a, b) == if x in Split(path1, '/') then Some(x) else None
  {
    var s := Reverse(CommonPrefix(Reverse(a), Reverse(b)));
    ReversedCommonPrefixIsSuffix(a, b);
    LongestCommonSuffixUnique(s, x, a, b);
    if x in Split(path1, '/') {
      ComponentPlain(path1, x);
      BasenameOfPlain(x);
    }
  }

  /** A component of a split has no separator. */
  lemma {:induction false} ComponentPlain(p: string, x: string)
    requires x in Split(p, '/')
    ensures '/' !in x
  {
    var k :| 0 <= k < |Split(p, '/')| && Split(p, '/')[k] == x;
  }

  /** The longest common suffix comes out of the reversed common prefix. */
  lemma {:induction false} CommonSuffixExists(a: string, b: string)
    ensures LongestCommonSuffix(Reverse(CommonPrefix(Reverse(a), Reverse(b))), a, b)
  {
    ReversedCommonPrefixIsSuffix(a, b);
  }

  // is_result

  /** The Result folder of a sub-directory. */
  function ResultDir(sub: string): string {
    PathJoin(sub, "Result")
  }

  /** The first truthy answer of f on the elements of xs, in order. */
  function FirstTruthy(f: string -> Option<string>, xs: seq<string>): Option<string>
    decreases |xs|
  {
    if |xs| == 0 then None
    else if Truthy(f(xs[0])) then f(xs[0])
    else FirstTruthy(f, xs[1..])
  }

  lemma {:induction false} FirstTruthySound(f: string -> Option<string>, xs: seq<string>)
    ensures var r := FirstTruthy(f, xs);
      (r.Some? ==> r.value != "" && exists i :: 0 <= i < |xs| && f(xs[i]) == r)
      && (r.None? ==> forall i :: 0 <= i < |xs| ==> !Truthy(f(xs[i])))
    decreases |xs|
  {
    if |xs| > 0 && !Truthy(f(xs[0])) {
      var rest := xs[1..];
      FirstTruthySound(f, rest);
      var r := FirstTruthy(f, rest);
      if r.Some? {
        var i :| 0 <= i < |rest| && f(rest[i]) == r;
        assert xs[i + 1] == rest[i];
      } else {
        forall i | 0 < i < |xs| ensures !Truthy(f(xs[i])) {
          assert xs[i] == rest[i - 1];
        }
      }
    }
  }

  /** The scan, one element at a time. */
  lemma {:induction false} FirstTruthyStep(f: string -> Option<string>, xs: seq<string>, i: nat)
    requires i < |xs|
    ensures FirstTruthy(f, xs[i..]) == if Truthy(f(xs[i])) then f(xs[i]) else FirstTruthy(f, xs[i + 1..])
  {
    assert xs[i..][0] == xs[i];
    assert xs[i..][1..] == xs[i + 1..];
  }

  /** The first truthy commonsuffix of filepath with one of the ids. */
  function FirstSuffix(filepath: string, ids: seq<string>): Option<string> {
    FirstTruthy(p => CommonSuffix(filepath, p), ids)
  }

  /** The segment found is non-empty and comes from some result id; None
      means that no id gives a truthy segment. */
  lemma {:induction false} FirstSuffixSound(filepath: string, ids: seq<string>)
    ensures var r := FirstSuffix(filepath, ids);
      (r.Some? ==> r.value != "" && exists i :: 0 <= i < |ids| && CommonSuffix(filepath, ids[i]) == r)
      && (r.None? ==> forall i :: 0 <= i < |ids| ==> !Truthy(CommonSuffix(filepath, ids[i])))
  {
    var f := p => CommonSuffix(filepath, p);
    FirstTruthySound(f, ids);
    var r := FirstSuffix(filepath, ids);
    if r.Some? {
      var i :| 0 <= i < |ids| && f(ids[i]) == r;
      assert CommonSuffix(filepath, ids[i]) == r;
    }
  }

  /** is_result(filepath, results_dict, sub_directory_path) with the disk it
      leaves: the mapped result, None when filepath names no result, or the
      error of a None results dict. It creates the Result folder, and at
      most the one result directory it answers, and nothing else. */
  function IsResultSpec(d: Disk, filepath: string, results: Option<Dict<string, string>>,
                        sub: string): (r: (Result<Option<string>>, Disk))
    ensures Exists(r.1, ResultDir(sub))
    ensures r.1.entries == d.entries + {ResultDir(sub)}
      + (if r.0.Ok? && r.0.value.Some? && Basename(filepath) == "" then {r.0.value.value} else {})
  {
    var rp := ResultDir(sub);
    var d1 := WithDir(d, rp);
    var b := Basename(filepath);
    if b != "" then
      if results.None? then (Err(TypeError), d1)
      else if HasKey(results.value, b) then (Ok(Some(PathJoin(rp, b))), d1)
      else (Ok(None), d1)
    else if results.None? then (Err(AttributeError), d1)
    else
      var seg := FirstSuffix(filepath, Values(results.value));
      if seg.Some? then
        var dir := PathJoin(rp, seg.value + "/");
        (Ok(Some(dir)), WithDir(d1, dir))
      else (Ok(None), d1)
  }

  /** is_result(filepath, results_dict, sub_directory_path). The loop over
      the results dict is FindSegment; the directory of the segment it
      finds is created as the loop's first truthy iteration does. */
  method IsResult(fs: FileSystem, filepath: string, results: Option<Dict<string, string>>, sub: string)
    returns (r: Result<Option<string>>)
    modifies fs
    ensures (r, fs.disk) == IsResultSpec(old(fs.disk), filepath, results, sub)
  {
    var rp := ResultDir(sub);
    if !Exists(fs.disk, rp) {
      fs.MakeDir(rp);
    }
    var b := Basename(filepath);
    if b != "" {
      if results.None? {
        return Err(TypeError);
      }
      if HasKey(results.value, b) {
        return Ok(Some(PathJoin(rp, b)));
      }
    } else {
      if results.None? {
        return Err(AttributeError);
      }
      var seg := FindSegment(filepath, results.value);
      if seg.Some? {
        var s := seg.value + "/";
        if !Exists(fs.disk, PathJoin(rp, s)) {
          fs.MakeDir(PathJoin(rp, s));
        }
        return Ok(Some(PathJoin(rp, s)));
      }
    }
    return Ok(None);
  }

  /** The loop of is_result over the results dict: the first truthy
      commonsuffix of filepath with a result id. */
  method FindSegment(filepath: string, items: Dict<string, string>) returns (seg: Option<string>)
    ensures seg == FirstSuffix(filepath, Values(items))
  {
    ghost var ids := Values(items);
    var i := 0;
    while i < |items|
      invariant 0 <= i <= |items|
      invariant FirstSuffix(filepath, ids[i..]) == FirstSuffix(filepath, ids)
      decreases |items| - i
    {
      FirstTruthyStep(p => CommonSuffix(filepath, p), ids, i);
      assert items[i].1 == ids[i];
      seg := CommonSuffix(filepath, items[i].1);
      if Truthy(seg) {
        return;
      }
      i := i + 1;
    }
    assert ids[i..] == [];
    return None;
  }

  /** A file path names a result exactly when its basename is a result
      name, and it is then mapped onto a file of that name in the Result
      folder. */
  lemma {:induction false} IsResultFile(d: Disk, filepath: string, results: Option<Dict<string, string>>,
                                        sub: string)
    requires Basename(filepath) != "" && results.Some?
    ensures var r := IsResultSpec(d, filepath, results, sub).0;
      r.Ok? && (r.value.Some? <==> HasKey(results.value, Basename(filepath)))
      && (r.value.Some? ==> Basename(r.value.value) == Basename(filepath)
                            && StartsWith(r.value.value, ResultDir(sub)))
  {
    var b := Basename(filepath);
    PathJoinBasename(ResultDir(sub), b);
  }

  /** Result id i of the dict and the component seg of filepath match:
      seg is the longest common suffix of their parent directories. */
  predicate ResultMatch(filepath: string, results: Dict<string, string>, seg: string, i: int) {
    0 <= i < |results| && seg != "" && seg in Split(filepath, '/')
    && LongestCommonSuffix(seg, Dirname(filepath), Dirname(results[i].1))
  }

  /** A directory path names a result when the parent directories of the
      path and of some result id end in the same component of the path; it
      is then mapped onto a directory of that name, which exists
      afterwards. */
  lemma {:induction false} IsResultDirectory(d: Disk, filepath: string, results: Option<Dict<string, string>>,
                                             sub: string)
    requires Basename(filepath) == "" && results.Some?
    ensures IsResultSpec(d, filepath, results, sub).0.Ok?
    ensures var (r, d') := IsResultSpec(d, filepath, results, sub);
      r.value.Some? ==>
        Exists(d', r.value.value)
        && exists seg, i :: ResultMatch(filepath, results.value, seg, i)
                            && r.value.value == PathJoin(ResultDir(sub), seg + "/")
  {
    var ids := Values(results.value);
    var rp := ResultDir(sub);
    var d1 := WithDir(d, rp);
    var seg := FirstSuffix(filepath, ids);
    FirstSuffixSound(filepath, ids);
    if seg.Some? {
      var dir := PathJoin(rp, seg.value + "/");
      assert IsResultSpec(d, filepath, results, sub) == (Ok(Some(dir)), WithDir(d1, dir));
      var i :| 0 <= i < |ids| && CommonSuffix(filepath, ids[i]) == seg;
      var x := Reverse(CommonPrefix(Reverse(Dirname(filepath)), Reverse(Dirname(ids[i]))));
      CommonSuffixExists(Dirname(filepath), Dirname(ids[i]));
      CommonSuffixSpec(filepath, ids[i], x);
      assert results.value[i].1 == ids[i];
      assert ResultMatch(filepath, results.value, seg.value, i);
    } else {
      assert IsResultSpec(d, filepath, results, sub) == (Ok(None), d1);
    }
  }

  // The classification loop of command_line_generator

  /** The file-name dicts of the crate's categories and the results dict. */
  datatype Catalogs = Catalogs(
    filesA: Dict<string, string>,
    filesD: Dict<string, string>,
    filesR: Dict<string, string>,
    results: Option<Dict<string, string>>)

  /** `results_dict and cmd in results_dict` */
  predicate IsResultName(cmd: string, results: Option<Dict<string, string>>) {
    results.Some? && |results.value| > 0 && HasKey(results.value, cmd)
  }

  /** The replacement of a value token: a result name goes to the Result
      folder, then the remote dataset (when the run had one), the
      application sources and the dataset are searched for a file of that
      name, and any other token is kept. */
  function ResolveValue(cmd: string, c: Catalogs, remoteFlag: bool, sub: string): string {
    if IsResultName(cmd, c.results) then PathJoin(ResultDir(sub), cmd)
    else if remoteFlag && HasKey(c.filesR, cmd) then Get(c.filesR, cmd).value
    else if HasKey(c.filesA, cmd) then Get(c.filesA, cmd).value
    else if HasKey(c.filesD, cmd) then Get(c.filesD, cmd).value
    else cmd
  }

  /** The file-name dict get_file_names builds for a folder. */
  function FileNames(d: Disk, folder: string): Dict<string, string> {
    FromPairs(WalkPairs(Walk(d, folder)))
  }

  /** A non-empty value token is replaced by a path to a file of the same
      name, or kept. */
  lemma {:induction false} ResolveKeepsName(cmd: string, d: Disk, crate: string,
                                            results: Option<Dict<string, string>>, remoteFlag: bool, sub: string)
    requires KindOf(cmd) == ValueToken && cmd != ""
    ensures var c := Catalogs(FileNames(d, PathJoin(crate, "application_sources")),
                              FileNames(d, PathJoin(crate, "dataset")),
                              FileNames(d, PathJoin(crate, "remote_dataset")), results);
      Basename(ResolveValue(cmd, c, remoteFlag, sub)) == cmd
  {
    assert '/' !in cmd;
    FileNamesLookup(Walk(d, PathJoin(crate, "application_sources")), cmd);
    FileNamesLookup(Walk(d, PathJoin(crate, "dataset")), cmd);
    FileNamesLookup(Walk(d, PathJoin(crate, "remote_dataset")), cmd);
    PathJoinBasename(ResultDir(sub), cmd);
    BasenameOfPlain(cmd);
  }

  /** The resolved texts of the value tokens, in order. */
  function ResolvedValues(vs: seq<Tagged>, c: Catalogs, remoteFlag: bool, sub: string): (r: seq<string>)
    ensures |r| == |vs|
  {
    seq(|vs|, m requires 0 <= m < |vs| => ResolveValue(vs[m].text, c, remoteFlag, sub))
  }

  /** Some value token names a result, so the loop creates the Result folder. */
  predicate AnyResultValue(t: seq<string>, results: Option<Dict<string, string>>) {
    exists i :: 0 <= i < |t| && KindOf(t[i]) == ValueToken && IsResultName(t[i], results)
  }

  /** A value token names a result within t[..i + 1] exactly when one does
      within t[..i] or token i is such a token. */
  lemma {:induction false} AnyResultValueSnoc(t: seq<string>, i: nat, results: Option<Dict<string, string>>)
    requires i < |t|
    ensures AnyResultValue(t[..i + 1], results) <==>
      AnyResultValue(t[..i], results) || (KindOf(t[i]) == ValueToken && IsResultName(t[i], results))
  {
    var pre, pre' := t[..i], t[..i + 1];
    if AnyResultValue(pre', results) {
      var j :| 0 <= j < i + 1 && KindOf(pre'[j]) == ValueToken && IsResultName(pre'[j], results);
      if j < i {
        assert pre[j] == pre'[j];
      }
    }
    if AnyResultValue(pre, results) {
      var j :| 0 <= j < i && KindOf(pre[j]) == ValueToken && IsResultName(pre[j], results);
      assert pre'[j] == pre[j];
    }
  }

  /** The disk after the classification loop. */
  function ClassifyDisk(d: Disk, t: seq<string>, results: Option<Dict<string, string>>, sub: string): Disk {
    if AnyResultValue(t, results) then WithDir(d, ResultDir(sub)) else d
  }

  /** The classification loop: the path tokens with their positions, the
      resolved value tokens with theirs, and the Result folder created as
      soon as a value token names a result. */
  method Classify(fs: FileSystem, t: seq<string>, c: Catalogs, remoteFlag: bool, sub: string)
    returns (paths: seq<Tagged>, values: seq<Tagged>)
    modifies fs
    ensures paths == SelectFrom(t, 0, PathToken)
    ensures values == Retag(ResolvedValues(SelectFrom(t, 0, ValueToken), c, remoteFlag, sub),
                            SelectFrom(t, 0, ValueToken))
    ensures fs.disk == ClassifyDisk(old(fs.disk), t, c.results, sub)
  {
    ghost var d0 := fs.disk;
    paths, values := [], [];
    var i := 0;
    while i < |t|
      invariant 0 <= i <= |t|
      invariant paths == SelectFrom(t[..i], 0, PathToken)
      invariant |values| == |SelectFrom(t[..i], 0, ValueToken)|
      invariant forall m :: 0 <= m < |values| ==>
        values[m] == Tagged(ResolveValue(SelectFrom(t[..i], 0, ValueToken)[m].text, c, remoteFlag, sub),
                            SelectFrom(t[..i], 0, ValueToken)[m].index)
      invariant fs.disk == ClassifyDisk(d0, t[..i], c.results, sub)
      decreases |t| - i
    {
      var cmd := t[i];
      SelectSnoc(t, i, PathToken);
      SelectSnoc(t, i, ValueToken);
      AnyResultValueSnoc(t, i, c.results);
      if KindOf(cmd) == Flag || KindOf(cmd) == Provenance {
      } else if KindOf(cmd) == PathToken {
        paths := paths + [Tagged(cmd, i)];
      } else {
        if IsResultName(cmd, c.results) {
          var rp := ResultDir(sub);
          if !Exists(fs.disk, rp) {
            fs.MakeDir(rp);
          }
        }
        values := values + [Tagged(ResolveValue(cmd, c, remoteFlag, sub), i)];
      }
      i := i + 1;
    }
    assert t[..i] == t;
    var vs := SelectFrom(t, 0, ValueToken);
    forall m | 0 <= m < |vs|
      ensures Retag(ResolvedValues(vs, c, remoteFlag, sub), vs)[m] == values[m]
    {
      RetagAt(ResolvedValues(vs, c, remoteFlag, sub), vs, m);
    }
  }

  // The path loop of command_line_generator

  /** What address_converter needs besides the token: the crate path, the
      names listed in each category and the dataset flags. */
  datatype Mapping = Mapping(crate: string, dataset: NameSet, app: NameSet, remote: NameSet,
                             flags: (bool, bool))

  /** One path token: its result mapping when it names a result, its
      address conversion otherwise. */
  function RewriteOne(d: Disk, p: string, m: Mapping, results: Option<Dict<string, string>>,
                      sub: string): (Result<string>, Disk)
  {
    var (r, d1) := IsResultSpec(d, p, results, sub);
    if r.Err? then (Err(r.error), d1)
    else if Truthy(r.value) then (Ok(r.value.value), d1)
    else (ConvertSpec(d1, m.crate, p, m.dataset, m.app, m.remote, m.flags), d1)
  }

  /** The path loop from token i on, after the mappings acc of the tokens
      before it: the first error stops it. */
  function RewriteFrom(d: Disk, ps: seq<string>, i: nat, acc: seq<string>, m: Mapping,
                       results: Option<Dict<string, string>>, sub: string): (r: (Result<seq<string>>, Disk))
    requires i <= |ps|
    ensures r.0.Ok? ==> |r.0.value| == |acc| + |ps| - i
    decreases |ps| - i
  {
    if i == |ps| then (Ok(acc), d)
    else
      var (r0, d1) := RewriteOne(d, ps[i], m, results, sub);
      if r0.Err? then (Err(r0.error), d1)
      else RewriteFrom(d1, ps, i + 1, acc + [r0.value], m, results, sub)
  }

  lemma {:induction false} RewriteFromOk(d: Disk, ps: seq<string>, i: nat, acc: seq<string>, m: Mapping,
                                         results: Option<Dict<string, string>>, sub: string, x: string, d1: Disk)
    requires i < |ps| && RewriteOne(d, ps[i], m, results, sub) == (Ok(x), d1)
    ensures RewriteFrom(d, ps, i, acc, m, results, sub) == RewriteFrom(d1, ps, i + 1, acc + [x], m, results, sub)
  {
  }

  lemma {:induction false} RewriteFromErr(d: Disk, ps: seq<string>, i: nat, acc: seq<string>, m: Mapping,
                                          results: Option<Dict<string, string>>, sub: string, e: Error, d1: Disk)
    requires i < |ps| && RewriteOne(d, ps[i], m, results, sub) == (Err(e), d1)
    ensures RewriteFrom(d, ps, i, acc, m, results, sub) == (Err(e), d1)
  {
  }

  /** One iteration of the path loop. */
  method RewriteToken(fs: FileSystem, p: string, m: Mapping, results: Option<Dict<string, string>>,
                      sub: string) returns (r: Result<string>)
    modifies fs
    ensures (r, fs.disk) == RewriteOne(old(fs.disk), p, m, results, sub)
  {
    var pathr := IsResult(fs, p, results, sub);
    if pathr.Err? {
      return Err(pathr.error);
    }
    if Truthy(pathr.value) {
      return Ok(pathr.value.value);
    }
    r := Convert(fs.disk, m.crate, p, m.dataset, m.app, m.remote, m.flags);
  }

  /** The path loop: each path token mapped, with its position. */
  method RewritePaths(fs: FileSystem, paths: seq<Tagged>, m: Mapping,
                      results: Option<Dict<string, string>>, sub: string)
    returns (r: Result<seq<Tagged>>)
    modifies fs
    ensures var (spec, d') := RewriteFrom(old(fs.disk), Texts(paths), 0, [], m, results, sub);
      fs.disk == d' && (r.Ok? <==> spec.Ok?)
      && (r.Ok? ==> r.value == Retag(spec.value, paths))
      && (r.Err? ==> r.error == spec.error)
  {
    ghost var d0 := fs.disk;
    ghost var texts := Texts(paths);
    ghost var whole := RewriteFrom(d0, texts, 0, [], m, results, sub);
    ghost var acc: seq<string> := [];
    var out: seq<Tagged> := [];
    var i := 0;
    while i < |paths|
      invariant 0 <= i <= |paths|
      invariant |acc| == i
      invariant out == Retag(acc, paths[..i])
      invariant RewriteFrom(fs.disk, texts, i, acc, m, results, sub) == whole
      decreases |paths| - i
    {
      TextsAt(paths, i);
      ghost var before := fs.disk;
      var step := RewriteToken(fs, paths[i].text, m, results, sub);
      if step.Err? {
        RewriteFromErr(before, texts, i, acc, m, results, sub, step.error, fs.disk);
        return Err(step.error);
      }
      RewriteFromOk(before, texts, i, acc, m, results, sub, step.value, fs.disk);
      TakeSnoc(paths, i);
      RetagSnoc(acc, paths[..i], step.value, paths[i]);
      acc := acc + [step.value];
      out := out + [Tagged(step.value, paths[i].index)];
      i := i + 1;
    }
    assert whole == (Ok(acc), fs.disk);
    assert paths[..i] == paths;
    return Ok(out);
  }

  // The launcher

  /** new_command[0] = "enqueue_compss" or "runcompss": check_slurm_cluster()
      is subscripted first, so its None raises TypeError; an empty command
      raises IndexError. */
  function Launch(cmd: seq<string>, slurm: Option<(bool, string)>): (r: Result<seq<string>>)
    ensures r.Ok? <==> slurm.Some? && |cmd| > 0
    ensures slurm.None? ==> r == Err(TypeError)
    ensures slurm.Some? && |cmd| == 0 ==> r == Err(IndexError)
    ensures r.Ok? ==> (|r.value| == |cmd| && r.value[1..] == cmd[1..]
                       && r.value[0] == (if slurm.value.0 then "enqueue_compss" else "runcompss"))
  {
    if slurm.None? then Err(TypeError)
    else if |cmd| == 0 then Err(IndexError)
    else Ok(cmd[0 := if slurm.value.0 then "enqueue_compss" else "runcompss"])
  }

  /** The end of both generators: the check's answer unpacked and the
      launcher written over the first token. */
  method SetLauncher(cmd: seq<string>, slurm: Option<(bool, string)>) returns (r: Result<seq<string>>)
    ensures r == Launch(cmd, slurm)
  {
    if slurm.None? {
      return Err(TypeError);
    }
    if |cmd| == 0 {
      return Err(IndexError);
    }
    var newCommand := cmd;
    if slurm.value.0 {
      newCommand := newCommand[0 := "enqueue_compss"];
    } else {
      newCommand := newCommand[0 := "runcompss"];
    }
    return Ok(newCommand);
  }

  // command_line_generator

  /** The catalogues command_line_generator reads before its loops. */
  function CatalogsOf(d: Disk, crate: string, results: Option<Dict<string, string>>): Catalogs {
    Catalogs(FileNames(d, PathJoin(crate, "application_sources")),
             FileNames(d, PathJoin(crate, "dataset")),
             FileNames(d, PathJoin(crate, "remote_dataset")), results)
  }

  /** command_line_generator with the disk it leaves: the command rebuilt
      token by token from the mapped paths and the resolved values, with
      the launcher replaced. */
  function GeneratorSpec(d: Disk, t: seq<string>, m: Mapping, remoteFlag: bool, sub: string,
                         crate: Crate, run: SqueueRun): (Result<seq<string>>, Disk)
  {
    var res := ResultsDictR(crate);
    if res.Err? then (Err(res.error), d)
    else
      var c := CatalogsOf(d, m.crate, res.value);
      var d1 := ClassifyDisk(d, t, c.results, sub);
      var vs := SelectFrom(t, 0, ValueToken);
      var (pr, d2) := RewriteFrom(d1, Texts(SelectFrom(t, 0, PathToken)), 0, [], m, c.results, sub);
      if pr.Err? then (Err(pr.error), d2)
      else
        SelectComplete(t, 0, PathToken);
        SelectComplete(t, 0, ValueToken);
        (Launch(Assemble(t, pr.value, ResolvedValues(vs, c, remoteFlag, sub)), CheckSlurmClusterR(run)), d2)
  }

  /** command_line_generator(command, path, dataset_hashmap,
      application_sources_hashmap, remote_dataset_hashmap, dataset_flags,
      remote_dataset_flag, sub_directory_path), with the command already
      split into tokens, the crate's metadata and the squeue run as
      parameters. */
  method CommandLineGenerator(fs: FileSystem, t: seq<string>, m: Mapping, remoteFlag: bool, sub: string,
                              crate: Crate, run: SqueueRun) returns (r: Result<seq<string>>)
    modifies fs
    ensures (r, fs.disk) == GeneratorSpec(old(fs.disk), t, m, remoteFlag, sub, crate, run)
  {
    var filesA := GetFileNames(fs.disk, PathJoin(m.crate, "application_sources"));
    var filesD := GetFileNames(fs.disk, PathJoin(m.crate, "dataset"));
    var filesR := GetFileNames(fs.disk, PathJoin(m.crate, "remote_dataset"));
    var res := GetResultsDictR(crate);
    if res.Err? {
      return Err(res.error);
    }
    var c := Catalogs(filesA, filesD, filesR, res.value);
    var paths, values := Classify(fs, t, c, remoteFlag, sub);
    var newPaths := RewritePaths(fs, paths, m, c.results, sub);
    if newPaths.Err? {
      return Err(newPaths.error);
    }
    ghost var pt := RewriteFrom(ClassifyDisk(old(fs.disk), t, c.results, sub), Texts(paths), 0, [], m,
                                c.results, sub).0.value;
    ghost var vt := ResolvedValues(SelectFrom(t, 0, ValueToken), c, remoteFlag, sub);
    SelectComplete(t, 0, PathToken);
    SelectComplete(t, 0, ValueToken);
    MergeAssembles(t, 0, pt, vt);
    var newCommand := Merge(newPaths.value, values);
    var slurm := CheckSlurmClusterR(run);
    r := SetLauncher(newCommand, slurm);
  }

  /** The rebuilt command keeps one token per path and value token of the
      recorded one, and its first token is the launcher the SLURM check
      chose. */
  lemma {:induction false} GeneratorShape(d: Disk, t: seq<string>, m: Mapping, remoteFlag: bool, sub: string,
                                          crate: Crate, run: SqueueRun)
    requires GeneratorSpec(d, t, m, remoteFlag, sub, crate, run).0.Ok?
    ensures var out := GeneratorSpec(d, t, m, remoteFlag, sub, crate, run).0.value;
      |out| == Kept(t) && |out| > 0
      && (out[0] == "enqueue_compss" <==> run.Completed? && run.returncode == 0)
      && (out[0] != "enqueue_compss" ==> out[0] == "runcompss")
  {
  }

  // generate_command_line

  /** generate_command_line with the disk it leaves: the category listings
      (each folder created when missing), the first line of the command
      file, stripped and split, and the rebuilt command. */
  function GenerateSpec(d: Disk, cratePath: string, remoteFlag: bool, newFlag: bool, sub: string,
                        split: string -> seq<string>, crate: Crate, run: SqueueRun): (Result<seq<string>>, Disk)
  {
    var remoteDir := PathJoin(cratePath, "remote_dataset");
    var d1 := if remoteFlag then WithDir(d, remoteDir) else d;
    var remote := if remoteFlag then Listing(d1, remoteDir) else {};
    var datasetDir := PathJoin(cratePath, if newFlag then "new_dataset" else "dataset");
    var d2 := WithDir(d1, datasetDir);
    var appDir := PathJoin(cratePath, "application_sources");
    var d3 := WithDir(d2, appDir);
    var line := FirstLine(d3, CommandFile(cratePath));
    if line.Err? then (Err(line.error), d3)
    else
      GeneratorSpec(d3, split(Strip(line.value)),
                    Mapping(cratePath, Listing(d2, datasetDir), Listing(d3, appDir), remote, (remoteFlag, newFlag)),
                    remoteFlag, sub, crate, run)
  }

  /** generate_command_line(self, sub_directory_path), with shlex.split as
      the split parameter. */
  method GenerateCommandLine(fs: FileSystem, cratePath: string, remoteFlag: bool, newFlag: bool, sub: string,
                             split: string -> seq<string>, crate: Crate, run: SqueueRun)
    returns (r: Result<seq<string>>)
    modifies fs
    ensures (r, fs.disk) == GenerateSpec(old(fs.disk), cratePath, remoteFlag, newFlag, sub, split, crate, run)
  {
    var remote: NameSet := {};
    if remoteFlag {
      remote := AddrExtractor(fs, PathJoin(cratePath, "remote_dataset"));
    }
    var dataset: NameSet;
    if !newFlag {
      dataset := AddrExtractor(fs, PathJoin(cratePath, "dataset"));
    } else {
      dataset := AddrExtractor(fs, PathJoin(cratePath, "new_dataset"));
    }
    var app := AddrExtractor(fs, PathJoin(cratePath, "application_sources"));
    var line := FirstLine(fs.disk, CommandFile(cratePath));
    if line.Err? {
      return Err(line.error);
    }
    var command := Strip(line.value);
    r := CommandLineGenerator(fs, split(command), Mapping(cratePath, dataset, app, remote, (remoteFlag, newFlag)),
                              remoteFlag, sub, crate, run);
  }
}
