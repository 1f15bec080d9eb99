/** command_line_generator_dpf of data_persistance_false.py: the recorded
    command of a crate made without data persistence, rebuilt with every
    value token resolved against the application sources and the crate's
    objects, and every path token mapped by address_mapper_dpf. */
module DpfGenerator {
  import opened Common
  import opened Paths
  import opened Dicts
  import opened FileSystems
  import opened Tokens
  import opened Catalog
  import opened AddressMapper
  import opened DpfMapper
  import CommandLine

  // The object and result lists

  /** url_splitter applied to every id, in order. */
  function SplitAll(ids: seq<string>): seq<seq<string>> {
    MapSeq(UrlSplitter, ids)
  }

  /** The loops that fill object_list and result_list. */
  method SplitValues(ids: seq<string>) returns (ls: seq<seq<string>>)
    ensures ls == SplitAll(ids)
  {
    ls := [];
    var i := 0;
    while i < |ids|
      invariant 0 <= i <= |ids|
      invariant ls == SplitAll(ids[..i])
    {
      SplitAllStep(ids, i);
      ls := ls + [UrlSplitter(ids[i])];
      i := i + 1;
    }
    assert ids[..i] == ids;
  }

  lemma {:induction false} SplitAllStep(ids: seq<string>, i: nat)
    requires i < |ids|
    ensures SplitAll(ids[..i + 1]) == SplitAll(ids[..i]) + [UrlSplitter(ids[i])]
  {
    MapSeqStep(UrlSplitter, ids, i);
  }

  /** Every list url_splitter builds rebuilds the id's local path. */
  lemma {:induction false} SplitAllRebuilds(ids: seq<string>, m: nat)
    requires m < |ids|
    ensures var a := Normalise(StripFileUrl(ids[m]));
      JoinWith([""] + SplitAll(ids)[m] + (if EndsWith(a, "/") then [] else [Basename(a)]), '/') == a
  {
    UrlSplitterRebuilds(ids[m]);
  }

  /** [item for item in object_list if item not in result_list]: the
      object lists that are not result lists, in their order. */
  function Unshared(ol: seq<seq<string>>, rl: seq<seq<string>>): (r: seq<seq<string>>)
    ensures forall x :: x in r <==> x in ol && x !in rl
    ensures |r| <= |ol|
    decreases |ol|
  {
    if |ol| == 0 then []
    else
      var rest := Unshared(ol[1..], rl);
      assert forall x :: x in ol <==> x == ol[0] || x in ol[1..];
      (if ol[0] in rl then [] else [ol[0]]) + rest
  }

  // The value tokens

  /** The entity of id carries a name other than cmd. */
  predicate NamedOther(es: seq<Entity>, id: string, cmd: string) {
    EntityById(es, id).Some? && EntityById(es, id).value.name.Some? && EntityById(es, id).value.name.value != cmd
  }

  /** The entity of id is named cmd. */
  predicate NamedAs(es: seq<Entity>, id: string, cmd: string) {
    EntityById(es, id).Some? && EntityById(es, id).value.name == Some(cmd)
  }

  /** The loop over the objects dict from item k on: the first object whose
      entity is named cmd gives its id without the file:// prefix. An id
      with no entity raises TypeError and an entity without a name
      KeyError. */
  function ObjectValue(items: Dict<(string, string), string>, k: nat, es: seq<Entity>, cmd: string)
    : (r: Result<Option<string>>)
    requires k <= |items|
    ensures r == Ok(None) <==> forall m :: k <= m < |items| ==> NamedOther(es, items[m].1, cmd)
    ensures r.Err? ==> r == Err(TypeError) || r == Err(KeyError("name"))
    decreases |items| - k
  {
    if k == |items| then Ok(None)
    else
      var e := EntityById(es, items[k].1);
      if e.None? then Err(TypeError)
      else if e.value.name.None? then Err(KeyError("name"))
      else if e.value.name.value == cmd then Ok(Some(StripFileUrl(items[k].1)))
      else
        assert NamedOther(es, items[k].1, cmd);
        ObjectValue(items, k + 1, es, cmd)
  }

  /** A found object is the first one, from item k on, whose entity is
      named cmd. */
  lemma {:induction false} ObjectValueFirst(items: Dict<(string, string), string>, k: nat, es: seq<Entity>, cmd: string)
    requires k <= |items|
    ensures var r := ObjectValue(items, k, es, cmd);
      r.Ok? && r.value.Some? ==>
        exists m :: k <= m < |items| && NamedAs(es, items[m].1, cmd) && r.value.value == StripFileUrl(items[m].1)
                    && forall m' :: k <= m' < m ==> NamedOther(es, items[m'].1, cmd)
    decreases |items| - k
  {
    var r := ObjectValue(items, k, es, cmd);
    if k < |items| && r.Ok? && r.value.Some? {
      if NamedAs(es, items[k].1, cmd) {
        assert r.value.value == StripFileUrl(items[k].1);
      } else {
        ObjectValueFirst(items, k + 1, es, cmd);
        var m :| k + 1 <= m < |items| && NamedAs(es, items[m].1, cmd) && r.value.value == StripFileUrl(items[m].1)
                 && forall m' :: k + 1 <= m' < m ==> NamedOther(es, items[m'].1, cmd);
        assert forall m' :: k <= m' < m ==> NamedOther(es, items[m'].1, cmd);
      }
    }
  }

  /** The replacement of a value token: the path of an application source
      of that name, else the stripped id of an object of that name, else
      the token itself. */
  function ValueDpf(cmd: string, filesA: Dict<string, string>, items: Dict<(string, string), string>,
                    es: seq<Entity>): Result<string>
  {
    if HasKey(filesA, cmd) then Ok(Get(filesA, cmd).value)
    else
      var o := ObjectValue(items, 0, es, cmd);
      if o.Err? then Err(o.error)
      else if o.value.Some? then Ok(o.value.value)
      else Ok(cmd)
  }

  /** A value token is kept exactly when no application source and no
      object carries its name; an application source that does gives a
      path whose basename is the token. */
  lemma {:induction false} ValueDpfMeaning(cmd: string, d: Disk, path: string,
                                           items: Dict<(string, string), string>, es: seq<Entity>)
    requires KindOf(cmd) == ValueToken && cmd != ""
    ensures var filesA := CommandLine.FileNames(d, PathJoin(path, "application_sources"));
      var r := ValueDpf(cmd, filesA, items, es);
      (HasKey(filesA, cmd) ==> r.Ok? && Basename(r.value) == cmd)
      && (!HasKey(filesA, cmd) && (forall m :: 0 <= m < |items| ==> NamedOther(es, items[m].1, cmd)) ==> r == Ok(cmd))
  {
    assert '/' !in cmd;
    FileNamesLookup(Walk(d, PathJoin(path, "application_sources")), cmd);
  }

  /** The replacements of a list of value tokens; the first failing one
      stops the loop. */
  function ResolvedDpf(vs: seq<Tagged>, filesA: Dict<string, string>, items: Dict<(string, string), string>,
                       es: seq<Entity>): (r: Result<seq<string>>)
    ensures r.Ok? ==> |r.value| == |vs|
    decreases |vs|
  {
    if |vs| == 0 then Ok([])
    else
      var init := ResolvedDpf(vs[..|vs| - 1], filesA, items, es);
      if init.Err? then init
      else
        var v := ValueDpf(vs[|vs| - 1].text, filesA, items, es);
        if v.Err? then Err(v.error) else Ok(init.value + [v.value])
  }

  /** The classification loop of command_line_generator_dpf: the path
      tokens with their positions and the resolved value tokens with
      theirs; flags are dropped. */
  method ClassifyDpf(t: seq<string>, filesA: Dict<string, string>, items: Dict<(string, string), string>,
                     es: seq<Entity>) returns (r: Result<(seq<Tagged>, seq<Tagged>)>)
    ensures var spec := ResolvedDpf(SelectFrom(t, 0, ValueToken), filesA, items, es);
      (r.Ok? <==> spec.Ok?)
      && (r.Err? ==> r.error == spec.error)
      && (r.Ok? ==> r.value.0 == SelectFrom(t, 0, PathToken)
                    && r.value.1 == Retag(spec.value, SelectFrom(t, 0, ValueToken)))
  {
    var paths: seq<Tagged> := [];
    var values: seq<Tagged> := [];
    ghost var resolved: seq<string> := [];
    var i := 0;
    while i < |t|
      invariant 0 <= i <= |t|
      invariant paths == SelectFrom(t[..i], 0, PathToken)
      invariant ResolvedDpf(SelectFrom(t[..i], 0, ValueToken), filesA, items, es) == Ok(resolved)
      invariant |resolved| == |SelectFrom(t[..i], 0, ValueToken)|
      invariant values == Retag(resolved, SelectFrom(t[..i], 0, ValueToken))
    {
      var cmd := t[i];
      SelectSnoc(t, i, PathToken);
      SelectSnoc(t, i, ValueToken);
      ghost var vs := SelectFrom(t[..i], 0, ValueToken);
      if KindOf(cmd) != ValueToken {
        assert SelectFrom(t[..i + 1], 0, ValueToken) == vs;
      } else {
        assert SelectFrom(t[..i + 1], 0, ValueToken) == vs + [Tagged(cmd, i)];
      }
      if KindOf(cmd) == PathToken {
        paths := paths + [Tagged(cmd, i)];
      } else if KindOf(cmd) == ValueToken {
        ghost var vs' := vs + [Tagged(cmd, i)];
        assert vs'[..|vs'| - 1] == vs;
        var value: string;
        if HasKey(filesA, cmd) {
          value := Get(filesA, cmd).value;
        } else {
          var o := ObjectLookup(items, es, cmd);
          if o.Err? {
            r := Err(o.error);
            assert ResolvedDpf(vs', filesA, items, es) == Err(o.error);
            SelectPrefixErr(t, i + 1, filesA, items, es);
            return;
          }
          if o.value.Some? {
            value := o.value.value;
          } else {
            value := cmd;
          }
        }
        assert ValueDpf(cmd, filesA, items, es) == Ok(value);
        assert ResolvedDpf(vs', filesA, items, es) == Ok(resolved + [value]);
        RetagSnoc(resolved, vs, value, Tagged(cmd, i));
        resolved := resolved + [value];
        values := values + [Tagged(value, i)];
      }
      i := i + 1;
    }
    assert t[..i] == t;
    return Ok((paths, values));
  }

  /** A failure among the first value tokens is the failure of them all. */
  lemma {:induction false} SelectPrefixErr(t: seq<string>, i: nat, filesA: Dict<string, string>,
                                           items: Dict<(string, string), string>, es: seq<Entity>)
    requires i <= |t| && ResolvedDpf(SelectFrom(t[..i], 0, ValueToken), filesA, items, es).Err?
    ensures ResolvedDpf(SelectFrom(t, 0, ValueToken), filesA, items, es)
      == ResolvedDpf(SelectFrom(t[..i], 0, ValueToken), filesA, items, es)
  {
    assert t == t[..i] + t[i..];
    SelectAppend(t[..i], t[i..], 0, ValueToken);
    ResolvedAppendErr(SelectFrom(t[..i], 0, ValueToken), SelectFrom(t[i..], i, ValueToken), filesA, items, es);
  }

  lemma {:induction false} ResolvedAppendErr(vs: seq<Tagged>, ws: seq<Tagged>, filesA: Dict<string, string>,
                                             items: Dict<(string, string), string>, es: seq<Entity>)
    requires ResolvedDpf(vs, filesA, items, es).Err?
    ensures ResolvedDpf(vs + ws, filesA, items, es) == ResolvedDpf(vs, filesA, items, es)
    decreases |ws|
  {
    if |ws| == 0 {
      assert vs + ws == vs;
    } else {
      var all := vs + ws;
      assert all[..|all| - 1] == vs + ws[..|ws| - 1];
      ResolvedAppendErr(vs, ws[..|ws| - 1], filesA, items, es);
    }
  }

  /** The inner loop over the objects dict. */
  method ObjectLookup(items: Dict<(string, string), string>, es: seq<Entity>, cmd: string)
    returns (r: Result<Option<string>>)
    ensures r == ObjectValue(items, 0, es, cmd)
  {
    var k := 0;
    while k < |items|
      invariant 0 <= k <= |items|
      invariant ObjectValue(items, k, es, cmd) == ObjectValue(items, 0, es, cmd)
    {
      var id := items[k].1;
      var entity := EntityById(es, id);
      if entity.None? {
        return Err(TypeError);
      }
      if entity.value.name.None? {
        return Err(KeyError("name"));
      }
      if entity.value.name.value == cmd {
        return Ok(Some(StripFileUrl(id)));
      }
      k := k + 1;
    }
    return Ok(None);
  }

  // The path tokens

  /** The mapping of one path token, with the disk and the output counter
      it leaves. */
  type Step = (Disk, nat, string) -> (Result<string>, Disk, nat)

  /** address_mapper_dpf with the lists, the application sources and the
      result folder of one generator run. */
  function MapperStep(rp: Option<string>, ol: seq<seq<string>>, rl: seq<seq<string>>, app: NameSet,
                      path: string): Step
  {
    (d: Disk, n: nat, p: string) => MapDpfSpec(d, n, rp, p, ol, rl, app, path)
  }

  /** A step that only adds to the disk and the counter, counts only when
      there is a result folder, answers a path that exists, and fails only
      for want of a result folder or of a mapped address. */
  ghost predicate GoodStep(step: Step, rp: Option<string>) {
    forall d: Disk, n: nat, p: string :: StepKeeps(d, n, step(d, n, p), rp)
  }

  predicate StepKeeps(d: Disk, n: nat, s: (Result<string>, Disk, nat), rp: Option<string>) {
    n <= s.2 && d.entries <= s.1.entries
    && (s.2 > n ==> rp.Some?)
    && (s.0.Ok? ==> Exists(s.1, s.0.value))
    && (match s.0 case Ok(_) => true case Err(e) => e == TypeError || e.FileNotFound?)
  }

  /** address_mapper_dpf is such a step. */
  lemma {:induction false} MapperStepGood(rp: Option<string>, ol: seq<seq<string>>, rl: seq<seq<string>>,
                                          app: NameSet, path: string)
    ensures GoodStep(MapperStep(rp, ol, rl, app, path), rp)
  {
    var step := MapperStep(rp, ol, rl, app, path);
    forall d: Disk, n: nat, p: string ensures StepKeeps(d, n, step(d, n, p), rp) {
      MapDpfOutcome(d, n, rp, p, ol, rl, app, path);
    }
  }

  /** The path loop from token i on, after the mappings acc of the tokens
      before it, with the disk and the output counter it leaves. */
  function MapFrom(step: Step, d: Disk, n: nat, ps: seq<string>, i: nat, acc: seq<string>)
    : (r: (Result<seq<string>>, Disk, nat))
    requires i <= |ps|
    ensures r.0.Ok? ==> |r.0.value| == |acc| + |ps| - i
    decreases |ps| - i
  {
    if i == |ps| then (Ok(acc), d, n)
    else
      var (r0, d1, n1) := step(d, n, ps[i]);
      if r0.Err? then (Err(r0.error), d1, n1)
      else MapFrom(step, d1, n1, ps, i + 1, acc + [r0.value])
  }

  /** The path loop only adds to the disk and the counter, and every path
      it maps exists on the disk it leaves; it fails only for want of a
      result folder or of a mapped address. */
  lemma {:induction false} MapFromOutcome(step: Step, rp: Option<string>, d: Disk, n: nat, ps: seq<string>,
                                          i: nat, acc: seq<string>)
    requires i <= |ps| && GoodStep(step, rp)
    ensures var (r, d', n') := MapFrom(step, d, n, ps, i, acc);
      n <= n' && d.entries <= d'.entries
      && (n' > n ==> rp.Some?)
      && (r.Ok? ==> r.value[..|acc|] == acc
                    && forall m :: |acc| <= m < |r.value| ==> Exists(d', r.value[m]))
      && (match r case Ok(_) => true case Err(e) => e == TypeError || e.FileNotFound?)
    decreases |ps| - i
  {
    if i < |ps| {
      var (r0, d1, n1) := step(d, n, ps[i]);
      assert StepKeeps(d, n, step(d, n, ps[i]), rp);
      if r0.Ok? {
        var acc' := acc + [r0.value];
        MapFromOutcome(step, rp, d1, n1, ps, i + 1, acc');
        var (r, d', n') := MapFrom(step, d1, n1, ps, i + 1, acc');
        if r.Ok? {
          assert r.value[..|acc'|][..|acc|] == r.value[..|acc|];
          assert r.value[|acc|] == r0.value;
        }
      }
    }
  }

  /** The path loop: each path token mapped by the allocator, with its
      position. */
  method MapPaths(fs: FileSystem, alloc: OutputAllocator, paths: seq<Tagged>, ol: seq<seq<string>>,
                  rl: seq<seq<string>>, app: NameSet, path: string) returns (r: Result<seq<Tagged>>)
    modifies fs, alloc
    ensures alloc.resultPath == old(alloc.resultPath)
    ensures var (spec, d', n') := MapFrom(MapperStep(alloc.resultPath, ol, rl, app, path),
                                          old(fs.disk), old(alloc.outputNum), Texts(paths), 0, []);
      fs.disk == d' && alloc.outputNum == n' && (r.Ok? <==> spec.Ok?)
      && (r.Ok? ==> r.value == Retag(spec.value, paths))
      && (r.Err? ==> r.error == spec.error)
  {
    ghost var texts := Texts(paths);
    ghost var step := MapperStep(alloc.resultPath, ol, rl, app, path);
    ghost var whole := MapFrom(step, fs.disk, alloc.outputNum, texts, 0, []);
    ghost var acc: seq<string> := [];
    var out: seq<Tagged> := [];
    var i := 0;
    while i < |paths|
      invariant 0 <= i <= |paths|
      invariant alloc.resultPath == old(alloc.resultPath)
      invariant |acc| == i
      invariant out == Retag(acc, paths[..i])
      invariant MapFrom(step, fs.disk, alloc.outputNum, texts, i, acc) == whole
      decreases |paths| - i
    {
      TextsAt(paths, i);
      ghost var before, counted := fs.disk, alloc.outputNum;
      var mapped := alloc.MapAddress(fs, paths[i].text, ol, rl, app, path);
      assert step(before, counted, texts[i]) == (mapped, fs.disk, alloc.outputNum);
      if mapped.Err? {
        return Err(mapped.error);
      }
      TakeSnoc(paths, i);
      RetagSnoc(acc, paths[..i], mapped.value, paths[i]);
      acc := acc + [mapped.value];
      out := out + [Tagged(mapped.value, paths[i].index)];
      i := i + 1;
    }
    assert paths[..i] == paths;
    return Ok(out);
  }

  // command_line_generator_dpf

  /** command_line_generator_dpf with the disk and the output counter it
      leaves: both dicts of the crate are read first, the application
      sources are walked and then listed (the folder created when
      missing), every value is resolved before any path is mapped, and
      the merged command gets the launcher the cluster check picks. */
  function GeneratorDpfSpec(d: Disk, n: nat, rp: Option<string>, t: seq<string>, path: string,
                            crate: Crate, run: SqueueRun): (Result<seq<string>>, Disk, nat)
  {
    var objects := ObjectsDict(crate);
    if objects.Err? then (Err(objects.error), d, n)
    else
      var results := ResultsDict(crate);
      if results.Err? then (Err(results.error), d, n)
      else
        var appDir := PathJoin(path, "application_sources");
        var filesA := CommandLine.FileNames(d, appDir);
        var d1 := WithDir(d, appDir);
        var rl := SplitAll(Values(results.value));
        var ol := Unshared(SplitAll(Values(objects.value)), rl);
        var vals := ResolvedDpf(SelectFrom(t, 0, ValueToken), filesA, objects.value, crate.entities);
        if vals.Err? then (Err(vals.error), d1, n)
        else
          var step := MapperStep(rp, ol, rl, Listing(d1, appDir), path);
          var (pr, d2, n2) := MapFrom(step, d1, n, Texts(SelectFrom(t, 0, PathToken)), 0, []);
          if pr.Err? then (Err(pr.error), d2, n2)
          else
            SelectComplete(t, 0, PathToken);
            SelectComplete(t, 0, ValueToken);
            (CommandLine.Launch(Assemble(t, pr.value, vals.value), Some(CheckSlurmCluster(run))), d2, n2)
  }

  /** command_line_generator_dpf(command, path), with the command already
      split into tokens, the crate's metadata and the squeue run as
      parameters, and the module's RESULT_PATH and OUTPUT_NUM held by the
      allocator. */
  method CommandLineGeneratorDpf(fs: FileSystem, alloc: OutputAllocator, t: seq<string>, path: string,
                                 crate: Crate, run: SqueueRun) returns (r: Result<seq<string>>)
    modifies fs, alloc
    ensures alloc.resultPath == old(alloc.resultPath)
    ensures (r, fs.disk, alloc.outputNum)
      == GeneratorDpfSpec(old(fs.disk), old(alloc.outputNum), alloc.resultPath, t, path, crate, run)
  {
    var objects := GetObjectsDict(crate);
    if objects.Err? {
      return Err(objects.error);
    }
    var results := GetResultsDict(crate);
    if results.Err? {
      return Err(results.error);
    }
    var appDir := PathJoin(path, "application_sources");
    var filesA := GetFileNames(fs.disk, appDir);
    var app := AddrExtractor(fs, appDir);
    var rl := SplitValues(Values(results.value));
    var allObjects := SplitValues(Values(objects.value));
    var ol := Unshared(allObjects, rl);
    var classified := ClassifyDpf(t, filesA, objects.value, crate.entities);
    if classified.Err? {
      return Err(classified.error);
    }
    var (paths, values) := classified.value;
    ghost var d1 := fs.disk;
    ghost var n1 := alloc.outputNum;
    var newPaths := MapPaths(fs, alloc, paths, ol, rl, app, path);
    if newPaths.Err? {
      return Err(newPaths.error);
    }
    ghost var pt := MapFrom(MapperStep(alloc.resultPath, ol, rl, app, path), d1, n1, Texts(paths), 0, []).0.value;
    ghost var vt := ResolvedDpf(SelectFrom(t, 0, ValueToken), filesA, objects.value, crate.entities).value;
    SelectComplete(t, 0, PathToken);
    SelectComplete(t, 0, ValueToken);
    MergeAssembles(t, 0, pt, vt);
    var newCommand := Merge(newPaths.value, values);
    var slurm := CheckSlurmCluster(run);
    r := CommandLine.SetLauncher(newCommand, Some(slurm));
  }

  /** The rebuilt command keeps one token per path and value token of the
      recorded one, drops every flag, starts with the launcher the cluster
      check picks, and every value token is either kept or resolved. */
  lemma {:induction false} GeneratorDpfShape(d: Disk, n: nat, rp: Option<string>, t: seq<string>, path: string,
                                             crate: Crate, run: SqueueRun)
    requires GeneratorDpfSpec(d, n, rp, t, path, crate, run).0.Ok?
    ensures var (r, d', n') := GeneratorDpfSpec(d, n, rp, t, path, crate, run);
      |r.value| == Kept(t) && |r.value| > 0
      && (r.value[0] == "enqueue_compss" <==> run.Completed? && run.returncode == 0)
      && (r.value[0] != "enqueue_compss" ==> r.value[0] == "runcompss")
      && n <= n' && d.entries <= d'.entries
  {
    var objects := ObjectsDict(crate).value;
    var results := ResultsDict(crate).value;
    var appDir := PathJoin(path, "application_sources");
    var filesA := CommandLine.FileNames(d, appDir);
    var d1 := WithDir(d, appDir);
    var rl := SplitAll(Values(results));
    var ol := Unshared(SplitAll(Values(objects)), rl);
    MapperStepGood(rp, ol, rl, Listing(d1, appDir), path);
    MapFromOutcome(MapperStep(rp, ol, rl, Listing(d1, appDir), path), rp, d1, n,
                   Texts(SelectFrom(t, 0, PathToken)), 0, []);
  }
}
