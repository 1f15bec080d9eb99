/** repro_methods/generate_command_line.py: the older command generator. It
    classifies the tokens as the newer one does, converts every path token
    with the older mapper, keeps every value token as recorded, drops the
    flags, and turns an enqueue_compss launcher into runcompss. */
module LegacyCommandLine {
  import opened Common
  import opened Paths
  import opened FileSystems
  import opened Tokens
  import opened Catalog
  import opened AddressMapper
  import opened LegacyAddressMapper

  /** `for line in open(p): command = line; break`: the first line as read,
      line ending included; an empty file leaves the variable unbound. */
  function FirstRawLine(d: Disk, p: string): (r: Result<string>)
    ensures r.Ok? <==> p in d.contents && |d.contents[p]| > 0
    ensures r.Ok? ==> r.value == d.contents[p][0]
    ensures p in d.contents && |d.contents[p]| == 0 ==> r == Err(UnboundLocal("compss_submission_command"))
    ensures p !in d.contents ==> r == Err(OsError(p))
  {
    if p !in d.contents then Err(OsError(p))
    else if |d.contents[p]| == 0 then Err(UnboundLocal("compss_submission_command"))
    else Ok(d.contents[p][0])
  }

  /** The conversion the path loop applies to each token. */
  function Converter(d: Disk, path: string, dataset: NameSet, app: NameSet): string -> Result<string> {
    a => LegacyConvertSpec(d, path, a, dataset, app)
  }

  /** The path loop from token i on, after the conversions acc of the
      tokens before it: the first failing conversion stops it. */
  function ConvertFrom(conv: string -> Result<string>, ps: seq<string>,
                       i: nat, acc: seq<string>): (r: Result<seq<string>>)
    requires i <= |ps|
    ensures r.Ok? ==> |r.value| == |acc| + |ps| - i
    decreases |ps| - i
  {
    if i == |ps| then Ok(acc)
    else
      var c := conv(ps[i]);
      if c.Err? then Err(c.error)
      else ConvertFrom(conv, ps, i + 1, acc + [c.value])
  }

  /** The path loop converts each path token on its own: on success the
      k-th result is the conversion of the k-th token, and a failure is the
      error of the first token that does not convert. */
  lemma {:induction false} ConvertFromMeaning(conv: string -> Result<string>, ps: seq<string>, i: nat, acc: seq<string>)
    requires i <= |ps|
    ensures var r := ConvertFrom(conv, ps, i, acc);
      r.Ok? <==> forall k :: i <= k < |ps| ==> conv(ps[k]).Ok?
    ensures var r := ConvertFrom(conv, ps, i, acc);
      r.Ok? ==> r.value[..|acc|] == acc
                && forall k :: i <= k < |ps| ==> r.value[|acc| + k - i] == conv(ps[k]).value
    ensures var r := ConvertFrom(conv, ps, i, acc);
      r.Err? ==> exists k :: i <= k < |ps| && conv(ps[k]).Err? && r.error == conv(ps[k]).error
                             && forall j :: i <= j < k ==> conv(ps[j]).Ok?
    decreases |ps| - i
  {
    if i < |ps| {
      var c := conv(ps[i]);
      if c.Ok? {
        var acc' := acc + [c.value];
        ConvertFromMeaning(conv, ps, i + 1, acc');
        var r := ConvertFrom(conv, ps, i, acc);
        if r.Ok? {
          assert r.value[..|acc'|][..|acc|] == r.value[..|acc|];
        }
      }
    }
  }

  /** `if new_command[0] == "enqueue_compss": new_command[0] = "runcompss"`,
      with the IndexError of an empty command. */
  function Relaunch(cmd: seq<string>): (r: Result<seq<string>>)
    ensures r.Ok? <==> |cmd| > 0
    ensures |cmd| == 0 ==> r == Err(IndexError)
    ensures r.Ok? ==> (|r.value| == |cmd| && r.value[1..] == cmd[1..] && r.value[0] != "enqueue_compss"
                       && (cmd[0] != "enqueue_compss" ==> r.value[0] == cmd[0]))
  {
    if |cmd| == 0 then Err(IndexError)
    else if cmd[0] == "enqueue_compss" then Ok(cmd[0 := "runcompss"])
    else Ok(cmd)
  }

  /** The rebuild of command_line_generator with conv as the address
      conversion: the converted paths and the values in their recorded
      order, then the launcher rewrite. */
  function RebuildWith(conv: string -> Result<string>, t: seq<string>): Result<seq<string>> {
    var ps := SelectFrom(t, 0, PathToken);
    var vs := SelectFrom(t, 0, ValueToken);
    var pr := ConvertFrom(conv, Texts(ps), 0, []);
    if pr.Err? then Err(pr.error)
    else
      SelectSoundCount(t, 0, PathToken);
      SelectSoundCount(t, 0, ValueToken);
      Relaunch(Assemble(t, pr.value, Texts(vs)))
  }

  /** command_line_generator of the older generator on the split command. */
  function LegacyGeneratorSpec(d: Disk, t: seq<string>, path: string, dataset: NameSet, app: NameSet): Result<seq<string>> {
    RebuildWith(Converter(d, path, dataset, app), t)
  }

  /** Every token the assembly puts out is one of the path texts or one of
      the value texts it was given. */
  lemma {:induction false} AssembleFrom(t: seq<string>, pt: seq<string>, vt: seq<string>)
    requires |pt| == CountOf(t, PathToken) && |vt| == CountOf(t, ValueToken)
    ensures forall x :: x in Assemble(t, pt, vt) ==> x in pt || x in vt
    decreases |t|
  {
    if |t| > 0 {
      if KindOf(t[0]) == PathToken {
        AssembleFrom(t[1..], pt[1..], vt);
        assert forall x :: x in pt[1..] ==> x in pt;
      } else if KindOf(t[0]) == ValueToken {
        AssembleFrom(t[1..], pt, vt[1..]);
        assert forall x :: x in vt[1..] ==> x in vt;
      } else {
        AssembleFrom(t[1..], pt, vt);
      }
    }
  }

  /** The path loop succeeds exactly when every path token of the command
      converts. */
  lemma {:induction false} PathsConvert(conv: string -> Result<string>, t: seq<string>)
    ensures ConvertFrom(conv, Texts(SelectFrom(t, 0, PathToken)), 0, []).Ok? <==>
      forall k :: 0 <= k < |t| && KindOf(t[k]) == PathToken ==> conv(t[k]).Ok?
  {
    var ps := SelectFrom(t, 0, PathToken);
    SelectSoundCount(t, 0, PathToken);
    SelectComplete(t, 0, PathToken);
    var texts := Texts(ps);
    ConvertFromMeaning(conv, texts, 0, []);
    if ConvertFrom(conv, texts, 0, []).Ok? {
      forall k | 0 <= k < |t| && KindOf(t[k]) == PathToken ensures conv(t[k]).Ok? {
        var m :| 0 <= m < |ps| && ps[m].index == k;
        assert PicksAt(ps, t, 0, PathToken, m);
        TextsAt(ps, m);
      }
    }
    if forall k :: 0 <= k < |t| && KindOf(t[k]) == PathToken ==> conv(t[k]).Ok? {
      forall k | 0 <= k < |texts| ensures conv(texts[k]).Ok? {
        assert PicksAt(ps, t, 0, PathToken, k);
        TextsAt(ps, k);
      }
    }
  }

  /** Each token of the rebuilt command is a conversion result, a recorded
      value token or the runcompss that replaced enqueue_compss. */
  lemma {:induction false} RebuildTokens(conv: string -> Result<string>, good: string -> bool, t: seq<string>)
    requires forall a :: conv(a).Ok? ==> good(conv(a).value)
    requires RebuildWith(conv, t).Ok?
    ensures var out := RebuildWith(conv, t).value;
      forall m :: 0 <= m < |out| ==>
        (good(out[m]) || (KindOf(out[m]) == ValueToken && out[m] in t) || (m == 0 && out[m] == "runcompss"))
  {
    var ps := SelectFrom(t, 0, PathToken);
    var vs := SelectFrom(t, 0, ValueToken);
    SelectSoundCount(t, 0, PathToken);
    SelectSoundCount(t, 0, ValueToken);
    var pv := ConvertFrom(conv, Texts(ps), 0, []).value;
    var vt := Texts(vs);
    var assembled := Assemble(t, pv, vt);
    AssembleFrom(t, pv, vt);
    ConvertedGood(conv, good, Texts(ps));
    ValuesRecorded(t);
    var out := RebuildWith(conv, t).value;
    forall m | 0 <= m < |out|
      ensures good(out[m]) || (KindOf(out[m]) == ValueToken && out[m] in t) || (m == 0 && out[m] == "runcompss")
    {
      if !(m == 0 && out[m] == "runcompss") {
        assert out[m] == assembled[m];
        assert assembled[m] in assembled;
      }
    }
  }

  /** Every successful conversion of the path loop has the property good. */
  lemma {:induction false} ConvertedGood(conv: string -> Result<string>, good: string -> bool, texts: seq<string>)
    requires forall a :: conv(a).Ok? ==> good(conv(a).value)
    requires ConvertFrom(conv, texts, 0, []).Ok?
    ensures forall x :: x in ConvertFrom(conv, texts, 0, []).value ==> good(x)
  {
    ConvertFromMeaning(conv, texts, 0, []);
    var pv := ConvertFrom(conv, texts, 0, []).value;
    forall x | x in pv ensures good(x) {
      var k :| 0 <= k < |pv| && pv[k] == x;
      assert pv[k] == conv(texts[k]).value;
    }
  }

  /** Every value text the classification keeps is a recorded value
      token. */
  lemma {:induction false} ValuesRecorded(t: seq<string>)
    ensures forall x :: x in Texts(SelectFrom(t, 0, ValueToken)) ==> KindOf(x) == ValueToken && x in t
  {
    var vs := SelectFrom(t, 0, ValueToken);
    SelectSoundCount(t, 0, ValueToken);
    var vt := Texts(vs);
    forall x | x in vt ensures KindOf(x) == ValueToken && x in t {
      var k :| 0 <= k < |vt| && vt[k] == x;
      TextsAt(vs, k);
      assert PicksAt(vs, t, 0, ValueToken, k);
    }
  }

  /** The rebuild succeeds exactly when every path token converts and the
      command keeps a token. It then puts out one token per path and value
      token, each a conversion result with the property good, a recorded
      value token or the runcompss that replaced enqueue_compss. */
  lemma {:induction false} RebuildShape(conv: string -> Result<string>, good: string -> bool, t: seq<string>)
    requires forall a :: conv(a).Ok? ==> good(conv(a).value)
    ensures var r := RebuildWith(conv, t);
      r.Ok? <==> Kept(t) > 0 && forall k :: 0 <= k < |t| && KindOf(t[k]) == PathToken ==> conv(t[k]).Ok?
    ensures var r := RebuildWith(conv, t);
      r.Ok? ==> |r.value| == Kept(t) && r.value[0] != "enqueue_compss"
                && forall m :: 0 <= m < |r.value| ==>
                     (good(r.value[m]) || (KindOf(r.value[m]) == ValueToken && r.value[m] in t)
                      || (m == 0 && r.value[m] == "runcompss"))
  {
    PathsConvert(conv, t);
    if RebuildWith(conv, t).Ok? {
      RebuildTokens(conv, good, t);
    }
  }

  /** The older generator succeeds exactly when every path token converts
      and the command keeps a token. It then puts out one token per path and
      value token, each an existing converted path, a recorded value token
      or the runcompss that replaced enqueue_compss: flags never survive. */
  lemma {:induction false} LegacyGeneratorShape(d: Disk, t: seq<string>, path: string, dataset: NameSet, app: NameSet)
    ensures var r := LegacyGeneratorSpec(d, t, path, dataset, app);
      r.Ok? <==> Kept(t) > 0 && forall k :: 0 <= k < |t| && KindOf(t[k]) == PathToken ==>
                                  LegacyConvertSpec(d, path, t[k], dataset, app).Ok?
    ensures var r := LegacyGeneratorSpec(d, t, path, dataset, app);
      r.Ok? ==> |r.value| == Kept(t) && r.value[0] != "enqueue_compss"
                && forall m :: 0 <= m < |r.value| ==>
                     (Exists(d, r.value[m]) || (KindOf(r.value[m]) == ValueToken && r.value[m] in t)
                      || (m == 0 && r.value[m] == "runcompss"))
  {
    var conv := Converter(d, path, dataset, app);
    var good := (x: string) => Exists(d, x);
    forall a | conv(a).Ok? ensures good(conv(a).value) {
      LegacyConvertChoice(d, path, a, dataset, app);
    }
    RebuildShape(conv, good, t);
  }

  /** The classification loop: each token's kind decides the list it is
      appended to, with its position; provenance flags go nowhere. */
  method Classify(t: seq<string>) returns (flags: seq<Tagged>, paths: seq<Tagged>, values: seq<Tagged>)
    ensures flags == SelectFrom(t, 0, Flag)
    ensures paths == SelectFrom(t, 0, PathToken)
    ensures values == SelectFrom(t, 0, ValueToken)
  {
    flags, paths, values := [], [], [];
    var i := 0;
    while i < |t|
      invariant 0 <= i <= |t|
      invariant flags == SelectFrom(t[..i], 0, Flag)
      invariant paths == SelectFrom(t[..i], 0, PathToken)
      invariant values == SelectFrom(t[..i], 0, ValueToken)
    {
      SelectSnoc(t, i, Flag);
      SelectSnoc(t, i, PathToken);
      SelectSnoc(t, i, ValueToken);
      if IsFlag(t[i]) {
        if !IsProvenance(t[i]) {
          flags := flags + [Tagged(t[i], i)];
        }
      } else if HasSeparator(t[i]) {
        paths := paths + [Tagged(t[i], i)];
      } else {
        values := values + [Tagged(t[i], i)];
      }
      i := i + 1;
    }
    assert t[..i] == t;
  }

  /** The path loop: each path token converted, with its position. */
  method ConvertPaths(d: Disk, paths: seq<Tagged>, path: string, dataset: NameSet, app: NameSet)
    returns (r: Result<seq<Tagged>>)
    ensures var spec := ConvertFrom(Converter(d, path, dataset, app), Texts(paths), 0, []);
      (r.Ok? <==> spec.Ok?) && (r.Ok? ==> r.value == Retag(spec.value, paths))
      && (r.Err? ==> r.error == spec.error)
  {
    ghost var texts := Texts(paths);
    ghost var whole := ConvertFrom(Converter(d, path, dataset, app), texts, 0, []);
    ghost var acc: seq<string> := [];
    var out: seq<Tagged> := [];
    var i := 0;
    while i < |paths|
      invariant 0 <= i <= |paths|
      invariant |acc| == i
      invariant out == Retag(acc, paths[..i])
      invariant ConvertFrom(Converter(d, path, dataset, app), texts, i, acc) == whole
    {
      TextsAt(paths, i);
      var converted := LegacyConvert(d, path, paths[i].text, dataset, app);
      if converted.Err? {
        return Err(converted.error);
      }
      TakeSnoc(paths, i);
      RetagSnoc(acc, paths[..i], converted.value, paths[i]);
      acc := acc + [converted.value];
      out := out + [Tagged(converted.value, paths[i].index)];
      i := i + 1;
    }
    assert paths[..i] == paths;
    return Ok(out);
  }

  /** command_line_generator(command, path, dataset_hashmap,
      application_sources_hashmap) of the older generator, with the command
      already split into tokens. */
  method LegacyCommandLineGenerator(d: Disk, t: seq<string>, path: string, dataset: NameSet, app: NameSet)
    returns (r: Result<seq<string>>)
    ensures r == LegacyGeneratorSpec(d, t, path, dataset, app)
  {
    var flags, paths, values := Classify(t);
    var newPaths := ConvertPaths(d, paths, path, dataset, app);
    if newPaths.Err? {
      return Err(newPaths.error);
    }
    ghost var pt := ConvertFrom(Converter(d, path, dataset, app), Texts(paths), 0, []).value;
    SelectSoundCount(t, 0, PathToken);
    SelectSoundCount(t, 0, ValueToken);
    MergeAssembles(t, 0, pt, Texts(values));
    assert Retag(Texts(values), values) == values by {
      RetagTexts(values);
    }
    var newCommand := Merge(newPaths.value, values);
    if |newCommand| == 0 {
      return Err(IndexError);
    }
    if newCommand[0] == "enqueue_compss" {
      newCommand := newCommand[0 := "runcompss"];
    }
    return Ok(newCommand);
  }

  /** Retagging a list with its own texts gives it back. */
  lemma {:induction false} RetagTexts(ts: seq<Tagged>)
    ensures Retag(Texts(ts), ts) == ts
    decreases |ts|
  {
    if |ts| > 0 {
      RetagTexts(ts[1..]);
    }
  }

  /** generate_command_line of the older generator, with the disk it
      leaves: the dataset and application_sources listings (each folder
      created when missing), the first raw line of the command file, split,
      and the rebuilt command. */
  function LegacyGenerateSpec(d: Disk, path: string, split: string -> seq<string>): (Result<seq<string>>, Disk) {
    var datasetDir := PathJoin(path, "dataset");
    var d1 := WithDir(d, datasetDir);
    var appDir := PathJoin(path, "application_sources");
    var d2 := WithDir(d1, appDir);
    var line := FirstRawLine(d2, CommandFile(path));
    if line.Err? then (Err(line.error), d2)
    else (LegacyGeneratorSpec(d2, split(line.value), path, Listing(d1, datasetDir), Listing(d2, appDir)), d2)
  }

  /** generate_command_line(self) of the older generator, with shlex.split
      as the split parameter. */
  method LegacyGenerateCommandLine(fs: FileSystem, path: string, split: string -> seq<string>)
    returns (r: Result<seq<string>>)
    modifies fs
    ensures (r, fs.disk) == LegacyGenerateSpec(old(fs.disk), path, split)
  {
    var dataset := AddrExtractor(fs, PathJoin(path, "dataset"));
    var app := AddrExtractor(fs, PathJoin(path, "application_sources"));
    var line := FirstRawLine(fs.disk, CommandFile(path));
    if line.Err? {
      return Err(line.error);
    }
    r := LegacyCommandLineGenerator(fs.disk, split(line.value), path, dataset, app);
  }
}
